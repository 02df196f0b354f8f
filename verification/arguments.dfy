/**
 Launch arguments: what the executor appends for a parameterized stage and what the
 kernel's signature names them (src/backend/cuda/cuda_backend.cpp, launch;
 src/backend/cuda/codegen.cpp, emit_stage).
 */
module Arguments {
  import opened Chains
  import opened Oracle
  import opened FusionPlan
  import opened Kernels
  import opened FusionCorrect

  datatype Actual = IntActual(n: nat) | TapsActual(taps: seq<real>) | FloatActual(value: real)

  /** The fixed-size weight array: zeros, with the weights copied over the front. */
  function TapsArray(weights: seq<real>): seq<real> {
    if |weights| <= MAX_GAUSSIAN_TAPS then weights + seq(MAX_GAUSSIAN_TAPS - |weights|, i => 0.0)
    else weights[..MAX_GAUSSIAN_TAPS]
  }

  /** A gaussian is two arguments, radius then weights; any other operation is one float. */
  function ActualsFor(nm: Numerics, op: Op): seq<Actual> {
    if op.kind == Gaussian then [IntActual(GaussianRadius(op.param)), TapsActual(TapsArray(Weights(nm, op.param)))]
    else [FloatActual(op.param)]
  }

  /** Every position named is a position of the chain. */
  predicate InChain(positions: seq<nat>, chain: OpChain) {
    forall p :: 0 <= p < |positions| ==> positions[p] < |chain|
  }

  function LaunchActuals(nm: Numerics, chain: OpChain, paramOps: seq<nat>): seq<Actual>
    requires InChain(paramOps, chain)
  {
    if paramOps == [] then []
    else LaunchActuals(nm, chain, paramOps[..|paramOps| - 1]) + ActualsFor(nm, chain[paramOps[|paramOps| - 1]])
  }

  /** The executor's argument loop: this frame's own values, in param_ops order. */
  method BuildArguments(nm: Numerics, chain: OpChain, paramOps: seq<nat>) returns (arguments: seq<Actual>)
    requires InChain(paramOps, chain)
    ensures arguments == LaunchActuals(nm, chain, paramOps)
  {
    arguments := [];
    for p := 0 to |paramOps|
      invariant arguments == LaunchActuals(nm, chain, paramOps[..p])
    {
      var op := chain[paramOps[p]];
      if op.kind == Gaussian {
        var weights := Weights(nm, op.param);
        arguments := arguments + [IntActual(GaussianRadius(op.param)), TapsActual(TapsArray(weights))];
      } else {
        arguments := arguments + [FloatActual(op.param)];
      }
      assert paramOps[..p + 1][..p] == paramOps[..p];
    }
    assert paramOps[..|paramOps|] == paramOps;
  }

  /** One argument of the call reaches one parameter of the signature. */
  function BindOne(env: Env, formal: Formal, actual: Actual): Env {
    match (formal, actual)
    case (RadiusFormal, IntActual(n)) => env.(radius := n)
    case (TapsFormal, TapsActual(taps)) => env.(taps := taps)
    case (ScalarFormal(index), FloatActual(value)) => env.(scalars := env.scalars[index := value])
    case _ => env
  }

  /** Arguments bind by position. */
  function Bind(formals: seq<Formal>, actuals: seq<Actual>): Env {
    if formals == [] || |formals| != |actuals| then Env(0, [], map[])
    else BindOne(Bind(formals[..|formals| - 1], actuals[..|actuals| - 1]), formals[|formals| - 1], actuals[|actuals| - 1])
  }

  function FormalsFor(index: nat, kind: OpKind): seq<Formal> {
    if kind == Gaussian then [RadiusFormal, TapsFormal] else [ScalarFormal(index)]
  }

  /** The signature a list of parameterized positions needs. */
  function Signature(chain: OpChain, paramOps: seq<nat>): seq<Formal>
    requires InChain(paramOps, chain)
  {
    if paramOps == [] then []
    else Signature(chain, paramOps[..|paramOps| - 1])
         + FormalsFor(paramOps[|paramOps| - 1], chain[paramOps[|paramOps| - 1]].kind)
  }

  lemma {:induction false} SignatureMatches(nm: Numerics, chain: OpChain, paramOps: seq<nat>)
    requires InChain(paramOps, chain)
    ensures |Signature(chain, paramOps)| == |LaunchActuals(nm, chain, paramOps)|
  {
    if paramOps != [] {
      SignatureMatches(nm, chain, paramOps[..|paramOps| - 1]);
    }
  }

  lemma BindLast(formals: seq<Formal>, actuals: seq<Actual>, formal: Formal, actual: Actual)
    requires |formals| == |actuals|
    ensures Bind(formals + [formal], actuals + [actual]) == BindOne(Bind(formals, actuals), formal, actual)
  {
    assert (formals + [formal])[..|formals|] == formals && (actuals + [actual])[..|actuals|] == actuals;
  }

  /** Binding one more operation's arguments. */
  lemma BindOp(nm: Numerics, formals: seq<Formal>, actuals: seq<Actual>, index: nat, op: Op)
    requires |formals| == |actuals|
    ensures var before := Bind(formals, actuals);
            var after := Bind(formals + FormalsFor(index, op.kind), actuals + ActualsFor(nm, op));
            after == if op.kind == Gaussian
                     then before.(radius := GaussianRadius(op.param), taps := TapsArray(Weights(nm, op.param)))
                     else before.(scalars := before.scalars[index := op.param])
  {
    if op.kind == Gaussian {
      var r, t := IntActual(GaussianRadius(op.param)), TapsActual(TapsArray(Weights(nm, op.param)));
      BindLast(formals, actuals, RadiusFormal, r);
      BindLast(formals + [RadiusFormal], actuals + [r], TapsFormal, t);
      assert formals + [RadiusFormal] + [TapsFormal] == formals + FormalsFor(index, op.kind);
      assert actuals + [r] + [t] == actuals + ActualsFor(nm, op);
    } else {
      BindLast(formals, actuals, ScalarFormal(index), FloatActual(op.param));
    }
  }

  /** The values of this frame's chain at the given positions, as a kernel sees them. */
  function FrameEnv(nm: Numerics, chain: OpChain, paramOps: seq<nat>): Env
    requires InChain(paramOps, chain)
  {
    if paramOps == [] then Env(0, [], map[])
    else
      var before := FrameEnv(nm, chain, paramOps[..|paramOps| - 1]);
      var i := paramOps[|paramOps| - 1];
      if chain[i].kind == Gaussian
      then before.(radius := GaussianRadius(chain[i].param), taps := TapsArray(Weights(nm, chain[i].param)))
      else before.(scalars := before.scalars[i := chain[i].param])
  }

  /** Positional binding gives each name its own value, not another operation's. */
  lemma {:induction false} BindingIsByName(nm: Numerics, chain: OpChain, paramOps: seq<nat>)
    requires InChain(paramOps, chain)
    ensures Bind(Signature(chain, paramOps), LaunchActuals(nm, chain, paramOps)) == FrameEnv(nm, chain, paramOps)
    decreases |paramOps|
  {
    if paramOps != [] {
      var init, i := paramOps[..|paramOps| - 1], paramOps[|paramOps| - 1];
      BindingIsByName(nm, chain, init);
      SignatureMatches(nm, chain, init);
      BindOp(nm, Signature(chain, init), LaunchActuals(nm, chain, init), i, chain[i]);
    }
  }

  /** The argument named p<i> carries the parameter of operation i of this frame's chain. */
  lemma {:induction false} ScalarBound(nm: Numerics, chain: OpChain, paramOps: seq<nat>, i: nat)
    requires InChain(paramOps, chain) && i in paramOps && chain[i].kind != Gaussian
    ensures var env := FrameEnv(nm, chain, paramOps); i in env.scalars && env.scalars[i] == chain[i].param
    decreases |paramOps|
  {
    var init, last := paramOps[..|paramOps| - 1], paramOps[|paramOps| - 1];
    if last != i {
      assert paramOps == init + [last];
      ScalarBound(nm, chain, init, i);
    }
  }

  /** Radius and taps are those of the one gaussian among the positions. */
  lemma {:induction false} GaussianBound(nm: Numerics, chain: OpChain, paramOps: seq<nat>, g: nat)
    requires InChain(paramOps, chain) && g in paramOps && chain[g].kind == Gaussian
    requires forall p :: 0 <= p < |paramOps| && chain[paramOps[p]].kind == Gaussian ==> paramOps[p] == g
    ensures var env := FrameEnv(nm, chain, paramOps);
            && env.radius == GaussianRadius(chain[g].param)
            && env.taps == TapsArray(Weights(nm, chain[g].param))
    decreases |paramOps|
  {
    var init, last := paramOps[..|paramOps| - 1], paramOps[|paramOps| - 1];
    if last != g {
      assert paramOps == init + [last];
      GaussianBound(nm, chain, init, g);
    }
  }

  // ------------------------------------------------------- arguments of a stage

  /** The planned operations are operations of the chain, at their own positions. */
  predicate FromChain(ops: seq<PlannedOp>, chain: OpChain) {
    forall i :: 0 <= i < |ops| ==> ops[i].index < |chain| && chain[ops[i].index] == ops[i].op
  }

  predicate StageFromChain(stage: Stage, chain: OpChain) {
    FromChain(stage.prologue, chain) && FromChain(stage.epilogue, chain)
    && (stage.stencil.Some? ==> FromChain([stage.stencil.value], chain))
  }

  lemma {:induction false} ParamOpsOf(ops: seq<PlannedOp>, chain: OpChain)
    requires FromChain(ops, chain) && AllPointwise(ops)
    ensures ScalarPositions(ParamOps(ops), chain)
    ensures forall i :: 0 <= i < |ops| && Spec(ops[i].op.kind).takesParam ==> ops[i].index in ParamOps(ops)
    decreases |ops|
  {
    if ops != [] {
      var init := ops[..|ops| - 1];
      ParamOpsOf(init, chain);
      forall i | 0 <= i < |ops| && Spec(ops[i].op.kind).takesParam ensures ops[i].index in ParamOps(ops) {
        if i < |init| {
          assert init[i] == ops[i];
        }
      }
    }
  }

  /** Positions of operations other than gaussians. */
  predicate ScalarPositions(positions: seq<nat>, chain: OpChain) {
    forall p :: 0 <= p < |positions| ==> positions[p] < |chain| && chain[positions[p]].kind != Gaussian
  }

  /** Positions without a gaussian are declared as scalars, one each. */
  lemma {:induction false} SignatureOfScalars(chain: OpChain, front: seq<nat>, indices: seq<nat>)
    requires InChain(front, chain) && ScalarPositions(indices, chain)
    ensures Signature(chain, front + indices) == Signature(chain, front) + Scalars(indices)
    decreases |indices|
  {
    if indices == [] {
      assert front + indices == front;
      assert Scalars(indices) == [];
    } else {
      var init, i := indices[..|indices| - 1], indices[|indices| - 1];
      assert (front + indices)[..|front + indices| - 1] == front + init;
      SignatureOfScalars(chain, front, init);
      assert Scalars(indices) == Scalars(init) + [ScalarFormal(i)];
    }
  }

  /** A gaussian's position followed by scalar positions: the two arguments, then floats. */
  lemma SignatureAfterGaussian(chain: OpChain, g: nat, pro: seq<nat>, epi: seq<nat>)
    requires g < |chain| && chain[g].kind == Gaussian
    requires ScalarPositions(pro, chain) && ScalarPositions(epi, chain)
    ensures Signature(chain, [g] + pro + epi) == [RadiusFormal, TapsFormal] + Scalars(pro) + Scalars(epi)
  {
    assert [g][..0] == [];
    assert Signature(chain, [g]) == [RadiusFormal, TapsFormal];
    SignatureOfScalars(chain, [g], pro);
    SignatureOfScalars(chain, [g] + pro, epi);
  }

  lemma {:induction false} SignatureOnlyScalars(chain: OpChain, indices: seq<nat>)
    requires ScalarPositions(indices, chain)
    ensures Signature(chain, indices) == Scalars(indices)
    decreases |indices|
  {
    if indices != [] {
      SignatureOnlyScalars(chain, indices[..|indices| - 1]);
    }
  }

  /** The signature a stage declares is the one its param_ops call for. */
  lemma StageSignature(stage: Stage, chain: OpChain)
    requires WellFormedStage(stage) && StageFromChain(stage, chain)
    ensures InChain(StageParamOps(stage, true), chain)
    ensures StageFormals(stage, true) == Signature(chain, StageParamOps(stage, true))
  {
    var pro, epi := ParamOps(stage.prologue), ParamOps(stage.epilogue);
    ParamOpsOf(stage.prologue, chain);
    ParamOpsOf(stage.epilogue, chain);
    if RuntimeRadius(stage, true) {
      assert [stage.stencil.value][0].index < |chain|;
      SignatureAfterGaussian(chain, stage.stencil.value.index, pro, epi);
    } else {
      SignatureOnlyScalars(chain, pro);
      SignatureOfScalars(chain, pro, epi);
    }
  }

  lemma RunBound(nm: Numerics, chain: OpChain, ops: seq<PlannedOp>, paramOps: seq<nat>)
    requires FromChain(ops, chain) && AllPointwise(ops) && InChain(paramOps, chain)
    requires forall i :: 0 <= i < |ops| && Spec(ops[i].op.kind).takesParam ==> ops[i].index in paramOps
    ensures BindsRun(ops, FrameEnv(nm, chain, paramOps))
  {
    forall i | 0 <= i < |ops| && Spec(ops[i].op.kind).takesParam
      ensures var env := FrameEnv(nm, chain, paramOps);
              ops[i].index in env.scalars && env.scalars[ops[i].index] == ops[i].op.param
    {
      ScalarBound(nm, chain, paramOps, ops[i].index);
    }
  }

  /** The weights of this sigma fill at most the 25-entry array. */
  predicate TapsFit(sigma: real) {
    2 * GaussianRadius(sigma) + 1 <= MAX_GAUSSIAN_TAPS
  }

  /** Every gaussian of the chain has weights the argument array can hold. */
  predicate ChainTapsFit(chain: OpChain) {
    forall i :: 0 <= i < |chain| && chain[i].kind == Gaussian ==> TapsFit(chain[i].param)
  }

  lemma CanonicalTapsFit(chain: OpChain)
    requires CanonicalChain(chain)
    ensures ChainTapsFit(chain)
  {
    forall i | 0 <= i < |chain| && chain[i].kind == Gaussian ensures TapsFit(chain[i].param) {
      RadiusBound(chain[i]);
    }
  }

  /**
   The argument array carries a sigma's weights exactly when its radius is at most 12. Past
   that the executor's copy writes beyond the array: launches in bounds have none such.
   */
  lemma TapsHeldIff(nm: Numerics, sigma: real)
    ensures Weights(nm, sigma) <= TapsArray(Weights(nm, sigma)) <==> TapsFit(sigma)
    ensures TapsFit(sigma) <==> GaussianRadius(sigma) <= 12
  {
  }

  /** A stage's gaussian, if any, is its stencil, so radius and taps are that one's. */
  lemma StencilBound(nm: Numerics, op: Op, chain: OpChain, g: nat, rest: seq<nat>)
    requires g < |chain| && chain[g] == op && op.kind == Gaussian && TapsFit(op.param)
    requires ScalarPositions(rest, chain)
    ensures InChain([g] + rest, chain) && BindsGaussian(nm, op.param, FrameEnv(nm, chain, [g] + rest))
  {
    var paramOps := [g] + rest;
    assert paramOps[0] == g;
    assert forall p :: 1 <= p < |paramOps| ==> paramOps[p] == rest[p - 1];
    GaussianBound(nm, chain, paramOps, g);
    TapsHeldIff(nm, op.param);
  }

  /** Launched with this frame's values, every name a stage uses means its own operation. */
  lemma StageBound(nm: Numerics, stage: Stage, chain: OpChain)
    requires WellFormedStage(stage) && StageFromChain(stage, chain) && ChainTapsFit(chain)
    ensures InChain(StageParamOps(stage, true), chain)
    ensures BindsStage(nm, stage, Bind(StageFormals(stage, true), LaunchActuals(nm, chain, StageParamOps(stage, true))))
  {
    var paramOps := StageParamOps(stage, true);
    StageSignature(stage, chain);
    BindingIsByName(nm, chain, paramOps);
    ParamOpsOf(stage.prologue, chain);
    ParamOpsOf(stage.epilogue, chain);
    RunBound(nm, chain, stage.prologue, paramOps);
    RunBound(nm, chain, stage.epilogue, paramOps);
    if RuntimeRadius(stage, true) {
      var g, rest := stage.stencil.value, ParamOps(stage.prologue) + ParamOps(stage.epilogue);
      assert [g][0].index < |chain| && chain[g.index] == g.op;
      assert paramOps == [g.index] + rest;
      StencilBound(nm, g.op, chain, g.index, rest);
    }
  }

  /** Every stage of a plan is made of the chain's own operations. */
  lemma {:induction false} PlanFromChain(chain: OpChain)
    ensures forall s :: 0 <= s < |Plan(chain)| ==> StageFromChain(Plan(chain)[s], chain)
    decreases |chain|
  {
    if chain != [] {
      var init, last := chain[..|chain| - 1], |chain| - 1;
      PlanFromChain(init);
      var stages, planned := Plan(init), PlannedOp(chain[last], last);
      forall s | 0 <= s < |Plan(chain)| ensures StageFromChain(Plan(chain)[s], chain) {
        if s < |stages| {
          Widened(stages[s], init, chain);
        }
      }
    }
  }

  lemma Widened(stage: Stage, init: OpChain, chain: OpChain)
    requires StageFromChain(stage, init) && init <= chain
    ensures StageFromChain(stage, chain)
  {
    if stage.stencil.Some? {
      assert [stage.stencil.value][0].index < |init|;
    }
  }
}
