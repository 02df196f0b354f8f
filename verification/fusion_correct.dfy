/**
 A fused kernel computes the fold of its operations: registers re-quantized at every
 operation boundary hold exactly what the scalar code would have stored.
 */
module FusionCorrect {
  import opened Samples
  import opened Chains
  import opened Images
  import opened Oracle
  import opened FusionPlan
  import opened Kernels

  function Ops(planned: seq<PlannedOp>): (r: OpChain)
    ensures |r| == |planned|
  {
    seq(|planned|, i requires 0 <= i < |planned| => planned[i].op)
  }

  /** The scalar arguments a run names carry those operations' own parameters. */
  predicate BindsRun(ops: seq<PlannedOp>, env: Env) {
    forall i :: 0 <= i < |ops| && Spec(ops[i].op.kind).takesParam ==>
      ops[i].index in env.scalars && env.scalars[ops[i].index] == ops[i].op.param
  }

  /** The radius and tap arguments carry the weights of this sigma. */
  predicate BindsGaussian(nm: Numerics, sigma: real, env: Env) {
    && env.radius == GaussianRadius(sigma)
    && Weights(nm, sigma) <= env.taps
  }

  /** An environment that gives every argument of a stage its operation's value. */
  predicate BindsStage(nm: Numerics, stage: Stage, env: Env) {
    && BindsRun(stage.prologue, env) && BindsRun(stage.epilogue, env)
    && (stage.stencil.Some? && stage.stencil.value.op.kind == Gaussian ==>
          BindsGaussian(nm, stage.stencil.value.op.param, env))
  }

  // ------------------------------------------------------------ pointwise runs

  lemma ExecOne(instr: Instr, env: Env, v: seq<real>)
    ensures ExecRun([instr], env, v) == Exec(instr, env, v)
  {
    assert [instr][..0] == [];
  }

  lemma {:induction false} ExecRunConcat(a: seq<Instr>, b: seq<Instr>, env: Env, v: seq<real>)
    ensures ExecRun(a + b, env, v) == ExecRun(b, env, ExecRun(a, env, v))
    decreases |b|
  {
    if b == [] {
      assert a + b == a;
    } else {
      ExecRunConcat(a, b[..|b| - 1], env, v);
      assert (a + b)[..|a + b| - 1] == a + b[..|b| - 1];
    }
  }

  /** One instruction, one register: the byte the scalar code stores, loaded again. */
  lemma InstrRegister(nm: Numerics, img: Image, planned: PlannedOp, operand: real, x: nat, y: nat, c: nat)
    requires WellFormed(img) && x < img.width && y < img.height && c < ColorChannels(img.channels)
    requires Spec(planned.op.kind).takesParam ==> operand == planned.op.param
    ensures planned.op.kind == Invert ==>
              Quantize(1.0 - Load(At(img, x, y, c))) == Load(OpSample(nm, img, planned.op, x, y, c))
    ensures planned.op.kind == Brightness ==>
              Quantize(Load(At(img, x, y, c)) + operand) == Load(OpSample(nm, img, planned.op, x, y, c))
    ensures planned.op.kind == Threshold ==>
              Quantize(if Load(At(img, x, y, c)) >= operand then 1.0 else 0.0)
              == Load(OpSample(nm, img, planned.op, x, y, c))
  {
    StoreInverted(At(img, x, y, c));
    assert Store(1.0) == 255 && Store(0.0) == 0;
  }

  /** An operation emits at most one instruction. */
  lemma OpCodeRuns(planned: PlannedOp, colors: nat, parameterized: bool, env: Env, v: seq<real>)
    ensures var code := EmitOp(planned, colors, parameterized);
            ExecRun(code, env, v) == if code == [] then v else Exec(code[0], env, v)
  {
    var code := EmitOp(planned, colors, parameterized);
    if code != [] {
      assert code == [code[0]];
      ExecOne(code[0], env, v);
    }
  }

  /** What each instruction leaves in register c. */
  lemma ExecRegister(instr: Instr, env: Env, v: seq<real>, c: nat)
    requires c < |v|
    ensures instr.LumaInstr? && |v| >= 3 ==> Exec(instr, env, v)[c] == Quantize(Luma(v[0], v[1], v[2]))
    ensures instr.InvertInstr? ==> Exec(instr, env, v)[c] == Quantize(1.0 - v[c])
    ensures instr.AddInstr? ==> Exec(instr, env, v)[c] == Quantize(v[c] + Value(instr.delta, env))
    ensures instr.CompareInstr? ==>
              Exec(instr, env, v)[c] == Quantize(if v[c] >= Value(instr.threshold, env) then 1.0 else 0.0)
  {
  }

  /** The operand of an instruction is its operation's own parameter, baked or bound. */
  lemma OperandIsParam(planned: PlannedOp, parameterized: bool, env: Env)
    requires parameterized ==> BindsRun([planned], env)
    ensures Spec(planned.op.kind).takesParam ==> Value(OperandFor(planned, parameterized), env) == planned.op.param
  {
    if parameterized && Spec(planned.op.kind).takesParam {
      assert [planned][0].index in env.scalars;
    }
  }

  lemma OpRegister(nm: Numerics, img: Image, planned: PlannedOp, parameterized: bool, env: Env, x: nat, y: nat, c: nat)
    requires WellFormed(img) && x < img.width && y < img.height && !IsStencil(planned.op.kind)
    requires parameterized ==> BindsRun([planned], env)
    requires c < ColorChannels(img.channels)
    ensures var code, v := EmitOp(planned, ColorChannels(img.channels), parameterized), LoadPixel(img, x, y);
            (if code == [] then v else Exec(code[0], env, v))[c] == Load(OpSample(nm, img, planned.op, x, y, c))
  {
    var code, v := EmitOp(planned, ColorChannels(img.channels), parameterized), LoadPixel(img, x, y);
    OperandIsParam(planned, parameterized, env);
    InstrRegister(nm, img, planned, Value(OperandFor(planned, parameterized), env), x, y, c);
    if code != [] {
      ExecRegister(code[0], env, v, c);
    }
  }

  /** The registers after one pointwise operation are the pixel of the new image. */
  lemma OpExec(nm: Numerics, img: Image, planned: PlannedOp, parameterized: bool, env: Env, x: nat, y: nat)
    requires WellFormed(img) && x < img.width && y < img.height && !IsStencil(planned.op.kind)
    requires parameterized ==> BindsRun([planned], env)
    ensures ExecRun(EmitOp(planned, ColorChannels(img.channels), parameterized), env, LoadPixel(img, x, y))
            == LoadPixel(ApplyOp(nm, img, planned.op), x, y)
  {
    var code := EmitOp(planned, ColorChannels(img.channels), parameterized);
    var v, out := LoadPixel(img, x, y), LoadPixel(ApplyOp(nm, img, planned.op), x, y);
    OpCodeRuns(planned, ColorChannels(img.channels), parameterized, env, v);
    forall c | 0 <= c < |out| ensures ExecRun(code, env, v)[c] == out[c] {
      ApplyOpAt(nm, img, planned.op, x, y, c);
      OpRegister(nm, img, planned, parameterized, env, x, y, c);
    }
  }

  /** One more operation at the end of a run, from the pixel of the image so far. */
  lemma RunExecOneMore(nm: Numerics, mid: Image, ops: seq<PlannedOp>, parameterized: bool, env: Env, x: nat, y: nat,
                       registers: seq<real>)
    requires WellFormed(mid) && x < mid.width && y < mid.height && ops != [] && AllPointwise(ops)
    requires parameterized ==> BindsRun(ops, env)
    requires ExecRun(EmitRun(ops[..|ops| - 1], ColorChannels(mid.channels), parameterized), env, registers)
             == LoadPixel(mid, x, y)
    ensures ExecRun(EmitRun(ops, ColorChannels(mid.channels), parameterized), env, registers)
            == LoadPixel(ApplyOp(nm, mid, ops[|ops| - 1].op), x, y)
  {
    var init, last, colors := ops[..|ops| - 1], ops[|ops| - 1], ColorChannels(mid.channels);
    ExecRunConcat(EmitRun(init, colors, parameterized), EmitOp(last, colors, parameterized), env, registers);
    OpExec(nm, mid, last, parameterized, env, x, y);
  }

  lemma ChainOneMore(nm: Numerics, img: Image, ops: seq<PlannedOp>)
    requires WellFormed(img) && ops != []
    ensures ApplyChain(nm, img, Ops(ops)) == ApplyOp(nm, ApplyChain(nm, img, Ops(ops[..|ops| - 1])), ops[|ops| - 1].op)
  {
    assert Ops(ops)[..|ops| - 1] == Ops(ops[..|ops| - 1]);
  }

  /** A run of emitted instructions is the fold of its operations, at every pixel. */
  lemma {:induction false} RunExec(nm: Numerics, img: Image, ops: seq<PlannedOp>, parameterized: bool, env: Env, x: nat, y: nat)
    requires WellFormed(img) && x < img.width && y < img.height && AllPointwise(ops)
    requires parameterized ==> BindsRun(ops, env)
    ensures ExecRun(EmitRun(ops, ColorChannels(img.channels), parameterized), env, LoadPixel(img, x, y))
            == LoadPixel(ApplyChain(nm, img, Ops(ops)), x, y)
    decreases |ops|
  {
    if ops != [] {
      var init := ops[..|ops| - 1];
      RunExec(nm, img, init, parameterized, env, x, y);
      RunExecOneMore(nm, ApplyChain(nm, img, Ops(init)), ops, parameterized, env, x, y, LoadPixel(img, x, y));
      ChainOneMore(nm, img, ops);
    }
  }

  // ------------------------------------------------------------------ stencils

  /** Fetched neighbours are the clamped pixels of `mid`, inside the stencil's reach. */
  ghost predicate Fetches(fetch: Fetch, mid: Image, x: nat, y: nat, r: nat)
    requires WellFormed(mid)
  {
    forall dy: int, dx: int {:trigger fetch(dy, dx)} :: -(r as int) <= dy <= r && -(r as int) <= dx <= r ==>
      fetch(dy, dx) == LoadPixel(mid, ClampCoordinate(x + dx, mid.width), ClampCoordinate(y + dy, mid.height))
  }

  lemma FetchedRegister(fetch: Fetch, mid: Image, x: nat, y: nat, r: nat, c: nat, dy: int, dx: int)
    requires WellFormed(mid) && Fetches(fetch, mid, x, y, r) && c < ColorChannels(mid.channels)
    requires -(r as int) <= dy <= r && -(r as int) <= dx <= r
    ensures Register(fetch(dy, dx), c) == ClampedLoad(mid, x + dx, y + dy, c)
  {
    var px, py := ClampCoordinate(x + dx, mid.width), ClampCoordinate(y + dy, mid.height);
    assert fetch(dy, dx) == LoadPixel(mid, px, py);
  }

  /** The blur loops add up the scalar code's terms. */
  lemma BlurSums(nm: Numerics, sigma: real, weights: seq<real>, fetch: Fetch, mid: Image, x: nat, y: nat, c: nat)
    requires WellFormed(mid) && Fetches(fetch, mid, x, y, GaussianRadius(sigma)) && c < ColorChannels(mid.channels)
    requires Weights(nm, sigma) <= weights
    ensures TapSum(BlurTerms(nm, weights, GaussianRadius(sigma), fetch, c), GaussianRadius(sigma))
            == GaussianSum(nm, mid, sigma, x, y, c)
  {
    var r := GaussianRadius(sigma);
    var f, g := BlurTerms(nm, weights, r, fetch, c), GaussianTerms(nm, mid, sigma, x, y, c);
    forall dy: int, dx: int | -(r as int) <= dy <= r && -(r as int) <= dx <= r ensures f(dy, dx) == g(dy, dx) {
      FetchedRegister(fetch, mid, x, y, r, c, dy, dx);
      SameWeight(nm, sigma, weights, dy + r);
      SameWeight(nm, sigma, weights, dx + r);
      assert f(dy, dx) == BlurTerm(nm, weights, r, fetch, c, dy, dx);
      assert g(dy, dx) == GaussianTerm(nm, mid, sigma, x, y, c, dy, dx);
    }
    TapSumAgrees(f, g, r);
  }

  lemma SameWeight(nm: Numerics, sigma: real, weights: seq<real>, i: nat)
    requires Weights(nm, sigma) <= weights && i <= 2 * GaussianRadius(sigma)
    ensures WeightAt(weights, i) == WeightAt(Weights(nm, sigma), i)
  {
  }

  /** The flat tables of the text hold the scalar code's coefficients. */
  lemma SameCoefficient(axis: Axis, dy: int, dx: int)
    requires -1 <= dy <= 1 && -1 <= dx <= 1
    ensures WeightAt(EdgeTable(axis), (dy + 1) * 3 + (dx + 1)) == Coefficient(axis, dy, dx)
  {
  }

  lemma EdgeSums(nm: Numerics, axis: Axis, fetch: Fetch, mid: Image, x: nat, y: nat, c: nat)
    requires WellFormed(mid) && Fetches(fetch, mid, x, y, 1) && c < ColorChannels(mid.channels)
    ensures TapSum(EdgeTerms(nm, axis, fetch, c), 1) == SobelSum(nm, mid, axis, x, y, c)
  {
    var f, g := EdgeTerms(nm, axis, fetch, c), SobelTerms(nm, mid, axis, x, y, c);
    forall dy: int, dx: int | -1 <= dy <= 1 && -1 <= dx <= 1 ensures f(dy, dx) == g(dy, dx) {
      FetchedRegister(fetch, mid, x, y, 1, c, dy, dx);
      SameCoefficient(axis, dy, dx);
      assert f(dy, dx) == EdgeTerm(nm, axis, fetch, c, dy, dx);
      assert g(dy, dx) == SobelTerm(nm, mid, axis, x, y, c, dy, dx);
    }
    TapSumAgrees(f, g, 1);
  }

  function StencilRadius(op: Op): nat {
    if op.kind == Gaussian then GaussianRadius(op.param) else 1
  }

  /** How far a stage's threads look around their pixel. */
  function StageRadius(stage: Stage): nat {
    if stage.stencil.Some? then StencilRadius(stage.stencil.value.op) else 0
  }

  /** One stencil register is the scalar sample, loaded again. */
  lemma StencilRegisterIs(nm: Numerics, planned: PlannedOp, parameterized: bool, env: Env, fetch: Fetch, mid: Image,
                          x: nat, y: nat, c: nat)
    requires WellFormed(mid) && x < mid.width && y < mid.height && c < ColorChannels(mid.channels)
    requires IsStencil(planned.op.kind) && Fetches(fetch, mid, x, y, StencilRadius(planned.op))
    requires parameterized && planned.op.kind == Gaussian ==> BindsGaussian(nm, planned.op.param, env)
    ensures StencilRegister(nm, EmitStencil(nm, Some(planned), parameterized), env, fetch, c)
            == Load(OpSample(nm, mid, planned.op, x, y, c))
  {
    var code := EmitStencil(nm, Some(planned), parameterized);
    if planned.op.kind == Gaussian {
      BlurSums(nm, planned.op.param, KernelWeights(code, env), fetch, mid, x, y, c);
    } else {
      EdgeSums(nm, Horizontal, fetch, mid, x, y, c);
      EdgeSums(nm, Vertical, fetch, mid, x, y, c);
    }
  }

  lemma StencilExec(nm: Numerics, planned: PlannedOp, parameterized: bool, env: Env, fetch: Fetch, mid: Image,
                    x: nat, y: nat)
    requires WellFormed(mid) && x < mid.width && y < mid.height
    requires IsStencil(planned.op.kind) && Fetches(fetch, mid, x, y, StencilRadius(planned.op))
    requires parameterized && planned.op.kind == Gaussian ==> BindsGaussian(nm, planned.op.param, env)
    ensures StencilRegisters(nm, EmitStencil(nm, Some(planned), parameterized), env, fetch, ColorChannels(mid.channels))
            == LoadPixel(ApplyOp(nm, mid, planned.op), x, y)
  {
    var code := EmitStencil(nm, Some(planned), parameterized);
    var v := StencilRegisters(nm, code, env, fetch, ColorChannels(mid.channels));
    var out := LoadPixel(ApplyOp(nm, mid, planned.op), x, y);
    forall c | 0 <= c < |v| ensures v[c] == out[c] {
      StencilRegisterIs(nm, planned, parameterized, env, fetch, mid, x, y, c);
      ApplyOpAt(nm, mid, planned.op, x, y, c);
    }
  }

  // -------------------------------------------------------------- a whole stage

  /** A neighbour of (x, y) within reach r has coordinates a 32-bit integer holds. */
  predicate ReachFits(x: nat, y: nat, r: nat) {
    x + r < INT32_LIMIT && y + r < INT32_LIMIT
  }

  /** The tap helper at coordinates that fit gives the clamped pixel of the image after the prologue. */
  lemma TapIs(nm: Numerics, kernel: Kernel, ops: seq<PlannedOp>, parameterized: bool, env: Env, img: Image, x: int, y: int)
    requires WellFormed(img) && |img.pixels| <= INT32_LIMIT && AllPointwise(ops)
    requires kernel.prologue == EmitRun(ops, ColorChannels(img.channels), parameterized)
    requires parameterized ==> BindsRun(ops, env)
    ensures Tap(kernel, env, img, x, y)
            == LoadPixel(ApplyChain(nm, img, Ops(ops)), ClampCoordinate(x, img.width), ClampCoordinate(y, img.height))
  {
    var px, py := ClampCoordinate(x, img.width), ClampCoordinate(y, img.height);
    ReadPixelIs(img, px, py);
    RunExec(nm, img, ops, parameterized, env, px, py);
  }

  /** The naive fetch gives the pixels of the image after the prologue. */
  lemma NaiveFetches(nm: Numerics, kernel: Kernel, ops: seq<PlannedOp>, parameterized: bool, env: Env, img: Image,
                     x: nat, y: nat, r: nat)
    requires WellFormed(img) && |img.pixels| <= INT32_LIMIT && ReachFits(x, y, r) && AllPointwise(ops)
    requires kernel.prologue == EmitRun(ops, ColorChannels(img.channels), parameterized)
    requires parameterized ==> BindsRun(ops, env)
    ensures Fetches(NaiveFetch(kernel, env, img, x, y), ApplyChain(nm, img, Ops(ops)), x, y, r)
  {
    var mid := ApplyChain(nm, img, Ops(ops));
    var fetch := NaiveFetch(kernel, env, img, x, y);
    forall dy: int, dx: int | -(r as int) <= dy <= r && -(r as int) <= dx <= r
      ensures fetch(dy, dx) == LoadPixel(mid, ClampCoordinate(x + dx, mid.width), ClampCoordinate(y + dy, mid.height))
    {
      TapIs(nm, kernel, ops, parameterized, env, img, x + dx, y + dy);
      assert ToInt32(x + dx) == x + dx && ToInt32(y + dy) == y + dy;
      assert fetch(dy, dx) == Tap(kernel, env, img, x + dx, y + dy);
    }
  }

  /** The operations of a stage, cut where its kernel cuts them. */
  lemma StageFold(nm: Numerics, img: Image, stage: Stage)
    requires WellFormed(img)
    ensures var mid := ApplyChain(nm, img, Ops(stage.prologue));
            var body := if stage.stencil.Some? then ApplyOp(nm, mid, stage.stencil.value.op) else mid;
            ApplyChain(nm, body, Ops(stage.epilogue)) == ApplyChain(nm, img, Ops(StageOps(stage)))
  {
    var pro, epi := Ops(stage.prologue), Ops(stage.epilogue);
    if stage.stencil.Some? {
      var one := [stage.stencil.value.op];
      assert Ops(StageOps(stage)) == pro + one + epi;
      assert (pro + one)[..|pro|] == pro;
      ApplyChainConcat(nm, img, pro + one, epi);
    } else {
      assert Ops(StageOps(stage)) == pro + epi;
      ApplyChainConcat(nm, img, pro, epi);
    }
  }

  /** The registers before the epilogue are the image after the stage's stencil. */
  lemma BodyExec(nm: Numerics, stage: Stage, kernel: Kernel, parameterized: bool, env: Env, img: Image,
                 fetch: Fetch, mid: Image, body: Image, x: nat, y: nat)
    requires WellFormed(img) && |img.pixels| <= INT32_LIMIT && WellFormedStage(stage) && x < img.width && y < img.height
    requires kernel.prologue == EmitRun(stage.prologue, ColorChannels(img.channels), parameterized)
    requires kernel.stencil == EmitStencil(nm, stage.stencil, parameterized)
    requires parameterized ==> BindsStage(nm, stage, env)
    requires mid == ApplyChain(nm, img, Ops(stage.prologue))
    requires stage.stencil.Some? ==> Fetches(fetch, mid, x, y, StencilRadius(stage.stencil.value.op))
    requires body == if stage.stencil.Some? then ApplyOp(nm, mid, stage.stencil.value.op) else mid
    ensures BodyRegisters(nm, kernel, env, img, fetch, x, y) == LoadPixel(body, x, y)
  {
    if stage.stencil.Some? {
      StencilExec(nm, stage.stencil.value, parameterized, env, fetch, mid, x, y);
    } else {
      ReadPixelIs(img, x, y);
      RunExec(nm, img, stage.prologue, parameterized, env, x, y);
    }
  }

  lemma StoredPixel(v: seq<real>, out: Image, x: nat, y: nat, alpha: Byte, c: nat)
    requires WellFormed(out) && x < out.width && y < out.height && c < out.channels
    requires v == LoadPixel(out, x, y)
    requires out.channels == 4 ==> alpha == At(out, x, y, 3)
    ensures var bytes := seq(|v|, k requires 0 <= k < |v| => Store(v[k]))
                         + (if out.channels == 4 then [alpha] else []);
            |bytes| == out.channels && bytes[c] == At(out, x, y, c)
  {
    if c < ColorChannels(out.channels) {
      StoreLoad(At(out, x, y, c));
    }
  }

  /**
   What a thread of a fused stage stores is the pixel of the folded image, alpha
   included, whenever its fetches give the pixels of the image after the prologue.
   */
  lemma StagePixel(nm: Numerics, stage: Stage, kernel: Kernel, parameterized: bool, env: Env, img: Image,
                   fetch: Fetch, x: nat, y: nat, c: nat)
    requires WellFormed(img) && |img.pixels| <= INT32_LIMIT && WellFormedStage(stage)
    requires x < img.width && y < img.height && c < img.channels
    requires kernel.prologue == EmitRun(stage.prologue, ColorChannels(img.channels), parameterized)
    requires kernel.stencil == EmitStencil(nm, stage.stencil, parameterized)
    requires kernel.epilogue == EmitRun(stage.epilogue, ColorChannels(img.channels), parameterized)
    requires parameterized ==> BindsStage(nm, stage, env)
    requires stage.stencil.Some? ==>
               Fetches(fetch, ApplyChain(nm, img, Ops(stage.prologue)), x, y, StencilRadius(stage.stencil.value.op))
    ensures PixelBytes(nm, kernel, env, img, fetch, x, y)[c]
            == At(ApplyChain(nm, img, Ops(StageOps(stage))), x, y, c)
  {
    var mid := ApplyChain(nm, img, Ops(stage.prologue));
    var body := if stage.stencil.Some? then ApplyOp(nm, mid, stage.stencil.value.op) else mid;
    BodyExec(nm, stage, kernel, parameterized, env, img, fetch, mid, body, x, y);
    RunExec(nm, body, stage.epilogue, parameterized, env, x, y);
    StageFold(nm, img, stage);
    var out := ApplyChain(nm, img, Ops(StageOps(stage)));
    ReadPixelIs(img, x, y);
    if img.channels == 4 {
      ChainKeepsAlpha(nm, img, Ops(StageOps(stage)), x, y);
    }
    var v := ExecRun(kernel.epilogue, env, BodyRegisters(nm, kernel, env, img, fetch, x, y));
    assert v == LoadPixel(out, x, y);
    StoredPixel(v, out, x, y, if img.channels == 4 then At(img, x, y, 3) else 0, c);
  }
}
