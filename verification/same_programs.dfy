/**
 Exactly when two keys the cache cannot tell apart generate one program
 (src/core/kernel_key.cpp, operator==; src/backend/cuda/codegen.cpp, emit_cuda_source):
 equality reads hundredths, while baked text holds the parameters themselves.
 */
module SamePrograms {
  import opened Chains
  import opened Oracle
  import opened FusionPlan
  import opened Kernels
  import opened KernelKeys
  import opened Programs

  /** What the text of an operation shows of its parameter is the same. */
  ghost predicate SameText(nm: Numerics, a: Op, b: Op) {
    && a.kind == b.kind
    && (a.kind == Brightness || a.kind == Threshold ==> a.param == b.param)
    && (a.kind == Gaussian ==> Weights(nm, a.param) == Weights(nm, b.param))
  }

  ghost predicate SameTexts(nm: Numerics, a: seq<PlannedOp>, b: seq<PlannedOp>) {
    |a| == |b| && forall i :: 0 <= i < |a| ==> SameText(nm, a[i].op, b[i].op)
  }

  lemma SameTextsJoin(nm: Numerics, a: seq<PlannedOp>, b: seq<PlannedOp>, c: seq<PlannedOp>, d: seq<PlannedOp>)
    requires |a| == |c| && |b| == |d|
    ensures SameTexts(nm, a + b, c + d) <==> SameTexts(nm, a, c) && SameTexts(nm, b, d)
  {
    if SameTexts(nm, a + b, c + d) {
      forall i | 0 <= i < |a| ensures SameText(nm, a[i].op, c[i].op) {
        assert (a + b)[i] == a[i] && (c + d)[i] == c[i];
      }
      forall i | 0 <= i < |b| ensures SameText(nm, b[i].op, d[i].op) {
        assert (a + b)[|a| + i] == b[i] && (c + d)[|c| + i] == d[i];
      }
    }
  }

  lemma JoinsEqual<T>(a: seq<T>, b: seq<T>, c: seq<T>, d: seq<T>)
    requires |a| == |c|
    ensures a + b == c + d <==> a == c && b == d
  {
    if a + b == c + d {
      assert (a + b)[..|a|] == a && (c + d)[..|c|] == c;
      assert (a + b)[|a|..] == b && (c + d)[|c|..] == d;
    }
  }

  /** One pointwise operation's baked instructions are the same exactly when its text is. */
  lemma OpTextIff(nm: Numerics, p: PlannedOp, q: PlannedOp, colors: nat)
    requires p.op.kind == q.op.kind && !IsStencil(p.op.kind)
    ensures |EmitOp(p, colors, false)| == |EmitOp(q, colors, false)|
    ensures EmitOp(p, colors, false) == EmitOp(q, colors, false) <==> SameText(nm, p.op, q.op)
  {
    if p.op.kind == Brightness || p.op.kind == Threshold {
      assert EmitOp(p, colors, false) == EmitOp(q, colors, false) ==>
               EmitOp(p, colors, false)[0] == EmitOp(q, colors, false)[0];
    }
  }

  lemma {:induction false} RunTextIff(nm: Numerics, a: seq<PlannedOp>, b: seq<PlannedOp>, colors: nat)
    requires SameShape(a, b) && AllPointwise(a)
    ensures |EmitRun(a, colors, false)| == |EmitRun(b, colors, false)|
    ensures EmitRun(a, colors, false) == EmitRun(b, colors, false) <==> SameTexts(nm, a, b)
    decreases |a|
  {
    if a != [] {
      var n := |a| - 1;
      RunTextIff(nm, a[..n], b[..n], colors);
      OpTextIff(nm, a[n], b[n], colors);
      JoinsEqual(EmitRun(a[..n], colors, false), EmitOp(a[n], colors, false),
        EmitRun(b[..n], colors, false), EmitOp(b[n], colors, false));
      SameTextsJoin(nm, a[..n], [a[n]], b[..n], [b[n]]);
      assert a == a[..n] + [a[n]] && b == b[..n] + [b[n]];
    }
  }

  /** The stencil of a stage as a list. */
  function StencilOps(stage: Stage): seq<PlannedOp> {
    if stage.stencil.Some? then [stage.stencil.value] else []
  }

  lemma StencilTextIff(nm: Numerics, a: Stage, b: Stage)
    requires SameShapeStage(a, b) && WellFormedStage(a)
    ensures EmitStencil(nm, a.stencil, false) == EmitStencil(nm, b.stencil, false)
            <==> SameTexts(nm, StencilOps(a), StencilOps(b))
  {
    if a.stencil.Some? {
      var p, q := a.stencil.value, b.stencil.value;
      assert [p][0].op.kind == [q][0].op.kind;
      assert SameTexts(nm, StencilOps(a), StencilOps(b)) <==> SameText(nm, p.op, q.op) by {
        assert StencilOps(a)[0] == p && StencilOps(b)[0] == q;
      }
      assert |Weights(nm, p.op.param)| == 2 * GaussianRadius(p.op.param) + 1;
      assert |Weights(nm, q.op.param)| == 2 * GaussianRadius(q.op.param) + 1;
    }
  }

  lemma StageTextIff(nm: Numerics, a: Stage, b: Stage, channels: nat, tileSize: nat)
    requires SameShapeStage(a, b) && WellFormedStage(a)
    requires EmitStage(nm, a, channels, tileSize, false).Some? && EmitStage(nm, b, channels, tileSize, false).Some?
    ensures EmitStage(nm, a, channels, tileSize, false) == EmitStage(nm, b, channels, tileSize, false)
            <==> SameTexts(nm, StageOps(a), StageOps(b))
  {
    var colors: nat := ColorChannels(channels);
    RunTextIff(nm, a.prologue, b.prologue, colors);
    RunTextIff(nm, a.epilogue, b.epilogue, colors);
    StencilTextIff(nm, a, b);
    SameTextsJoin(nm, a.prologue, StencilOps(a), b.prologue, StencilOps(b));
    SameTextsJoin(nm, a.prologue + StencilOps(a), a.epilogue, b.prologue + StencilOps(b), b.epilogue);
  }

  lemma SameLength(a: Stage, b: Stage)
    requires SameShapeStage(a, b)
    ensures |StageOps(a)| == |StageOps(b)|
  {
  }

  lemma {:induction false} StagesTextIff(nm: Numerics, a: seq<Stage>, b: seq<Stage>, channels: nat, tileSize: nat)
    requires SameShapeStages(a, b) && forall s :: 0 <= s < |a| ==> WellFormedStage(a[s])
    requires EmitStages(nm, a, channels, tileSize, false).Some? && EmitStages(nm, b, channels, tileSize, false).Some?
    ensures |Flatten(a)| == |Flatten(b)|
    ensures EmitStages(nm, a, channels, tileSize, false) == EmitStages(nm, b, channels, tileSize, false)
            <==> SameTexts(nm, Flatten(a), Flatten(b))
    decreases |a|
  {
    if a != [] {
      var n := |a| - 1;
      StagesTextIff(nm, a[..n], b[..n], channels, tileSize);
      StageTextIff(nm, a[n], b[n], channels, tileSize);
      SameLength(a[n], b[n]);
      JoinsEqual(EmitStages(nm, a[..n], channels, tileSize, false).value, [EmitStage(nm, a[n], channels, tileSize, false).value],
        EmitStages(nm, b[..n], channels, tileSize, false).value, [EmitStage(nm, b[n], channels, tileSize, false).value]);
      SameTextsJoin(nm, Flatten(a[..n]), StageOps(a[n]), Flatten(b[..n]), StageOps(b[n]));
    }
  }

  /** The chains' operations show the same in the text, one by one. */
  ghost predicate SameChainText(nm: Numerics, a: OpChain, b: OpChain) {
    |a| == |b| && forall i :: 0 <= i < |a| ==> SameText(nm, a[i], b[i])
  }

  lemma PlanTextIff(nm: Numerics, a: OpChain, b: OpChain)
    requires |a| == |b|
    ensures SameTexts(nm, Flatten(Plan(a)), Flatten(Plan(b))) <==> SameChainText(nm, a, b)
  {
    PlanKeepsChain(a);
    PlanKeepsChain(b);
    assert forall i :: 0 <= i < |a| ==> Indexed(a)[i].op == a[i] && Indexed(b)[i].op == b[i];
  }

  /**
   Two equal keys generate one program exactly when they are parameterized, or every
   brightness and threshold has the very parameter of its partner and every gaussian the
   very weights.
   */
  lemma EqualKeysGenerateAlikeIff(nm: Numerics, a: KernelKey, b: KernelKey)
    requires KeyEq(a, b) && EmitProgram(nm, a).Some? && EmitProgram(nm, b).Some?
    ensures EmitProgram(nm, a) == EmitProgram(nm, b)
            <==> a.constants == Parameterized || SameChainText(nm, a.chain, b.chain)
  {
    if a.constants == Parameterized {
      EqualKeysGenerateAlike(nm, a, b);
    } else {
      forall i | 0 <= i < |a.chain| ensures a.chain[i].kind == b.chain[i].kind {
        assert SameOp(a.chain[i], b.chain[i], true);
      }
      PlanSameShape(a.chain, b.chain);
      PlanKeepsChain(a.chain);
      StagesTextIff(nm, Plan(a.chain), Plan(b.chain), a.channels, if a.tile == Tiled then a.tileSize else 0);
      PlanTextIff(nm, a.chain, b.chain);
    }
  }
}
