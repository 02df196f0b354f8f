/**
 Whole programs: equal keys generate one program, and launching its stages through the
 two buffers folds the chain (src/backend/cuda/codegen.cpp, emit_cuda_source;
 src/backend/cuda/cuda_backend.cpp, launch).
 */
module Programs {
  import opened Samples
  import opened Chains
  import opened Images
  import opened Oracle
  import opened FusionPlan
  import opened Kernels
  import opened FusionCorrect
  import opened Launches
  import opened Arguments
  import opened KernelKeys

  // ------------------------------------------------- one program per equal key

  /** Same positions and kinds; parameters may differ. */
  predicate SameShape(a: seq<PlannedOp>, b: seq<PlannedOp>) {
    && |a| == |b|
    && forall i :: 0 <= i < |a| ==> a[i].index == b[i].index && a[i].op.kind == b[i].op.kind
  }

  predicate SameShapeStage(a: Stage, b: Stage) {
    && SameShape(a.prologue, b.prologue) && SameShape(a.epilogue, b.epilogue)
    && a.stencil.Some? == b.stencil.Some?
    && (a.stencil.Some? ==> SameShape([a.stencil.value], [b.stencil.value]))
  }

  predicate SameShapeStages(a: seq<Stage>, b: seq<Stage>) {
    |a| == |b| && forall s :: 0 <= s < |a| ==> SameShapeStage(a[s], b[s])
  }

  predicate SameKinds(a: OpChain, b: OpChain) {
    |a| == |b| && forall i :: 0 <= i < |a| ==> a[i].kind == b[i].kind
  }

  lemma ShapeExtends(a: seq<PlannedOp>, b: seq<PlannedOp>, p: PlannedOp, q: PlannedOp)
    requires SameShape(a, b) && p.index == q.index && p.op.kind == q.op.kind
    ensures SameShape(a + [p], b + [q])
  {
  }

  lemma LastStageChanged(a: seq<Stage>, b: seq<Stage>, x: Stage, y: Stage)
    requires SameShapeStages(a, b) && a != [] && SameShapeStage(x, y)
    ensures SameShapeStages(a[|a| - 1 := x], b[|b| - 1 := y]) && SameShapeStages(a + [x], b + [y])
  {
  }

  /** One more operation goes to the same place of two plans of one shape. */
  lemma PlacedStage(x: Stage, y: Stage, p: PlannedOp, q: PlannedOp)
    requires SameShapeStage(x, y) && p.index == q.index && p.op.kind == q.op.kind
    ensures SameShapeStage(x.(epilogue := x.epilogue + [p]), y.(epilogue := y.epilogue + [q]))
    ensures SameShapeStage(x.(prologue := x.prologue + [p]), y.(prologue := y.prologue + [q]))
    ensures SameShapeStage(x.(stencil := Some(p)), y.(stencil := Some(q)))
  {
    ShapeExtends(x.prologue, y.prologue, p, q);
    ShapeExtends(x.epilogue, y.epilogue, p, q);
  }

  lemma PlaceSameShape(a: seq<Stage>, b: seq<Stage>, p: PlannedOp, q: PlannedOp)
    requires SameShapeStages(a, b) && p.index == q.index && p.op.kind == q.op.kind
    ensures SameShapeStages(Place(a, p), Place(b, q))
  {
    var x, y := if a == [] then [EMPTY_STAGE] else a, if b == [] then [EMPTY_STAGE] else b;
    assert SameShapeStage(EMPTY_STAGE, EMPTY_STAGE);
    assert SameShapeStages(x, y) && SameShapeStage(x[|x| - 1], y[|y| - 1]);
    PlacedStage(x[|x| - 1], y[|y| - 1], p, q);
    PlacedStage(EMPTY_STAGE, EMPTY_STAGE, p, q);
    LastStageChanged(x, y, Place(a, p)[|Place(a, p)| - 1], Place(b, q)[|Place(b, q)| - 1]);
  }

  /** The plan's shape depends on kinds and order only. */
  lemma {:induction false} PlanSameShape(a: OpChain, b: OpChain)
    requires SameKinds(a, b)
    ensures SameShapeStages(Plan(a), Plan(b))
    decreases |a|
  {
    if a != [] {
      PlanSameShape(a[..|a| - 1], b[..|b| - 1]);
      PlaceSameShape(Plan(a[..|a| - 1]), Plan(b[..|b| - 1]),
        PlannedOp(a[|a| - 1], |a| - 1), PlannedOp(b[|b| - 1], |b| - 1));
    }
  }

  /** A parameterized run's text holds no parameter value. */
  lemma {:induction false} RunSameShape(a: seq<PlannedOp>, b: seq<PlannedOp>, colors: nat)
    requires SameShape(a, b)
    ensures EmitRun(a, colors, true) == EmitRun(b, colors, true) && ParamOps(a) == ParamOps(b)
    decreases |a|
  {
    if a != [] {
      RunSameShape(a[..|a| - 1], b[..|b| - 1], colors);
    }
  }

  lemma StageSameShape(nm: Numerics, a: Stage, b: Stage, channels: nat, tileSize: nat)
    requires SameShapeStage(a, b)
    ensures EmitStage(nm, a, channels, tileSize, true) == EmitStage(nm, b, channels, tileSize, true)
  {
    RunSameShape(a.prologue, b.prologue, ColorChannels(channels));
    RunSameShape(a.epilogue, b.epilogue, ColorChannels(channels));
    if a.stencil.Some? {
      assert [a.stencil.value][0].index == [b.stencil.value][0].index;
      assert [a.stencil.value][0].op.kind == [b.stencil.value][0].op.kind;
    }
  }

  lemma {:induction false} StagesSameShape(nm: Numerics, a: seq<Stage>, b: seq<Stage>, channels: nat, tileSize: nat)
    requires SameShapeStages(a, b)
    ensures EmitStages(nm, a, channels, tileSize, true) == EmitStages(nm, b, channels, tileSize, true)
    decreases |a|
  {
    if a != [] {
      StagesSameShape(nm, a[..|a| - 1], b[..|b| - 1], channels, tileSize);
      StageSameShape(nm, a[|a| - 1], b[|b| - 1], channels, tileSize);
    }
  }

  /** Equal baked keys with canonical chains are the same key. */
  lemma CanonicalBakedKeys(a: KernelKey, b: KernelKey)
    requires KeyEq(a, b) && a.constants == Baked && CanonicalChain(a.chain) && CanonicalChain(b.chain)
    ensures a == b
  {
    forall i | 0 <= i < |a.chain| ensures a.chain[i] == b.chain[i] {
      assert SameOp(a.chain[i], b.chain[i], true);
      CanonicalParamsByHundredths(a.chain[i].param, b.chain[i].param);
    }
  }

  /**
   Keys the cache cannot tell apart generate the same program, whichever frame's key
   was compiled: in parameterized mode no value is in the text, and in baked mode the values
   of canonical chains agree.
   */
  lemma EqualKeysGenerateAlike(nm: Numerics, a: KernelKey, b: KernelKey)
    requires KeyEq(a, b) && (a.constants == Baked ==> CanonicalChain(a.chain) && CanonicalChain(b.chain))
    ensures EmitProgram(nm, a) == EmitProgram(nm, b)
  {
    if a.constants == Baked {
      CanonicalBakedKeys(a, b);
    } else if SupportedKey(a) {
      forall i | 0 <= i < |a.chain| ensures a.chain[i].kind == b.chain[i].kind {
        assert SameOp(a.chain[i], b.chain[i], false);
      }
      PlanSameShape(a.chain, b.chain);
      StagesSameShape(nm, Plan(a.chain), Plan(b.chain), a.channels, if a.tile == Tiled then a.tileSize else 0);
    }
  }

  /** Without canonical parameters that fails: two equal keys, two different texts. */
  lemma UncanonicalKeysCollide(nm: Numerics)
    ensures var a := KernelKey([Op(Brightness, 0.501)], 1, Naive, 0, Baked);
            var b := KernelKey([Op(Brightness, 0.502)], 1, Naive, 0, Baked);
            KeyEq(a, b) && EmitProgram(nm, a) != EmitProgram(nm, b)
  {
    var x, y := Op(Brightness, 0.501), Op(Brightness, 0.502);
    var a := KernelKey([x], 1, Naive, 0, Baked);
    var b := KernelKey([y], 1, Naive, 0, Baked);
    assert RoundHalfAway(0.501 * 100.0) == 50 && RoundHalfAway(0.502 * 100.0) == 50;
    SingleBrightness(nm, x);
    SingleBrightness(nm, y);
    assert EmitProgram(nm, a).value[0].prologue[0] != EmitProgram(nm, b).value[0].prologue[0];
  }

  lemma SingleBrightness(nm: Numerics, op: Op)
    requires op.kind == Brightness
    ensures var p := EmitProgram(nm, KernelKey([op], 1, Naive, 0, Baked));
            p.Some? && |p.value| == 1 && p.value[0].prologue == [AddInstr(Literal(op.param))]
  {
    var planned := PlannedOp(op, 0);
    var stage := Stage([planned], None, []);
    SinglePlan(op);
    assert [planned][..0] == [];
    assert EmitRun([planned], 1, false) == EmitRun([], 1, false) + EmitOp(planned, 1, false);
    assert [stage][..0] == [];
    assert EmitStages(nm, [stage][..0], 1, 0, false) == Some([]);
  }

  lemma SinglePlan(op: Op)
    requires op.kind == Brightness
    ensures Plan([op]) == [Stage([PlannedOp(op, 0)], None, [])]
  {
    assert [op][..0] == [];
    assert Plan([op]) == Place([], PlannedOp(op, 0));
    assert [] + [PlannedOp(op, 0)] == [PlannedOp(op, 0)];
    assert EMPTY_STAGE.(prologue := EMPTY_STAGE.prologue + [PlannedOp(op, 0)]) == Stage([PlannedOp(op, 0)], None, []);
  }

  // --------------------------------------------------------- stages of a program

  lemma LastEmitted(nm: Numerics, stages: seq<Stage>, channels: nat, tileSize: nat, parameterized: bool)
    requires EmitStages(nm, stages, channels, tileSize, parameterized).Some? && stages != []
    ensures var init := EmitStages(nm, stages[..|stages| - 1], channels, tileSize, parameterized);
            var last := EmitStage(nm, stages[|stages| - 1], channels, tileSize, parameterized);
            init.Some? && last.Some?
            && EmitStages(nm, stages, channels, tileSize, parameterized) == Some(init.value + [last.value])
  {
  }

  lemma {:induction false} EmittedStage(nm: Numerics, stages: seq<Stage>, channels: nat, tileSize: nat, parameterized: bool, s: nat)
    requires EmitStages(nm, stages, channels, tileSize, parameterized).Some? && s < |stages|
    ensures EmitStage(nm, stages[s], channels, tileSize, parameterized)
            == Some(EmitStages(nm, stages, channels, tileSize, parameterized).value[s])
    decreases |stages|
  {
    var init := stages[..|stages| - 1];
    LastEmitted(nm, stages, channels, tileSize, parameterized);
    if s < |init| {
      EmittedStage(nm, init, channels, tileSize, parameterized, s);
      assert init[s] == stages[s];
    }
  }

  /** With a table-bounded chain, code generation refuses nothing a supported key asks for. */
  lemma {:induction false} StagesEmit(nm: Numerics, stages: seq<Stage>, channels: nat, tileSize: nat, parameterized: bool, chain: OpChain)
    requires SupportedChannels(channels) && tileSize <= MAX_TILE_SIZE && CanonicalChain(chain)
    requires forall s :: 0 <= s < |stages| ==> StageFromChain(stages[s], chain)
    ensures EmitStages(nm, stages, channels, tileSize, parameterized).Some?
    decreases |stages|
  {
    if stages != [] {
      var last := stages[|stages| - 1];
      StagesEmit(nm, stages[..|stages| - 1], channels, tileSize, parameterized, chain);
      if last.stencil.Some? {
        var g := last.stencil.value;
        assert [g][0].index < |chain| && chain[g.index] == g.op;
        if g.op.kind == Gaussian {
          RadiusBound(g.op);
        }
        TileFitsShared(channels, tileSize, BakedRadius(EmitStencil(nm, last.stencil, parameterized)));
      }
    }
  }

  lemma CanonicalProgramEmits(nm: Numerics, key: KernelKey)
    requires SupportedKey(key) && CanonicalChain(key.chain)
    ensures EmitProgram(nm, key).Some?
  {
    PlanFromChain(key.chain);
    StagesEmit(nm, Plan(key.chain), key.channels, if key.tile == Tiled then key.tileSize else 0,
      key.constants == Parameterized, key.chain);
  }

  /** The chain as far as its first `s` stages go. */
  function StagePrefix(chain: OpChain, s: nat): OpChain
    requires s <= |Plan(chain)|
  {
    Ops(Flatten(Plan(chain)[..s]))
  }

  lemma StagePrefixes(chain: OpChain, s: nat)
    requires s < |Plan(chain)|
    ensures StagePrefix(chain, 0) == []
    ensures StagePrefix(chain, s + 1) == StagePrefix(chain, s) + Ops(StageOps(Plan(chain)[s]))
  {
    var stages := Plan(chain);
    assert stages[..s + 1][..s] == stages[..s];
    assert Flatten(stages[..s + 1]) == Flatten(stages[..s]) + StageOps(stages[s]);
  }

  lemma LastPrefix(chain: OpChain)
    ensures StagePrefix(chain, |Plan(chain)|) == chain
  {
    PlanKeepsChain(chain);
    assert Plan(chain)[..|Plan(chain)|] == Plan(chain);
  }

  /** A stage's threads fetch the image after the prologue, tiled or not. */
  lemma StageFetches(nm: Numerics, stage: Stage, kernel: Kernel, parameterized: bool, env: Env, img: Image,
                     sched: Schedule, t: Thread)
    requires WellFormed(img) && WellFormedStage(stage) && stage.stencil.Some? && kernel.channels == img.channels
    requires kernel.blockDim > 0 && InGrid(t, kernel.blockDim, img.width, img.height)
    requires PixelX(t, kernel.blockDim) < img.width && PixelY(t, kernel.blockDim) < img.height
    requires LaunchFits(kernel, StageRadius(stage), img.width, img.height)
    requires ValidSchedule(kernel, img.width, img.height, sched)
    requires kernel.prologue == EmitRun(stage.prologue, ColorChannels(img.channels), parameterized)
    requires kernel.stencil == EmitStencil(nm, stage.stencil, parameterized)
    requires parameterized ==> !kernel.tiled && BindsStage(nm, stage, env)
    ensures Fetches(ThreadFetch(kernel, env, img, sched, t), ApplyChain(nm, img, Ops(stage.prologue)),
              PixelX(t, kernel.blockDim), PixelY(t, kernel.blockDim), StencilRadius(stage.stencil.value.op))
  {
    var x, y := PixelX(t, kernel.blockDim), PixelY(t, kernel.blockDim);
    var mid, r := ApplyChain(nm, img, Ops(stage.prologue)), StencilRadius(stage.stencil.value.op);
    NaiveFetches(nm, kernel, stage.prologue, parameterized, env, img, x, y, r);
    ThreadKnowsPixel(t, kernel.blockDim, img.width, img.height);
    if kernel.tiled {
      assert (t.gx, t.gy) in sched.loads;
      TiledFetches(kernel, env, img, t, sched.loads[(t.gx, t.gy)], sched.garbage[(t.gx, t.gy)], mid);
    }
  }

  /** Reading the tile gives what the naive fetch gives, at every tap. */
  lemma TiledIsNaive(kernel: Kernel, env: Env, img: Image, t: Thread, loads: seq<LoadEvent>, garbage: Tile, dy: int, dx: int)
    requires WellFormed(img) && kernel.blockDim > 0 && t.tx < kernel.blockDim && t.ty < kernel.blockDim
    requires LoadsComplete(kernel, loads) && |garbage| == TileCells(kernel)
    requires var r: int := BakedRadius(kernel.stencil); -r <= dy <= r && -r <= dx <= r
    ensures TiledFetch(kernel, RunLoads(kernel, env, img, t.gx, t.gy, loads, garbage), t.tx, t.ty)(dy, dx)
            == NaiveFetch(kernel, env, img, PixelX(t, kernel.blockDim), PixelY(t, kernel.blockDim))(dy, dx)
  {
    TapInTile(kernel, env, img, t, loads, garbage, dy, dx);
  }

  /** So both fetch the same image, over the stencil's whole reach. */
  lemma TiledFetches(kernel: Kernel, env: Env, img: Image, t: Thread, loads: seq<LoadEvent>, garbage: Tile, mid: Image)
    requires WellFormed(img) && kernel.blockDim > 0 && t.tx < kernel.blockDim && t.ty < kernel.blockDim
    requires LoadsComplete(kernel, loads) && |garbage| == TileCells(kernel)
    requires WellFormed(mid)
    requires Fetches(NaiveFetch(kernel, env, img, PixelX(t, kernel.blockDim), PixelY(t, kernel.blockDim)), mid,
               PixelX(t, kernel.blockDim), PixelY(t, kernel.blockDim), BakedRadius(kernel.stencil))
    ensures Fetches(TiledFetch(kernel, RunLoads(kernel, env, img, t.gx, t.gy, loads, garbage), t.tx, t.ty), mid,
              PixelX(t, kernel.blockDim), PixelY(t, kernel.blockDim), BakedRadius(kernel.stencil))
  {
    var r := BakedRadius(kernel.stencil);
    var tiled := TiledFetch(kernel, RunLoads(kernel, env, img, t.gx, t.gy, loads, garbage), t.tx, t.ty);
    var naive := NaiveFetch(kernel, env, img, PixelX(t, kernel.blockDim), PixelY(t, kernel.blockDim));
    forall dy: int, dx: int | -(r as int) <= dy <= r && -(r as int) <= dx <= r ensures tiled(dy, dx) == naive(dy, dx) {
      TiledIsNaive(kernel, env, img, t, loads, garbage, dy, dx);
    }
    SameFetches(naive, tiled, mid, PixelX(t, kernel.blockDim), PixelY(t, kernel.blockDim), r);
  }

  lemma SameFetches(a: Fetch, b: Fetch, mid: Image, x: nat, y: nat, r: nat)
    requires WellFormed(mid) && Fetches(a, mid, x, y, r)
    requires forall dy: int, dx: int {:trigger b(dy, dx)} ::
               -(r as int) <= dy <= r && -(r as int) <= dx <= r ==> b(dy, dx) == a(dy, dx)
    ensures Fetches(b, mid, x, y, r)
  {
  }

  /** The kernel is what code generation made of the stage for this image's channels. */
  ghost predicate KernelOf(nm: Numerics, stage: Stage, kernel: Kernel, parameterized: bool, channels: nat) {
    && kernel.blockDim > 0 && kernel.channels == channels
    && kernel.prologue == EmitRun(stage.prologue, ColorChannels(channels), parameterized)
    && kernel.stencil == EmitStencil(nm, stage.stencil, parameterized)
    && kernel.epilogue == EmitRun(stage.epilogue, ColorChannels(channels), parameterized)
    && (parameterized ==> !kernel.tiled)
  }

  lemma StageProduces(nm: Numerics, stage: Stage, kernel: Kernel, parameterized: bool, env: Env, img: Image,
                      sched: Schedule)
    requires WellFormed(img) && WellFormedStage(stage) && KernelOf(nm, stage, kernel, parameterized, img.channels)
    requires LaunchFits(kernel, StageRadius(stage), img.width, img.height)
    requires ValidSchedule(kernel, img.width, img.height, sched)
    requires parameterized ==> BindsStage(nm, stage, env)
    ensures ThreadsProduce(nm, kernel, env, img, sched, ApplyChain(nm, img, Ops(StageOps(stage))))
  {
    var goal := ApplyChain(nm, img, Ops(StageOps(stage)));
    forall t, c: nat | StoresAt(t, c) && InGrid(t, kernel.blockDim, img.width, img.height) && c < img.channels
        && PixelX(t, kernel.blockDim) < img.width && PixelY(t, kernel.blockDim) < img.height
      ensures PixelBytes(nm, kernel, env, img, ThreadFetch(kernel, env, img, sched, t),
                PixelX(t, kernel.blockDim), PixelY(t, kernel.blockDim))[c]
              == At(goal, PixelX(t, kernel.blockDim), PixelY(t, kernel.blockDim), c)
    {
      if stage.stencil.Some? {
        StageFetches(nm, stage, kernel, parameterized, env, img, sched, t);
      }
      StagePixel(nm, stage, kernel, parameterized, env, img, ThreadFetch(kernel, env, img, sched, t),
        PixelX(t, kernel.blockDim), PixelY(t, kernel.blockDim), c);
    }
  }

  /**
   Naive or tiled, baked or parameterized, in any order of threads and of tile loads,
   one launch of a stage leaves in its destination the fold of the stage's operations
   over the image in its source.
   */
  lemma StageLaunch(nm: Numerics, stage: Stage, kernel: Kernel, parameterized: bool, env: Env, img: Image,
                    sched: Schedule, dst: seq<Byte>)
    requires WellFormed(img) && WellFormedStage(stage) && KernelOf(nm, stage, kernel, parameterized, img.channels)
    requires LaunchFits(kernel, StageRadius(stage), img.width, img.height)
    requires ValidSchedule(kernel, img.width, img.height, sched) && |img.pixels| <= |dst|
    requires parameterized ==> BindsStage(nm, stage, env)
    ensures View(RunThreads(nm, kernel, env, img, sched, sched.order, dst), img.width, img.height, img.channels)
            == ApplyChain(nm, img, Ops(StageOps(stage)))
  {
    StageProduces(nm, stage, kernel, parameterized, env, img, sched);
    GridStores(nm, kernel, env, img, sched, dst, ApplyChain(nm, img, Ops(StageOps(stage))));
  }
}
