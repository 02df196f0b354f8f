/**
 How a chain is cut into kernels (src/backend/cuda/codegen.cpp, plan_stages). Every stage
 is one launch: some per-pixel operations, perhaps one that looks at neighbours, and then
 more per-pixel ones.
 */
module FusionPlan {
  import opened Chains

  /** An operation together with its position in the chain. */
  datatype PlannedOp = PlannedOp(op: Op, index: nat)

  datatype Stage = Stage(prologue: seq<PlannedOp>, stencil: Option<PlannedOp>, epilogue: seq<PlannedOp>)

  const EMPTY_STAGE := Stage([], None, [])

  /** Where one more operation goes, given the stages so far: one pass of the loop. */
  function Place(stages: seq<Stage>, planned: PlannedOp): (r: seq<Stage>)
    ensures |r| > 0
  {
    var open := if stages == [] then [EMPTY_STAGE] else stages;
    var last := |open| - 1;
    if !IsStencil(planned.op.kind) then
      var current := open[last];
      if current.stencil.Some?
      then open[last := current.(epilogue := current.epilogue + [planned])]
      else open[last := current.(prologue := current.prologue + [planned])]
    else if open[last].stencil.Some? then open + [EMPTY_STAGE.(stencil := Some(planned))]
    else open[last := open[last].(stencil := Some(planned))]
  }

  function Plan(chain: OpChain): seq<Stage> {
    if chain == [] then []
    else Place(Plan(chain[..|chain| - 1]), PlannedOp(chain[|chain| - 1], |chain| - 1))
  }

  /** plan_stages, as the loop over the chain. */
  method PlanStages(chain: OpChain) returns (stages: seq<Stage>)
    ensures stages == Plan(chain)
  {
    stages := [];
    for index := 0 to |chain|
      invariant stages == Plan(chain[..index])
    {
      var planned := PlannedOp(chain[index], index);
      if stages == [] {
        stages := [EMPTY_STAGE];
      }
      var last := |stages| - 1;
      assert chain[..index + 1][..index] == chain[..index];
      if !IsStencil(planned.op.kind) {
        var current := stages[last];
        if current.stencil.Some? {
          stages := stages[last := current.(epilogue := current.epilogue + [planned])];
        } else {
          stages := stages[last := current.(prologue := current.prologue + [planned])];
        }
        continue;
      }
      if stages[last].stencil.Some? {
        stages := stages + [EMPTY_STAGE];
        last := last + 1;
      }
      stages := stages[last := stages[last].(stencil := Some(planned))];
    }
    assert chain[..|chain|] == chain;
  }

  // ------------------------------------------------------- what a plan is for

  /** A stage's operations in the order it runs them. */
  function StageOps(stage: Stage): seq<PlannedOp> {
    stage.prologue + (if stage.stencil.Some? then [stage.stencil.value] else []) + stage.epilogue
  }

  function Flatten(stages: seq<Stage>): seq<PlannedOp> {
    if stages == [] then [] else Flatten(stages[..|stages| - 1]) + StageOps(stages[|stages| - 1])
  }

  function Indexed(chain: OpChain): (r: seq<PlannedOp>)
    ensures |r| == |chain|
  {
    seq(|chain|, i requires 0 <= i < |chain| => PlannedOp(chain[i], i))
  }

  predicate AllPointwise(ops: seq<PlannedOp>) {
    forall i :: 0 <= i < |ops| ==> !IsStencil(ops[i].op.kind)
  }

  /** Pointwise runs hold pointwise operations, the stencil is one, and an epilogue has one. */
  predicate WellFormedStage(stage: Stage) {
    && AllPointwise(stage.prologue) && AllPointwise(stage.epilogue)
    && (stage.stencil.Some? ==> IsStencil(stage.stencil.value.op.kind))
    && (stage.stencil.None? ==> stage.epilogue == [])
  }

  /**
   The promises of a plan: every stage is well formed, only the first one carries a
   prologue, only the first one can lack a stencil, and then it is the only one.
   */
  predicate WellPlanned(stages: seq<Stage>) {
    && (forall s :: 0 <= s < |stages| ==> WellFormedStage(stages[s]))
    && (forall s :: 1 <= s < |stages| ==> stages[s].prologue == [])
    && (forall s :: 0 <= s < |stages| && stages[s].stencil.None? ==> |stages| == 1 && stages[s].prologue != [])
  }

  function StencilCount(chain: OpChain): nat {
    if chain == [] then 0
    else StencilCount(chain[..|chain| - 1]) + (if IsStencil(chain[|chain| - 1].kind) then 1 else 0)
  }

  lemma FlattenLast(stages: seq<Stage>, stage: Stage)
    ensures Flatten(stages + [stage]) == Flatten(stages) + StageOps(stage)
  {
    assert (stages + [stage])[..|stages|] == stages;
  }

  lemma PlaceAppends(stages: seq<Stage>, planned: PlannedOp)
    requires WellPlanned(stages)
    ensures Flatten(Place(stages, planned)) == Flatten(stages) + [planned]
  {
    var r := Place(stages, planned);
    if stages == [] {
      assert r == [] + [r[0]];
      FlattenLast([], r[0]);
      PlaceExtends(EMPTY_STAGE, r[0], planned);
      assert Flatten(r) == [] + StageOps(r[0]) && StageOps(EMPTY_STAGE) == [];
    } else {
      var init, last := stages[..|stages| - 1], stages[|stages| - 1];
      if |r| > |stages| {
        assert r == stages + [EMPTY_STAGE.(stencil := Some(planned))];
        FlattenLast(stages, EMPTY_STAGE.(stencil := Some(planned)));
        assert StageOps(EMPTY_STAGE.(stencil := Some(planned))) == [planned];
      } else {
        var joined := r[|stages| - 1];
        assert r == init + [joined];
        FlattenLast(init, joined);
        PlaceExtends(last, joined, planned);
        calc {
          Flatten(r);
          Flatten(init) + StageOps(joined);
          Flatten(init) + (StageOps(last) + [planned]);
          Flatten(init) + StageOps(last) + [planned];
          Flatten(stages) + [planned];
        }
      }
    }
  }

  lemma PlaceKeepsPromises(stages: seq<Stage>, planned: PlannedOp)
    requires WellPlanned(stages)
    ensures WellPlanned(Place(stages, planned))
  {
    var r := Place(stages, planned);
    var last := |r| - 1;
    if |r| > |stages| && stages != [] {
      assert r[..last] == stages;
    } else if stages != [] {
      assert forall s :: 0 <= s < last ==> r[s] == stages[s];
      if !IsStencil(planned.op.kind) {
        PointwiseJoined(stages[last], planned);
      }
    }
  }

  lemma PointwiseJoined(stage: Stage, planned: PlannedOp)
    requires WellFormedStage(stage) && !IsStencil(planned.op.kind)
    ensures AllPointwise(stage.prologue + [planned]) && AllPointwise(stage.epilogue + [planned])
  {
  }

  /** The stage an operation joins runs it after everything it already had. */
  lemma PlaceExtends(before: Stage, after: Stage, planned: PlannedOp)
    requires WellFormedStage(before)
    requires || (before.stencil.Some? && after == before.(epilogue := before.epilogue + [planned]))
             || (before.stencil.None? && after == before.(prologue := before.prologue + [planned]))
             || (before.stencil.None? && after == before.(stencil := Some(planned)))
    ensures StageOps(after) == StageOps(before) + [planned]
  {
  }

  lemma IndexedLast(chain: OpChain)
    requires chain != []
    ensures Indexed(chain)
            == Indexed(chain[..|chain| - 1]) + [PlannedOp(chain[|chain| - 1], |chain| - 1)]
  {
  }

  /**
   Regrouping loses, repeats and reorders nothing: the stages, run in order, are the
   chain with every operation carrying its own position.
   */
  lemma {:induction false} PlanKeepsChain(chain: OpChain)
    ensures Flatten(Plan(chain)) == Indexed(chain)
    ensures WellPlanned(Plan(chain))
  {
    if chain != [] {
      var init := chain[..|chain| - 1];
      PlanKeepsChain(init);
      var planned := PlannedOp(chain[|chain| - 1], |chain| - 1);
      PlaceAppends(Plan(init), planned);
      PlaceKeepsPromises(Plan(init), planned);
      IndexedLast(chain);
    }
  }

  /** One kernel per stencil, and one for a chain of pointwise operations only. */
  lemma {:induction false} PlanSize(chain: OpChain)
    ensures |Plan(chain)| == if chain == [] then 0 else if StencilCount(chain) == 0 then 1 else StencilCount(chain)
  {
    if chain != [] {
      var init := chain[..|chain| - 1];
      PlanSize(init);
      PlanKeepsChain(init);
      if init != [] {
        HasStencil(init);
      }
    }
  }

  /** The last stage has a stencil exactly when the chain has one. */
  lemma {:induction false} HasStencil(chain: OpChain)
    requires chain != []
    ensures Plan(chain)[|Plan(chain)| - 1].stencil.Some? <==> StencilCount(chain) > 0
  {
    var init := chain[..|chain| - 1];
    if init != [] {
      HasStencil(init);
    }
  }
}
