/**
 Valid schedules exist for every launch, and a schedule can be checked: what the
 executor's results are stated over is neither empty nor out of reach.
 */
module Schedules {
  import opened Arith
  import opened Kernels
  import opened Launches

  /** The threads of one grid, as a set. */
  function GridThreads(block: nat, width: nat, height: nat): set<Thread>
    requires block > 0
  {
    set gx | 0 <= gx < GridDim(width, block), gy | 0 <= gy < GridDim(height, block),
      tx | 0 <= tx < block, ty | 0 <= ty < block :: Thread(gx, gy, tx, ty)
  }

  /** Every finite set can be listed without repeats. */
  lemma {:induction false} Listed<T>(all: set<T>) returns (list: seq<T>)
    ensures forall t :: t in list <==> t in all
    ensures forall i, j :: 0 <= i < j < |list| ==> list[i] != list[j]
    decreases all
  {
    list := [];
    if all != {} {
      var t :| t in all;
      var rest := Listed(all - {t});
      list := rest + [t];
    }
  }

  /** One block's loads: a cell per thread and round, all cells. */
  function BlockLoads(kernel: Kernel): seq<LoadEvent>
    requires kernel.blockDim > 0
  {
    TimesMono(1, kernel.blockDim, kernel.blockDim);
    seq(TileCells(kernel), k requires 0 <= k < TileCells(kernel) => LoadOf(k, kernel.blockDim))
  }

  lemma BlockLoadsComplete(kernel: Kernel)
    requires kernel.blockDim > 0
    ensures LoadsComplete(kernel, BlockLoads(kernel))
  {
    forall e | IsLoad(e, kernel.blockDim, TileCells(kernel)) ensures e in BlockLoads(kernel) {
      var k := CellOf(e, kernel.blockDim);
      EachCellLoadedOnce(kernel.blockDim, TileCells(kernel), k);
      assert BlockLoads(kernel)[k] == e;
    }
  }

  /** Every launch has a valid schedule. */
  lemma ScheduleExists(kernel: Kernel, width: nat, height: nat) returns (sched: Schedule)
    requires kernel.blockDim > 0
    ensures ValidSchedule(kernel, width, height, sched)
  {
    var order := Listed(GridThreads(kernel.blockDim, width, height));
    BlockLoadsComplete(kernel);
    var blocks := set gx | 0 <= gx < GridDim(width, kernel.blockDim), gy | 0 <= gy < GridDim(height, kernel.blockDim) :: (gx, gy);
    var tile: Tile := seq(TileCells(kernel), _ => []);
    sched := Schedule(order, map b | b in blocks :: BlockLoads(kernel), map b | b in blocks :: tile);
    forall t ensures t in sched.order <==> InGrid(t, kernel.blockDim, width, height) {
      assert t in GridThreads(kernel.blockDim, width, height) <==> InGrid(t, kernel.blockDim, width, height);
    }
  }

  // -------------------------------------------------------------- checking one

  predicate CellsLoaded(block: nat, cells: nat, loads: seq<LoadEvent>)
    requires block > 0 && Times(block, block) > 0
  {
    forall k :: 0 <= k < cells ==> LoadOf(k, block) in loads
  }

  predicate BlockLoaded(kernel: Kernel, sched: Schedule, block: (nat, nat))
    requires kernel.blockDim > 0 && Times(kernel.blockDim, kernel.blockDim) > 0
  {
    && block in sched.loads && block in sched.garbage && |sched.garbage[block]| == TileCells(kernel)
    && CellsLoaded(kernel.blockDim, TileCells(kernel), sched.loads[block])
  }

  /** Validity by finite search: over threads, and over the cells of every block. */
  predicate Checked(kernel: Kernel, width: nat, height: nat, sched: Schedule)
    requires kernel.blockDim > 0 && Times(kernel.blockDim, kernel.blockDim) > 0
  {
    && (forall i, j :: 0 <= i < |sched.order| && 0 <= j < i ==> sched.order[j] != sched.order[i])
    && (forall i :: 0 <= i < |sched.order| ==> InGrid(sched.order[i], kernel.blockDim, width, height))
    && (forall t :: t in GridThreads(kernel.blockDim, width, height) ==> t in sched.order)
    && (kernel.tiled ==> BlocksLoaded(kernel, width, height, sched))
  }

  lemma CellsLoadedComplete(kernel: Kernel, loads: seq<LoadEvent>)
    requires kernel.blockDim > 0 && Times(kernel.blockDim, kernel.blockDim) > 0
    ensures CellsLoaded(kernel.blockDim, TileCells(kernel), loads) <==> LoadsComplete(kernel, loads)
  {
    if CellsLoaded(kernel.blockDim, TileCells(kernel), loads) {
      forall e | IsLoad(e, kernel.blockDim, TileCells(kernel)) ensures e in loads {
        EachCellLoadedOnce(kernel.blockDim, TileCells(kernel), CellOf(e, kernel.blockDim));
      }
    }
    if LoadsComplete(kernel, loads) {
      forall k | 0 <= k < TileCells(kernel) ensures LoadOf(k, kernel.blockDim) in loads {
        EachCellLoadedOnce(kernel.blockDim, TileCells(kernel), k);
      }
    }
  }

  /** The search accepts exactly the valid schedules. */
  lemma CheckedIsValid(kernel: Kernel, width: nat, height: nat, sched: Schedule)
    requires kernel.blockDim > 0 && Times(kernel.blockDim, kernel.blockDim) > 0
    ensures Checked(kernel, width, height, sched) <==> ValidSchedule(kernel, width, height, sched)
  {
    forall t ensures t in GridThreads(kernel.blockDim, width, height) <==> InGrid(t, kernel.blockDim, width, height) {
    }
    forall b | b in sched.loads
      ensures CellsLoaded(kernel.blockDim, TileCells(kernel), sched.loads[b]) <==> LoadsComplete(kernel, sched.loads[b])
    {
      CellsLoadedComplete(kernel, sched.loads[b]);
    }
    if kernel.tiled {
      TilesCheckedLoaded(kernel, width, height, sched);
    }
  }

  predicate BlocksLoaded(kernel: Kernel, width: nat, height: nat, sched: Schedule)
    requires kernel.blockDim > 0 && Times(kernel.blockDim, kernel.blockDim) > 0
  {
    forall gx, gy :: 0 <= gx < GridDim(width, kernel.blockDim) && 0 <= gy < GridDim(height, kernel.blockDim) ==>
      BlockLoaded(kernel, sched, (gx, gy))
  }

  lemma TilesCheckedLoaded(kernel: Kernel, width: nat, height: nat, sched: Schedule)
    requires kernel.blockDim > 0 && Times(kernel.blockDim, kernel.blockDim) > 0
    requires forall b :: b in sched.loads ==>
               (CellsLoaded(kernel.blockDim, TileCells(kernel), sched.loads[b]) <==> LoadsComplete(kernel, sched.loads[b]))
    ensures TilesLoaded(kernel, width, height, sched) <==> BlocksLoaded(kernel, width, height, sched)
  {
    if TilesLoaded(kernel, width, height, sched) {
      forall gx, gy | 0 <= gx < GridDim(width, kernel.blockDim) && 0 <= gy < GridDim(height, kernel.blockDim)
        ensures BlockLoaded(kernel, sched, (gx, gy))
      {
        assert (gx, gy) in sched.loads;
      }
    }
    if BlocksLoaded(kernel, width, height, sched) {
      forall gx: nat, gy: nat | gx < GridDim(width, kernel.blockDim) && gy < GridDim(height, kernel.blockDim)
        ensures (gx, gy) in sched.loads && (gx, gy) in sched.garbage
        ensures LoadsComplete(kernel, sched.loads[(gx, gy)]) && |sched.garbage[(gx, gy)]| == TileCells(kernel)
      {
        assert BlockLoaded(kernel, sched, (gx, gy));
      }
    }
  }
}
