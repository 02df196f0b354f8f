/**
 Slot conservation: in every reachable state each slot is in exactly one place, and the
 pool's lists and counts are exactly that. A slot's bytes change only while one reader
 fills it.
 */
module ServerSlots {
  import opened Chains
  import opened Protocol
  import opened SlotPools
  import opened ServerModel
  import opened ServerPlaces

  /** The phases in which a frame's slot is still claimed for it. */
  predicate HoldsSlot(p: Phase) {
    p.Pushing? || p.Queued? || p.Taken? || p.Submitted?
  }

  predicate FrameOk(s: Server, f: Frame) {
    && f.conn < |s.conns| && f.slot < |s.uses|
    && Validate(f.header, s.settings.limits) == Ok && CanonicalChain(f.chain)
    && |f.payload| == f.header.payloadLen <= s.settings.limits.maxPayloadBytes
  }

  ghost predicate Shape(s: Server) {
    && |s.phases| == |s.frames| && |s.uses| == |s.pool.owners| == |s.host| && s.pool.cap > 0
    && s.settings.queueCapacity > 0
    && (forall i :: 0 <= i < |s.host| ==> |s.host[i]| == s.settings.limits.maxPayloadBytes)
    && (forall t :: 0 <= t < |s.frames| ==> FrameOk(s, s.frames[t]))
  }

  /** Slot i is used as recorded, and the pool agrees about its owner. */
  predicate UseOk(s: Server, i: nat)
    requires |s.phases| == |s.frames| && i < |s.uses| == |s.pool.owners|
  {
    match s.uses[i]
    case Unused => s.pool.owners[i].None?
    case FilledBy(c) =>
      s.pool.owners[i] == Some(c) && c < |s.conns| && s.conns[c].reader.Filling? && s.conns[c].reader.slot == i
    case Carries(t) =>
      && t < |s.frames| && HoldsSlot(s.phases[t]) && s.frames[t].slot == i
      && s.pool.owners[i] == Some(s.frames[t].conn)
  }

  predicate FillingOk(s: Server, c: nat)
    requires c < |s.conns|
  {
    var reader := s.conns[c].reader;
    reader.Filling? ==> reader.slot < |s.uses| && s.uses[reader.slot] == FilledBy(c)
  }

  predicate CarriedOk(s: Server, t: nat)
    requires t < |s.frames| == |s.phases|
  {
    HoldsSlot(s.phases[t]) ==> s.frames[t].slot < |s.uses| && s.uses[s.frames[t].slot] == Carries(t)
  }

  ghost predicate SlotsInv(s: Server)
    requires |s.phases| == |s.frames| && |s.uses| == |s.pool.owners|
  {
    && PoolInv(s.pool)
    && (forall i :: 0 <= i < |s.uses| ==> UseOk(s, i))
    && (forall c :: 0 <= c < |s.conns| ==> FillingOk(s, c))
    && (forall t :: 0 <= t < |s.frames| ==> CarriedOk(s, t))
  }

  /** No slot changes hands: same pool and uses, and nobody starts or stops holding one. */
  predicate NoSlotMoves(s: Server, e: Server) {
    && e.frames == s.frames && |e.phases| == |s.phases| && e.uses == s.uses
    && (e.pool == s.pool || e.pool == s.pool.(closed := true))
    && |s.conns| <= |e.conns|
    && (forall t :: 0 <= t < |s.phases| ==> HoldsSlot(e.phases[t]) == HoldsSlot(s.phases[t]))
    && (forall c :: 0 <= c < |s.conns| ==> SameFill(s.conns[c].reader, e.conns[c].reader))
    && (forall c :: |s.conns| <= c < |e.conns| ==> !e.conns[c].reader.Filling?)
  }

  predicate SameFill(a: ReaderPc, b: ReaderPc) {
    a.Filling? == b.Filling? && (a.Filling? ==> a.slot == b.slot)
  }

  lemma QuietKeepsSlots(s: Server, e: Server)
    requires Shape(s) && SlotsInv(s) && NoSlotMoves(s, e)
    ensures SlotsInv(e)
  {
    CloseKeepsInv(s.pool);
    forall i | 0 <= i < |e.uses| ensures UseOk(e, i) {
      assert UseOk(s, i);
    }
    forall c | 0 <= c < |e.conns| ensures FillingOk(e, c) {
      assert c < |s.conns| ==> FillingOk(s, c);
    }
    forall t | 0 <= t < |e.frames| ensures CarriedOk(e, t) {
      assert CarriedOk(s, t);
    }
  }

  /** Slot `slot` goes from one holder to another; nothing else moves. */
  ghost predicate SlotMoves(s: Server, e: Server, slot: nat)
    requires |s.phases| == |s.frames| && |s.uses| == |s.pool.owners|
  {
    && slot < |s.uses| && |e.uses| == |s.uses| && |e.pool.owners| == |s.pool.owners|
    && |e.phases| == |e.frames| && s.frames <= e.frames && |e.conns| == |s.conns|
    && (forall i :: 0 <= i < |s.uses| && i != slot ==>
          e.uses[i] == s.uses[i] && e.pool.owners[i] == s.pool.owners[i])
    && (forall t :: 0 <= t < |s.phases| && s.frames[t].slot != slot ==> HoldsSlot(e.phases[t]) == HoldsSlot(s.phases[t]))
    && (forall t :: |s.frames| <= t < |e.frames| ==> e.frames[t].slot == slot)
    && (forall c :: 0 <= c < |s.conns| && !AtSlot(s.conns[c].reader, slot) && !AtSlot(e.conns[c].reader, slot) ==>
          SameFill(s.conns[c].reader, e.conns[c].reader))
  }

  predicate AtSlot(reader: ReaderPc, slot: nat) {
    reader.Filling? && reader.slot == slot
  }

  /** A move is sound when the slot's new holder is right and no old holder is left. */
  lemma MoveKeepsSlots(s: Server, e: Server, slot: nat)
    requires Shape(s) && SlotsInv(s) && SlotMoves(s, e, slot) && PoolInv(e.pool)
    requires UseOk(e, slot)
    requires forall c :: 0 <= c < |e.conns| && AtSlot(e.conns[c].reader, slot) ==> e.uses[slot] == FilledBy(c)
    requires forall t :: 0 <= t < |e.frames| && e.frames[t].slot == slot && HoldsSlot(e.phases[t]) ==> e.uses[slot] == Carries(t)
    requires forall c :: 0 <= c < |s.conns| && AtSlot(s.conns[c].reader, slot) && e.conns[c].reader.Filling? ==>
               e.conns[c].reader.slot == slot
    requires forall c :: 0 <= c < |s.conns| && AtSlot(e.conns[c].reader, slot) && s.conns[c].reader.Filling? ==>
               s.conns[c].reader.slot == slot
    ensures SlotsInv(e)
  {
    forall i | 0 <= i < |e.uses| ensures UseOk(e, i) {
      assert UseOk(s, i);
    }
    forall c | 0 <= c < |e.conns| ensures FillingOk(e, c) {
      assert FillingOk(s, c);
    }
    forall t | 0 <= t < |e.frames| ensures CarriedOk(e, t) {
      assert t < |s.frames| ==> CarriedOk(s, t);
    }
  }

  // ------------------------------------------------------------------- slots by step

  /** A slot the pool has free is held by nobody. */
  lemma FreeIsUnheld(s: Server, slot: nat)
    requires Shape(s) && SlotsInv(s) && slot < |s.uses| && s.pool.owners[slot].None?
    ensures s.uses[slot] == Unused
    ensures forall c :: 0 <= c < |s.conns| ==> !AtSlot(s.conns[c].reader, slot)
    ensures forall t :: 0 <= t < |s.frames| && s.frames[t].slot == slot ==> !HoldsSlot(s.phases[t])
  {
    assert UseOk(s, slot);
    forall c | 0 <= c < |s.conns| ensures !AtSlot(s.conns[c].reader, slot) {
      assert FillingOk(s, c);
    }
    forall t | 0 <= t < |s.frames| && s.frames[t].slot == slot ensures !HoldsSlot(s.phases[t]) {
      assert CarriedOk(s, t);
    }
  }

  lemma ClaimKeepsSlots(s: Server, c: nat)
    requires Shape(s) && SlotsInv(s) && ReaderCan(s, c, Claim)
    ensures SlotsInv(ReaderNext(s, c, Claim))
  {
    var e, slot := ReaderNext(s, c, Claim), NextSlot(s.pool);
    ClaimKeepsInv(s.pool, c);
    FreeIsUnheld(s, slot);
    MoveKeepsSlots(s, e, slot);
  }

  /** The slot a reader fills is that reader's alone. */
  lemma FilledByOne(s: Server, c: nat)
    requires Shape(s) && SlotsInv(s) && c < |s.conns| && s.conns[c].reader.Filling?
    ensures var slot := s.conns[c].reader.slot;
            && slot < |s.uses| && CanRelease(s.pool, slot) && s.pool.owners[slot] == Some(c)
            && (forall d :: 0 <= d < |s.conns| && AtSlot(s.conns[d].reader, slot) ==> d == c)
            && (forall t :: 0 <= t < |s.frames| && s.frames[t].slot == slot ==> !HoldsSlot(s.phases[t]))
  {
    var slot := s.conns[c].reader.slot;
    assert FillingOk(s, c) && UseOk(s, slot);
    forall d | 0 <= d < |s.conns| && AtSlot(s.conns[d].reader, slot) ensures d == c {
      assert FillingOk(s, d);
    }
    forall t | 0 <= t < |s.frames| && s.frames[t].slot == slot ensures !HoldsSlot(s.phases[t]) {
      assert CarriedOk(s, t);
    }
  }

  lemma AbortKeepsSlots(s: Server, c: nat)
    requires Shape(s) && SlotsInv(s) && ReaderCan(s, c, AbortFill)
    ensures SlotsInv(ReaderNext(s, c, AbortFill))
  {
    var e, slot := ReaderNext(s, c, AbortFill), s.conns[c].reader.slot;
    FilledByOne(s, c);
    ReleaseKeepsInv(s.pool, slot);
    MoveKeepsSlots(s, e, slot);
  }

  lemma FinishFillKeepsSlots(s: Server, c: nat)
    requires Shape(s) && SlotsInv(s) && ReaderCan(s, c, FinishFill)
    ensures SlotsInv(ReaderNext(s, c, FinishFill))
  {
    var e, slot := ReaderNext(s, c, FinishFill), s.conns[c].reader.slot;
    FilledByOne(s, c);
    assert forall t :: 0 <= t < |s.frames| ==> e.frames[t] == s.frames[t] && e.phases[t] == s.phases[t];
    MoveKeepsSlots(s, e, slot);
  }

  /** The slot of a frame that holds one is that frame's alone, and can be released. */
  lemma CarriedByOne(s: Server, t: nat)
    requires Shape(s) && SlotsInv(s) && t < |s.frames| && HoldsSlot(s.phases[t])
    ensures var slot := s.frames[t].slot;
            && slot < |s.uses| && CanRelease(s.pool, slot) && s.uses[slot] == Carries(t)
            && (forall d :: 0 <= d < |s.conns| ==> !AtSlot(s.conns[d].reader, slot))
            && (forall u :: 0 <= u < |s.frames| && s.frames[u].slot == slot && HoldsSlot(s.phases[u]) ==> u == t)
  {
    var slot := s.frames[t].slot;
    assert CarriedOk(s, t) && UseOk(s, slot);
    forall d | 0 <= d < |s.conns| ensures !AtSlot(s.conns[d].reader, slot) {
      assert FillingOk(s, d);
    }
    forall u | 0 <= u < |s.frames| && s.frames[u].slot == slot && HoldsSlot(s.phases[u]) ensures u == t {
      assert CarriedOk(s, u);
    }
  }

  lemma BatchHeadHolds(s: Server)
    requires PlacesInv(s) && s.worker.Retiring? && s.worker.batch != []
    ensures s.worker.batch[0].handle in s.inFlight
    ensures var t := s.inFlight[s.worker.batch[0].handle]; t < |s.frames| == |s.phases| && HoldsSlot(s.phases[t])
  {
  }

  /** release() never meets its error: the frame being retired holds its slot. */
  lemma RetiredHoldsSlot(s: Server)
    requires Shape(s) && SlotsInv(s) && PlacesInv(s) && s.worker.Retiring? && s.worker.batch != []
    ensures WorkerCan(s, ReleaseSlot)
  {
    BatchHeadHolds(s);
    CarriedByOne(s, s.inFlight[s.worker.batch[0].handle]);
  }

  lemma ReleaseSlotKeepsSlots(s: Server, t: nat)
    requires Shape(s) && SlotsInv(s) && WorkerCan(s, ReleaseSlot)
    requires t == s.inFlight[s.worker.batch[0].handle] && HoldsSlot(s.phases[t])
    ensures SlotsInv(WorkerNext(s, ReleaseSlot))
  {
    CarriedByOne(s, t);
    ReleaseKeepsInv(s.pool, s.frames[t].slot);
    MoveKeepsSlots(s, WorkerNext(s, ReleaseSlot), s.frames[t].slot);
  }

  lemma WorkerMovesNoSlot(s: Server, step: WorkerStep)
    requires QueueInv(s.queue, s.phases) && WorkerInv(s.worker, s.phases, s.issued, s.inFlight)
    requires WorkerCan(s, step) && step != ReleaseSlot
    ensures NoSlotMoves(s, WorkerNext(s, step))
  {
  }

  lemma WorkerKeepsSlots(s: Server, step: WorkerStep)
    requires Shape(s) && SlotsInv(s) && PlacesInv(s) && WorkerCan(s, step)
    ensures |WorkerNext(s, step).phases| == |WorkerNext(s, step).frames|
    ensures |WorkerNext(s, step).uses| == |WorkerNext(s, step).pool.owners|
    ensures SlotsInv(WorkerNext(s, step))
  {
    if step == ReleaseSlot {
      BatchHeadHolds(s);
      ReleaseSlotKeepsSlots(s, s.inFlight[s.worker.batch[0].handle]);
    } else {
      WorkerMovesNoSlot(s, step);
      QuietKeepsSlots(s, WorkerNext(s, step));
    }
  }

  predicate MovesSlot(step: ReaderStep) {
    step == Claim || step == AbortFill || step == FinishFill || step == PushFails
  }

  lemma ReaderMovesNoSlot(s: Server, c: nat, step: ReaderStep)
    requires |s.frames| == |s.phases| && PushInv(s.conns, s.frames, s.phases)
    requires ReaderCan(s, c, step) && !MovesSlot(step)
    ensures NoSlotMoves(s, ReaderNext(s, c, step))
  {
  }

  lemma ReaderKeepsSlots(s: Server, c: nat, step: ReaderStep)
    requires Shape(s) && SlotsInv(s) && PlacesInv(s) && ReaderCan(s, c, step) && step != PushFails
    ensures |ReaderNext(s, c, step).phases| == |ReaderNext(s, c, step).frames|
    ensures |ReaderNext(s, c, step).uses| == |ReaderNext(s, c, step).pool.owners|
    ensures SlotsInv(ReaderNext(s, c, step))
  {
    if step == Claim {
      ClaimKeepsSlots(s, c);
    } else if step == AbortFill {
      AbortKeepsSlots(s, c);
    } else if step == FinishFill {
      FinishFillKeepsSlots(s, c);
    } else {
      ReaderMovesNoSlot(s, c, step);
      QuietKeepsSlots(s, ReaderNext(s, c, step));
    }
  }
}
