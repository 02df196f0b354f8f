/**
 What the slots hold: the bytes received so far while a reader fills one, the whole
 payload of a frame for as long as the frame holds its slot.
 */
module ServerBytes {
  import opened Samples
  import opened Chains
  import opened Protocol
  import opened SlotPools
  import opened ServerModel
  import opened ServerPlaces
  import opened ServerSlots

  predicate Prefixed(buffer: seq<Byte>, bytes: seq<Byte>) {
    |bytes| <= |buffer| && buffer[..|bytes|] == bytes
  }

  /** A reader past its header holds a header that passed and a chain that parsed. */
  predicate ReaderOk(s: Server, reader: ReaderPc) {
    match reader
    case Claiming(header, chain) => Validate(header, s.settings.limits) == Ok && CanonicalChain(chain)
    case Filling(header, chain, slot, got) =>
      && Validate(header, s.settings.limits) == Ok && CanonicalChain(chain)
      && |got| <= header.payloadLen && slot < |s.host| && Prefixed(s.host[slot], got)
    case _ => true
  }

  predicate PayloadKept(s: Server, t: nat)
    requires t < |s.frames| == |s.phases|
  {
    HoldsSlot(s.phases[t]) ==> s.frames[t].slot < |s.host| && Prefixed(s.host[s.frames[t].slot], s.frames[t].payload)
  }

  ghost predicate BytesInv(s: Server)
    requires |s.frames| == |s.phases|
  {
    && (forall c :: 0 <= c < |s.conns| ==> ReaderOk(s, s.conns[c].reader))
    && (forall t :: 0 <= t < |s.frames| ==> PayloadKept(s, t))
  }

  /** No byte changes, and nobody starts to hold a slot. */
  predicate NoByteChanges(s: Server, e: Server) {
    && e.host == s.host && e.frames == s.frames && |e.phases| == |s.phases| && e.settings == s.settings
    && |s.conns| <= |e.conns|
    && (forall t :: 0 <= t < |s.phases| && HoldsSlot(e.phases[t]) ==> HoldsSlot(s.phases[t]))
    && (forall c :: 0 <= c < |e.conns| ==> ReaderOk(s, e.conns[c].reader))
  }

  lemma QuietKeepsBytes(s: Server, e: Server)
    requires Shape(s) && BytesInv(s) && NoByteChanges(s, e)
    ensures BytesInv(e)
  {
    forall t | 0 <= t < |e.frames| ensures PayloadKept(e, t) {
      assert PayloadKept(s, t);
    }
  }

  lemma Overwritten(buffer: seq<Byte>, got: seq<Byte>, chunk: seq<Byte>)
    requires |got| + |chunk| <= |buffer|
    ensures var after := got + chunk + buffer[|got + chunk|..];
            |after| == |buffer| && Prefixed(after, got + chunk)
  {
  }

  /** Receiving writes one slot, which only its own reader holds. */
  lemma ReceiveKeepsBytes(s: Server, c: nat, chunk: seq<Byte>)
    requires Shape(s) && SlotsInv(s) && BytesInv(s) && ReaderCan(s, c, Receive(chunk))
    ensures BytesInv(ReaderNext(s, c, Receive(chunk)))
  {
    var e, reader := ReaderNext(s, c, Receive(chunk)), s.conns[c].reader;
    FilledByOne(s, c);
    Overwritten(s.host[reader.slot], reader.got, chunk);
    forall d | 0 <= d < |e.conns| ensures ReaderOk(e, e.conns[d].reader) {
      assert ReaderOk(s, s.conns[d].reader);
    }
    forall t | 0 <= t < |e.frames| ensures PayloadKept(e, t) {
      assert PayloadKept(s, t);
    }
  }

  lemma FinishFillKeepsBytes(s: Server, c: nat)
    requires Shape(s) && BytesInv(s) && ReaderCan(s, c, FinishFill)
    ensures BytesInv(ReaderNext(s, c, FinishFill))
  {
    var e := ReaderNext(s, c, FinishFill);
    assert ReaderOk(s, s.conns[c].reader);
    forall t | 0 <= t < |e.frames| ensures PayloadKept(e, t) {
      assert t < |s.frames| ==> PayloadKept(s, t) && e.frames[t] == s.frames[t] && e.phases[t] == s.phases[t];
    }
    forall d | 0 <= d < |e.conns| ensures ReaderOk(e, e.conns[d].reader) {
      assert ReaderOk(s, s.conns[d].reader);
    }
  }

  lemma ClaimQuietBytes(s: Server, c: nat)
    requires Shape(s) && BytesInv(s) && ReaderCan(s, c, Claim)
    ensures NoByteChanges(s, ReaderNext(s, c, Claim))
  {
    var slot := NextSlot(s.pool);
    assert ReaderOk(s, s.conns[c].reader);
    assert Prefixed(s.host[slot], []);
  }

  lemma ReaderQuietBytes(s: Server, c: nat, step: ReaderStep)
    requires |s.frames| == |s.phases| && PushInv(s.conns, s.frames, s.phases) && BytesInv(s)
    requires ReaderCan(s, c, step) && !step.Receive? && !step.FinishFill? && !step.PushFails? && !step.Claim?
    ensures NoByteChanges(s, ReaderNext(s, c, step))
  {
    var e := ReaderNext(s, c, step);
    assert ReaderOk(s, e.conns[c].reader);
  }

  lemma ReaderKeepsBytes(s: Server, c: nat, step: ReaderStep)
    requires Shape(s) && SlotsInv(s) && PlacesInv(s) && BytesInv(s) && ReaderCan(s, c, step) && step != PushFails
    ensures |ReaderNext(s, c, step).frames| == |ReaderNext(s, c, step).phases|
    ensures BytesInv(ReaderNext(s, c, step))
  {
    if step.Receive? {
      ReceiveKeepsBytes(s, c, step.chunk);
    } else if step == FinishFill {
      FinishFillKeepsBytes(s, c);
    } else {
      if step == Claim {
        ClaimQuietBytes(s, c);
      } else {
        ReaderQuietBytes(s, c, step);
      }
      QuietKeepsBytes(s, ReaderNext(s, c, step));
    }
  }

  lemma WorkerQuietBytes(s: Server, step: WorkerStep)
    requires |s.frames| == |s.phases| && BytesInv(s) && WorkerCan(s, step)
    requires QueueInv(s.queue, s.phases) && WorkerInv(s.worker, s.phases, s.issued, s.inFlight)
    ensures NoByteChanges(s, WorkerNext(s, step))
  {
    var e := WorkerNext(s, step);
    forall d | 0 <= d < |e.conns| ensures ReaderOk(s, e.conns[d].reader) {
      assert e.conns[d].reader == s.conns[d].reader;
    }
  }

  lemma WorkerKeepsBytes(s: Server, step: WorkerStep)
    requires Shape(s) && PlacesInv(s) && BytesInv(s) && WorkerCan(s, step)
    ensures |WorkerNext(s, step).frames| == |WorkerNext(s, step).phases|
    ensures BytesInv(WorkerNext(s, step))
  {
    WorkerQuietBytes(s, step);
    QuietKeepsBytes(s, WorkerNext(s, step));
  }

  // ----------------------------------------------------------------------- shapes

  /** Nothing that shapes the state changes; frames stay, connections may be added. */
  lemma QuietKeepsShape(s: Server, e: Server)
    requires Shape(s) && e.settings == s.settings && e.frames == s.frames && |e.phases| == |s.phases|
    requires |e.uses| == |s.uses| && |e.pool.owners| == |s.pool.owners| && e.pool.cap == s.pool.cap
    requires |e.host| == |s.host| && |s.conns| <= |e.conns|
    requires forall i :: 0 <= i < |s.host| ==> |e.host[i]| == |s.host[i]|
    ensures Shape(e)
  {
    forall t | 0 <= t < |e.frames| ensures FrameOk(e, e.frames[t]) {
      assert FrameOk(s, s.frames[t]);
    }
  }

  lemma FinishFillKeepsShape(s: Server, c: nat)
    requires Shape(s) && SlotsInv(s) && BytesInv(s) && ReaderCan(s, c, FinishFill)
    ensures Shape(ReaderNext(s, c, FinishFill))
  {
    var e := ReaderNext(s, c, FinishFill);
    assert ReaderOk(s, s.conns[c].reader);
    forall t | 0 <= t < |e.frames| ensures FrameOk(e, e.frames[t]) {
      assert t < |s.frames| ==> FrameOk(s, s.frames[t]) && e.frames[t] == s.frames[t];
    }
  }

  lemma ReaderKeepsShape(s: Server, c: nat, step: ReaderStep)
    requires Shape(s) && SlotsInv(s) && BytesInv(s) && ReaderCan(s, c, step)
    ensures Shape(ReaderNext(s, c, step))
  {
    if step == FinishFill {
      FinishFillKeepsShape(s, c);
    } else {
      QuietKeepsShape(s, ReaderNext(s, c, step));
    }
  }

  lemma WorkerKeepsShape(s: Server, step: WorkerStep)
    requires Shape(s) && WorkerCan(s, step)
    ensures Shape(WorkerNext(s, step))
  {
    QuietKeepsShape(s, WorkerNext(s, step));
  }
}
