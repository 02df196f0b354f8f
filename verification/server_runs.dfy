/**
 All runs of the server: the invariant every step keeps, and what it says. Readers, the
 worker, writers, accepted connections and stop() interleave in any order.
 */
module ServerRuns {
  import opened Chains
  import opened SlotPools
  import opened ServerModel
  import opened ServerPlaces
  import opened ServerSlots
  import opened ServerBytes
  import opened ServerAnswers

  predicate Joined(stage: StopStage) {
    stage == ConnectionsJoined || stage == QueueClosed || stage == WorkerJoined
  }

  /** How far stop() has come, and what it has done so far. */
  ghost predicate StopInv(s: Server) {
    && s.pool.closed == (s.stage == PoolClosed || Joined(s.stage))
    && s.queueClosed == (s.stage == QueueClosed || s.stage == WorkerJoined)
    && (Joined(s.stage) ==> AllOver(s))
    && (s.worker == Exited ==> s.queueClosed && s.queue == [])
    && (s.stage == WorkerJoined ==> s.worker == Exited)
  }

  ghost predicate Inv(s: Server) {
    && Shape(s) && PlacesInv(s) && SlotsInv(s) && BytesInv(s) && ConnsInv(s) && AnswersInv(s) && StopInv(s)
  }

  /** queue.push never fails for a live reader: the queue closes only after all have gone. */
  lemma PushNeverFails(s: Server, c: nat)
    requires StopInv(s)
    ensures !ReaderCan(s, c, PushFails)
  {
  }

  lemma ConnectedFrames(s: Server)
    requires Shape(s)
    ensures Connected(s)
  {
    forall t | 0 <= t < |s.frames| ensures s.frames[t].conn < |s.conns| {
      assert FrameOk(s, s.frames[t]);
    }
  }

  lemma ReaderKeepsStop(s: Server, c: nat, step: ReaderStep)
    requires StopInv(s) && ReaderCan(s, c, step)
    ensures StopInv(ReaderNext(s, c, step))
  {
    assert Joined(s.stage) ==> ConnOver(s.conns[c]);
  }

  lemma WorkerKeepsStop(s: Server, step: WorkerStep)
    requires StopInv(s) && WorkerCan(s, step)
    ensures StopInv(WorkerNext(s, step))
  {
    var e := WorkerNext(s, step);
    if Joined(s.stage) {
      forall c | 0 <= c < |e.conns| ensures ConnOver(e.conns[c]) {
        assert ConnOver(s.conns[c]);
      }
    }
  }

  lemma ReaderKeepsPlaces(s: Server, c: nat, step: ReaderStep)
    requires PlacesInv(s) && ReaderCan(s, c, step) && step != PushFails
    ensures PlacesInv(ReaderNext(s, c, step))
  {
    if step == FinishFill {
      FinishFillKeepsPlaces(s, c);
    } else if step == Push {
      PushKeepsPlaces(s, c);
    } else {
      QuietKeepsPlaces(s, ReaderNext(s, c, step));
    }
  }

  lemma ReaderKeepsInv(s: Server, c: nat, step: ReaderStep)
    requires Inv(s) && ReaderCan(s, c, step)
    ensures Inv(ReaderNext(s, c, step))
  {
    PushNeverFails(s, c);
    ReaderKeepsShape(s, c, step);
    ReaderKeepsPlaces(s, c, step);
    ReaderKeepsSlots(s, c, step);
    ReaderKeepsBytes(s, c, step);
    ReaderKeepsConns(s, c, step);
    ReaderKeepsAnswers(s, c, step);
    ReaderKeepsStop(s, c, step);
  }

  lemma WorkerKeepsInv(s: Server, step: WorkerStep)
    requires Inv(s) && WorkerCan(s, step)
    ensures Inv(WorkerNext(s, step))
  {
    ConnectedFrames(s);
    WorkerKeepsShape(s, step);
    WorkerKeepsPlaces(s, step);
    WorkerKeepsSlots(s, step);
    WorkerKeepsBytes(s, step);
    WorkerKeepsConns(s, step);
    WorkerKeepsAnswers(s, step);
    WorkerKeepsStop(s, step);
  }

  /** Writers and stop() move no frame, no slot and no byte, and answer nothing. */
  lemma QuietKeepsInv(s: Server, e: Server)
    requires Inv(s) && NoFrameMoves(s, e) && NoSlotMoves(s, e) && NoByteChanges(s, e) && NoAnswer(s, e)
    requires |e.pool.owners| == |s.pool.owners| && e.pool.cap == s.pool.cap
    requires ConnsInv(e) && StopInv(e)
    ensures Inv(e)
  {
    QuietKeepsShape(s, e);
    QuietKeepsPlaces(s, e);
    QuietKeepsSlots(s, e);
    QuietKeepsBytes(s, e);
    QuietKeepsAnswers(s, e);
  }

  lemma WriterIsQuiet(s: Server, c: nat, step: WriterStep)
    requires |s.frames| == |s.phases| && BytesInv(s) && WriterCan(s, c, step)
    ensures var e := WriterNext(s, c, step);
            NoFrameMoves(s, e) && NoSlotMoves(s, e) && NoByteChanges(s, e) && NoAnswer(s, e)
  {
    var e := WriterNext(s, c, step);
    forall d | 0 <= d < |e.conns| ensures ReaderOk(s, e.conns[d].reader) {
      assert ReaderOk(s, s.conns[d].reader);
    }
  }

  lemma WriterKeepsInv(s: Server, c: nat, step: WriterStep)
    requires Inv(s) && WriterCan(s, c, step)
    ensures Inv(WriterNext(s, c, step))
  {
    var e := WriterNext(s, c, step);
    assert Joined(s.stage) ==> ConnOver(s.conns[c]);
    WriterIsQuiet(s, c, step);
    WriterKeepsConns(s, c, step);
    QuietKeepsInv(s, e);
  }

  lemma StopIsQuiet(s: Server, step: StopStep)
    requires |s.frames| == |s.phases| && BytesInv(s) && StopCan(s, step)
    ensures var e := StopNext(s, step);
            NoFrameMoves(s, e) && NoSlotMoves(s, e) && NoByteChanges(s, e) && NoAnswer(s, e)
  {
    var e := StopNext(s, step);
    forall d | 0 <= d < |e.conns| ensures ReaderOk(s, e.conns[d].reader) {
      assert d < |s.conns| ==> ReaderOk(s, s.conns[d].reader);
    }
  }

  lemma StopKeepsInv(s: Server, step: StopStep)
    requires Inv(s) && StopCan(s, step)
    ensures Inv(StopNext(s, step))
  {
    ConnectedFrames(s);
    StopIsQuiet(s, step);
    StopKeepsConns(s, step);
    QuietKeepsInv(s, StopNext(s, step));
  }

  /** Every step of every thread keeps the invariant. */
  lemma StepKeepsInv(s: Server, step: Step)
    requires Inv(s) && Can(s, step)
    ensures Inv(Next(s, step))
  {
    match step
    case ByReader(c, reader) => ReaderKeepsInv(s, c, reader);
    case ByWriter(c, writer) => WriterKeepsInv(s, c, writer);
    case ByWorker(worker) => WorkerKeepsInv(s, worker);
    case ByStop(stop) => StopKeepsInv(s, stop);
  }

  lemma StartedInv(s: Server)
    requires Started(s)
    ensures Inv(s)
  {
    FreshPool(s.pool);
  }

  function Run(s: Server, steps: seq<Step>): Option<Server> {
    if steps == [] then Some(s)
    else
      var m := Run(s, steps[..|steps| - 1]);
      if m.Some? && Can(m.value, steps[|steps| - 1]) then Some(Next(m.value, steps[|steps| - 1])) else None
  }

  /** The invariant holds in every reachable state. */
  lemma {:induction false} RunKeepsInv(s: Server, steps: seq<Step>)
    requires Started(s) && Run(s, steps).Some?
    ensures Inv(Run(s, steps).value)
    decreases |steps|
  {
    if steps == [] {
      StartedInv(s);
    } else {
      RunKeepsInv(s, steps[..|steps| - 1]);
      StepKeepsInv(Run(s, steps[..|steps| - 1]).value, steps[|steps| - 1]);
    }
  }

  // -------------------------------------------------------------- slot conservation

  predicate WithReader(s: Server, i: nat)
  {
    exists c :: 0 <= c < |s.conns| &&
      (AtSlot(s.conns[c].reader, i)
       || (s.conns[c].reader.AtPush? && s.conns[c].reader.ticket < |s.frames| && s.frames[s.conns[c].reader.ticket].slot == i))
  }

  predicate InQueue(s: Server, i: nat) {
    exists k :: 0 <= k < |s.queue| && s.queue[k] < |s.frames| && s.frames[s.queue[k]].slot == i
  }

  predicate InWorkersHand(s: Server, i: nat) {
    (s.worker.Holding? || s.worker.Launching?) && s.worker.ticket < |s.frames| && s.frames[s.worker.ticket].slot == i
  }

  predicate InTable(s: Server, i: nat) {
    exists h :: h in s.inFlight && s.inFlight[h] < |s.frames| && s.frames[s.inFlight[h]].slot == i
  }

  predicate OneOfFive(a: bool, b: bool, c: bool, d: bool, e: bool) {
    (if a then 1 else 0) + (if b then 1 else 0) + (if c then 1 else 0) + (if d then 1 else 0) + (if e then 1 else 0) == 1
  }

  /** A frame that holds its slot is in the one place its phase says. */
  lemma HeldSlotPlace(s: Server, i: nat, t: nat)
    requires Shape(s) && PlacesInv(s) && SlotsInv(s) && i < |s.uses| && s.uses[i] == Carries(t)
    ensures t < |s.phases|
    ensures WithReader(s, i) == s.phases[t].Pushing?
    ensures InQueue(s, i) == s.phases[t].Queued?
    ensures InWorkersHand(s, i) == (s.phases[t].Taken? || (s.phases[t].Submitted? && s.worker.Launching? && s.worker.ticket == t))
    ensures InTable(s, i) == (s.phases[t].Submitted? && s.phases[t].h in s.inFlight)
    ensures HoldsSlot(s.phases[t])
  {
    assert UseOk(s, i);
    CarriedByOne(s, t);
    HeldElsewhere(s, i, t);
    match s.phases[t]
    case Pushing => assert s.conns[s.frames[t].conn].reader == AtPush(t);
    case Queued =>
      assert t in s.queue;
      var k :| 0 <= k < |s.queue| && s.queue[k] == t;
    case Taken => assert InHand(s.worker, t, s.phases[t]);
    case _ =>
  }

  lemma HeldElsewhere(s: Server, i: nat, t: nat)
    requires Shape(s) && PlacesInv(s) && t < |s.frames| && s.frames[t].slot == i && HoldsSlot(s.phases[t])
    requires forall d :: 0 <= d < |s.conns| ==> !AtSlot(s.conns[d].reader, i)
    requires forall u :: 0 <= u < |s.frames| && s.frames[u].slot == i && HoldsSlot(s.phases[u]) ==> u == t
    ensures WithReader(s, i) ==> s.phases[t].Pushing?
    ensures InQueue(s, i) ==> s.phases[t].Queued?
    ensures InWorkersHand(s, i) ==> s.phases[t].Taken? || (s.phases[t].Submitted? && s.worker.Launching? && s.worker.ticket == t)
    ensures InTable(s, i) ==> s.phases[t].Submitted? && s.phases[t].h in s.inFlight
  {
  }

  lemma UnheldSlotPlace(s: Server, i: nat)
    requires Shape(s) && PlacesInv(s) && i < |s.uses|
    requires forall u :: 0 <= u < |s.frames| && s.frames[u].slot == i ==> !HoldsSlot(s.phases[u])
    ensures !InQueue(s, i) && !InWorkersHand(s, i) && !InTable(s, i)
    ensures WithReader(s, i) ==> exists c :: 0 <= c < |s.conns| && AtSlot(s.conns[c].reader, i)
  {
  }

  /**
   Every slot is in exactly one of the free list, a reader, the queue, the worker's hand
   and the in-flight table; owners' counts are the real ones and within the cap.
   */
  lemma SlotsConserved(s: Server, i: nat)
    requires Inv(s) && i < |s.uses|
    ensures OneOfFive(i in s.pool.free, WithReader(s, i), InQueue(s, i), InWorkersHand(s, i), InTable(s, i))
    ensures forall o: nat {:trigger HeldBy(s.pool, o)} :: HeldBy(s.pool, o) == CountOwned(s.pool.owners, o) <= s.pool.cap
  {
    assert UseOk(s, i);
    assert i in s.pool.free <==> s.pool.owners[i].None?;
    match s.uses[i]
    case Unused =>
      FreeIsUnheld(s, i);
      UnheldSlotPlace(s, i);
    case FilledBy(c) =>
      FilledByOne(s, c);
      UnheldSlotPlace(s, i);
    case Carries(t) =>
      HeldSlotPlace(s, i, t);
      assert s.phases[t].Submitted? ==> (s.phases[t].h in s.inFlight) != (s.worker.Launching? && s.worker.ticket == t);
  }

  // --------------------------------------------------------------------- responses

  /** An outbox entry answers frame t, under t's own number. */
  predicate Answers(s: Server, a: Answer, t: nat) {
    t < |s.frames| && a.origin == OfFrame(t) && a.response.seqNum == s.frames[t].header.seqNum
  }

  /** Frame t has a response in its own connection's outbox. */
  predicate HasResponse(s: Server, t: nat)
    requires t < |s.frames| && s.frames[t].conn < |s.conns|
  {
    exists p :: 0 <= p < |s.conns[s.frames[t].conn].answers| && Answers(s, s.conns[s.frames[t].conn].answers[p], t)
  }

  /** The n-th rejected header of a connection has its error response in that connection's outbox. */
  predicate HasRejection(conn: Conn, n: nat)
    requires n < |conn.rejections|
  {
    exists p :: 0 <= p < |conn.answers| &&
      conn.answers[p] == Answer(Response(conn.rejections[n].seqNum, conn.rejections[n].status, false, false, None), OfHeader(n))
  }

  /** A frame has a response from the moment the worker has answered it, and not before. */
  lemma AnsweredHasResponse(s: Server, t: nat)
    requires Inv(s) && t < |s.frames|
    ensures s.frames[t].conn < |s.conns|
    ensures HasResponse(s, t) <==> Answered(s.phases[t])
  {
    assert FrameOk(s, s.frames[t]) && FrameAnswer(s, t);
    var c := s.frames[t].conn;
    if HasResponse(s, t) {
      var p :| 0 <= p < |s.conns[c].answers| && Answers(s, s.conns[c].answers[p], t);
      assert EntryOwned(s, c, p);
    } else if Answered(s.phases[t]) {
      assert Answers(s, s.conns[c].answers[s.phases[t].at], t);
    }
  }

  lemma RejectedHasResponse(s: Server, c: nat, n: nat)
    requires Inv(s) && c < |s.conns| && n < |s.conns[c].rejections|
    ensures HasRejection(s.conns[c], n)
  {
    assert RejectionAnswered(s.conns[c], n);
  }

  /**
   No frame and no rejected header has two responses, and each response is in the outbox of
   the connection that asked, under the number it asked with.
   */
  lemma OneResponseEach(s: Server, c: nat, p: nat, d: nat, q: nat)
    requires Inv(s) && c < |s.conns| && p < |s.conns[c].answers| && d < |s.conns| && q < |s.conns[d].answers|
    ensures (s.conns[c].answers[p].origin == s.conns[d].answers[q].origin
             && (c == d || s.conns[c].answers[p].origin.OfFrame?)) ==>
              c == d && p == q
    ensures s.conns[c].answers[p].origin.OfFrame? ==>
              var t := s.conns[c].answers[p].origin.ticket;
              t < |s.frames| && s.frames[t].conn == c && s.conns[c].answers[p].response.seqNum == s.frames[t].header.seqNum
              && HasResponse(s, t) && Answered(s.phases[t])
    ensures s.conns[c].answers[p].origin.OfHeader? ==>
              var n := s.conns[c].answers[p].origin.n;
              && n < |s.conns[c].rejections| && s.conns[c].answers[p].response.seqNum == s.conns[c].rejections[n].seqNum
              && s.conns[c].answers[p].response.status == s.conns[c].rejections[n].status
  {
    assert EntryOwned(s, c, p) && EntryOwned(s, d, q);
    match s.conns[c].answers[p].origin
    case OfFrame(t) =>
      assert FrameAnswer(s, t);
      assert Answers(s, s.conns[c].answers[p], t);
    case OfHeader(n) => assert RejectionAnswered(s.conns[c], n);
  }

  lemma AllSettled(s: Server, t: nat)
    requires Shape(s) && PlacesInv(s) && ConnsInv(s) && AllOver(s) && t < |s.frames|
    ensures s.phases[t].Settled?
  {
    assert FrameOk(s, s.frames[t]);
    var c := s.frames[t].conn;
    assert ConnOver(s.conns[c]) && ConnInv(s.conns[c], Unsettled(s.frames, s.phases, c));
    assert InHand(s.worker, t, s.phases[t]);
    if !s.phases[t].Settled? {
      UnsettledCounts(s.frames, s.phases, t, c);
    }
  }

  /**
   By the time stop() closes the queue every frame ever read in full and every rejected header
   has its response, taken by the writer; the queue and the in-flight table are empty, and
   every slot is back in the free list.
   */
  lemma JoinedMeansDone(s: Server)
    requires Inv(s) && Joined(s.stage)
    ensures forall t :: 0 <= t < |s.frames| ==> s.phases[t].Settled? && s.frames[t].conn < |s.conns| && HasResponse(s, t)
    ensures forall c, n :: 0 <= c < |s.conns| && 0 <= n < |s.conns[c].rejections| ==> HasRejection(s.conns[c], n)
    ensures forall c :: 0 <= c < |s.conns| ==> s.conns[c].written == |s.conns[c].answers|
    ensures s.queue == [] && s.inFlight == map[]
    ensures forall i :: 0 <= i < |s.uses| ==> i in s.pool.free
  {
    forall t | 0 <= t < |s.frames| ensures s.phases[t].Settled? && s.frames[t].conn < |s.conns| && HasResponse(s, t) {
      AllSettled(s, t);
      AnsweredHasResponse(s, t);
    }
    forall c, n | 0 <= c < |s.conns| && 0 <= n < |s.conns[c].rejections| ensures HasRejection(s.conns[c], n) {
      RejectedHasResponse(s, c, n);
    }
    forall c | 0 <= c < |s.conns| ensures s.conns[c].written == |s.conns[c].answers| {
      assert ConnOver(s.conns[c]) && ConnInv(s.conns[c], Unsettled(s.frames, s.phases, c));
    }
    NothingWaits(s);
    forall i | 0 <= i < |s.uses| ensures i in s.pool.free {
      AllFree(s, i);
    }
  }

  lemma AllFree(s: Server, i: nat)
    requires Shape(s) && SlotsInv(s) && AllOver(s) && i < |s.uses|
    requires forall t :: 0 <= t < |s.frames| ==> s.phases[t].Settled?
    ensures s.uses[i] == Unused && i in s.pool.free
  {
    assert UseOk(s, i);
    assert s.uses[i].FilledBy? ==> ConnOver(s.conns[s.uses[i].conn]);
  }

  lemma HeadIsQueued(s: Server)
    requires PlacesInv(s) && s.queue != []
    ensures s.queue[0] < |s.phases| && s.phases[s.queue[0]].Queued?
  {
  }

  lemma NothingWaits(s: Server)
    requires PlacesInv(s) && forall t :: 0 <= t < |s.frames| ==> s.phases[t].Settled?
    ensures s.queue == [] && s.inFlight == map[]
  {
    if s.queue != [] {
      HeadIsQueued(s);
      assert false;
    }
  }
}
