/**
 Where every frame is: with its reader, in the queue, in the worker's hand, with the
 backend under a handle, or answered. Each of those places and the frame's own phase
 agree in every reachable state.
 */
module ServerPlaces {
  import opened Chains
  import opened ServerModel

  predicate QueueInv(queue: seq<nat>, phases: seq<Phase>) {
    && (forall k :: 0 <= k < |queue| ==> queue[k] < |phases| && phases[queue[k]].Queued?)
    && (forall j, k :: 0 <= j < k < |queue| ==> queue[j] != queue[k])
    && (forall t :: 0 <= t < |phases| && phases[t].Queued? ==> t in queue)
  }

  predicate PushInv(conns: seq<Conn>, frames: seq<Frame>, phases: seq<Phase>)
    requires |frames| == |phases|
  {
    && (forall c :: 0 <= c < |conns| && conns[c].reader.AtPush? ==>
          var t := conns[c].reader.ticket; t < |frames| && phases[t].Pushing? && frames[t].conn == c)
    && (forall t :: 0 <= t < |frames| && phases[t].Pushing? ==>
          frames[t].conn < |conns| && conns[frames[t].conn].reader == AtPush(t))
  }

  /** A frame in one of the worker's phases is the one the worker has in hand. */
  predicate InHand(worker: WorkerPc, t: nat, p: Phase) {
    match p
    case Taken => worker == Holding(t)
    case Freed(h) => worker.Responding? && worker.ticket == t && worker.done.handle == h
    case Responded(h, at) => worker.Settling? && worker.ticket == t
    case Dropped => false
    case _ => true
  }

  predicate WorkerInv(worker: WorkerPc, phases: seq<Phase>, issued: nat, inFlight: map<nat, nat>) {
    match worker
    case Holding(t) => t < |phases| && phases[t].Taken?
    case Launching(t, h) => t < |phases| && phases[t] == Submitted(h) && h == issued && h !in inFlight
    case Responding(t, done, rest) => t < |phases| && phases[t] == Freed(done.handle)
    case Settling(t, rest) => t < |phases| && phases[t].Responded?
    case ToPoll => inFlight != map[]
    case Exited => inFlight == map[]
    case _ => true
  }

  predicate HandInv(worker: WorkerPc, phases: seq<Phase>) {
    forall t :: 0 <= t < |phases| ==> InHand(worker, t, phases[t])
  }

  predicate HasHandle(p: Phase) {
    p.Submitted? || p.Freed? || p.Responded? || p.Settled?
  }

  ghost predicate HandleInv(tickets: map<nat, nat>, issued: nat, phases: seq<Phase>) {
    && (forall h :: h in tickets <==> 1 <= h <= issued)
    && (forall h :: h in tickets ==>
          tickets[h] < |phases| && HasHandle(phases[tickets[h]]) && phases[tickets[h]].h == h)
    && (forall t :: 0 <= t < |phases| && HasHandle(phases[t]) ==>
          phases[t].h in tickets && tickets[phases[t].h] == t)
  }

  predicate InFlightInv(inFlight: map<nat, nat>, tickets: map<nat, nat>, phases: seq<Phase>, worker: WorkerPc) {
    && (forall h :: h in inFlight ==>
          h in tickets && inFlight[h] == tickets[h] < |phases| && phases[inFlight[h]] == Submitted(h))
    && (forall t :: 0 <= t < |phases| && phases[t].Submitted? ==>
          phases[t].h in inFlight || worker == Launching(t, phases[t].h))
  }

  /** What is left of the batch being retired. */
  function Batch(worker: WorkerPc): seq<Done> {
    match worker
    case Retiring(batch) => batch
    case Responding(_, _, rest) => rest
    case Settling(_, rest) => rest
    case _ => []
  }

  /** The places that have to do with the worker. */
  ghost predicate WorkInv(s: Server) {
    && HandInv(s.worker, s.phases) && WorkerInv(s.worker, s.phases, s.issued, s.inFlight)
    && HandleInv(s.tickets, s.issued, s.phases) && InFlightInv(s.inFlight, s.tickets, s.phases, s.worker)
    && GoodBatch(Batch(s.worker), s.inFlight)
  }

  ghost predicate PlacesInv(s: Server) {
    && |s.frames| == |s.phases|
    && QueueInv(s.queue, s.phases) && PushInv(s.conns, s.frames, s.phases) && WorkInv(s)
  }

  // ------------------------------------------------ what a change of phase needs

  lemma QueueUnchanged(queue: seq<nat>, phases: seq<Phase>, t: nat, q: Phase)
    requires QueueInv(queue, phases) && t < |phases| && !phases[t].Queued? && !q.Queued?
    ensures QueueInv(queue, phases[t := q])
  {
  }

  lemma Dequeued(queue: seq<nat>, phases: seq<Phase>, q: Phase)
    requires QueueInv(queue, phases) && queue != [] && !q.Queued?
    ensures QueueInv(queue[1..], phases[queue[0] := q])
  {
    var rest, after := queue[1..], phases[queue[0] := q];
    forall t | 0 <= t < |after| && after[t].Queued? ensures t in rest {
      assert t in queue;
      var k :| 0 <= k < |queue| && queue[k] == t;
      assert rest[k - 1] == t;
    }
  }

  lemma Enqueued(queue: seq<nat>, phases: seq<Phase>, t: nat)
    requires QueueInv(queue, phases) && t < |phases| && !phases[t].Queued?
    ensures QueueInv(queue + [t], phases[t := Queued])
  {
    var longer, after := queue + [t], phases[t := Queued];
    forall u | 0 <= u < |after| && after[u].Queued? ensures u in longer {
      if u == t {
        assert longer[|queue|] == t;
      } else {
        assert u in queue;
      }
    }
  }

  lemma PushUnchanged(conns: seq<Conn>, frames: seq<Frame>, phases: seq<Phase>, t: nat, q: Phase)
    requires |frames| == |phases| && PushInv(conns, frames, phases) && t < |phases| && !phases[t].Pushing? && !q.Pushing?
    ensures PushInv(conns, frames, phases[t := q])
  {
  }

  /** Readers that neither come to a push nor leave one keep the pushing frames in place. */
  lemma ReadersKeepPush(conns: seq<Conn>, conns': seq<Conn>, frames: seq<Frame>, phases: seq<Phase>)
    requires |frames| == |phases| && PushInv(conns, frames, phases) && |conns| <= |conns'|
    requires forall c :: 0 <= c < |conns| ==>
               conns'[c].reader == conns[c].reader || (!conns'[c].reader.AtPush? && !conns[c].reader.AtPush?)
    requires forall c :: |conns| <= c < |conns'| ==> !conns'[c].reader.AtPush?
    ensures PushInv(conns', frames, phases)
  {
  }

  lemma HandleKept(tickets: map<nat, nat>, issued: nat, phases: seq<Phase>, t: nat, q: Phase)
    requires HandleInv(tickets, issued, phases) && t < |phases|
    requires HasHandle(q) == HasHandle(phases[t]) && (HasHandle(q) ==> q.h == phases[t].h)
    ensures HandleInv(tickets, issued, phases[t := q])
  {
  }

  lemma HandleIssued(tickets: map<nat, nat>, issued: nat, phases: seq<Phase>, t: nat)
    requires HandleInv(tickets, issued, phases) && t < |phases| && !HasHandle(phases[t])
    ensures HandleInv(tickets[issued + 1 := t], issued + 1, phases[t := Submitted(issued + 1)])
  {
  }

  function HandOf(worker: WorkerPc): Option<nat> {
    match worker
    case Holding(t) => Some(t)
    case Responding(t, _, _) => Some(t)
    case Settling(t, _) => Some(t)
    case _ => None
  }

  /** The frame in hand moves on, together with the worker. */
  lemma HandMoves(worker: WorkerPc, worker': WorkerPc, phases: seq<Phase>, t: nat, q: Phase)
    requires HandInv(worker, phases) && t < |phases| && InHand(worker', t, q)
    requires HandOf(worker) == None || HandOf(worker) == Some(t)
    ensures HandInv(worker', phases[t := q])
  {
    forall u | 0 <= u < |phases| && u != t ensures InHand(worker', u, phases[u]) {
      assert InHand(worker, u, phases[u]);
    }
  }

  lemma HandEmpty(worker: WorkerPc, worker': WorkerPc, phases: seq<Phase>)
    requires HandInv(worker, phases) && HandOf(worker) == None
    ensures HandInv(worker', phases)
  {
    forall u | 0 <= u < |phases| ensures InHand(worker', u, phases[u]) {
      assert InHand(worker, u, phases[u]);
    }
  }

  /** A frame that is not with the backend changes phase; launches neither start nor end. */
  lemma InFlightKept(inFlight: map<nat, nat>, tickets: map<nat, nat>, phases: seq<Phase>, worker: WorkerPc, worker': WorkerPc,
                     t: nat, q: Phase)
    requires InFlightInv(inFlight, tickets, phases, worker) && t < |phases| && !phases[t].Submitted? && !q.Submitted?
    requires !worker.Launching? && !worker'.Launching?
    ensures InFlightInv(inFlight, tickets, phases[t := q], worker')
  {
  }

  lemma InFlightIssued(inFlight: map<nat, nat>, tickets: map<nat, nat>, phases: seq<Phase>, worker: WorkerPc, t: nat, h: nat)
    requires InFlightInv(inFlight, tickets, phases, worker) && t < |phases| && !phases[t].Submitted?
    requires !worker.Launching? && h !in tickets
    ensures InFlightInv(inFlight, tickets[h := t], phases[t := Submitted(h)], Launching(t, h)) && h !in inFlight
  {
  }

  lemma InFlightEntered(inFlight: map<nat, nat>, tickets: map<nat, nat>, phases: seq<Phase>, t: nat, h: nat)
    requires InFlightInv(inFlight, tickets, phases, Launching(t, h)) && t < |phases| && phases[t] == Submitted(h)
    requires h in tickets && tickets[h] == t
    ensures InFlightInv(inFlight[h := t], tickets, phases, ToPoll)
  {
  }

  lemma InFlightLeft(inFlight: map<nat, nat>, tickets: map<nat, nat>, issued: nat, phases: seq<Phase>, worker: WorkerPc,
                     worker': WorkerPc, h: nat)
    requires InFlightInv(inFlight, tickets, phases, worker) && HandleInv(tickets, issued, phases) && h in inFlight
    requires !worker.Launching? && !worker'.Launching?
    ensures InFlightInv(inFlight - {h}, tickets, phases[inFlight[h] := Freed(h)], worker')
  {
    var t, after := inFlight[h], phases[inFlight[h] := Freed(h)];
    forall g | g in inFlight - {h} ensures after[inFlight[g]] == Submitted(g) {
      assert phases[inFlight[g]] == Submitted(g);
    }
  }

  lemma BatchShrinks(batch: seq<Done>, inFlight: map<nat, nat>)
    requires batch != [] && GoodBatch(batch, inFlight)
    ensures GoodBatch(batch[1..], inFlight - {batch[0].handle})
  {
  }

  // -------------------------------------------------------------------- the worker

  lemma PopKeepsPlaces(s: Server)
    requires PlacesInv(s) && WorkerCan(s, Pop)
    ensures PlacesInv(WorkerNext(s, Pop))
  {
    var t := s.queue[0];
    Dequeued(s.queue, s.phases, Taken);
    PushUnchanged(s.conns, s.frames, s.phases, t, Taken);
    HandMoves(s.worker, Holding(t), s.phases, t, Taken);
    HandleKept(s.tickets, s.issued, s.phases, t, Taken);
    InFlightKept(s.inFlight, s.tickets, s.phases, s.worker, Holding(t), t, Taken);
  }

  lemma SubmitKeepsWork(s: Server)
    requires WorkInv(s) && WorkerCan(s, Submit)
    ensures WorkInv(WorkerNext(s, Submit))
  {
    var t, h := s.worker.ticket, s.issued + 1;
    HandMoves(s.worker, Launching(t, h), s.phases, t, Submitted(h));
    HandleIssued(s.tickets, s.issued, s.phases, t);
    assert h !in s.tickets;
    InFlightIssued(s.inFlight, s.tickets, s.phases, s.worker, t, h);
  }

  lemma SubmitKeepsPlaces(s: Server)
    requires PlacesInv(s) && WorkerCan(s, Submit)
    ensures PlacesInv(WorkerNext(s, Submit))
  {
    var t, h := s.worker.ticket, s.issued + 1;
    QueueUnchanged(s.queue, s.phases, t, Submitted(h));
    PushUnchanged(s.conns, s.frames, s.phases, t, Submitted(h));
    SubmitKeepsWork(s);
  }

  lemma SubmitReturnsKeepsPlaces(s: Server)
    requires PlacesInv(s) && WorkerCan(s, SubmitReturns)
    ensures PlacesInv(WorkerNext(s, SubmitReturns))
  {
    var t, h := s.worker.ticket, s.worker.h;
    HandEmpty(s.worker, ToPoll, s.phases);
    InFlightEntered(s.inFlight, s.tickets, s.phases, t, h);
    assert h in s.inFlight[h := t];
  }

  lemma ReleaseKeepsPlaces(s: Server)
    requires PlacesInv(s) && WorkerCan(s, ReleaseSlot)
    ensures PlacesInv(WorkerNext(s, ReleaseSlot))
  {
    var done := s.worker.batch[0];
    var t, worker := s.inFlight[done.handle], Responding(s.inFlight[done.handle], done, s.worker.batch[1..]);
    QueueUnchanged(s.queue, s.phases, t, Freed(done.handle));
    PushUnchanged(s.conns, s.frames, s.phases, t, Freed(done.handle));
    HandMoves(s.worker, worker, s.phases, t, Freed(done.handle));
    HandleKept(s.tickets, s.issued, s.phases, t, Freed(done.handle));
    InFlightLeft(s.inFlight, s.tickets, s.issued, s.phases, s.worker, worker, done.handle);
    BatchShrinks(s.worker.batch, s.inFlight);
  }

  lemma RespondKeepsPlaces(s: Server)
    requires PlacesInv(s) && WorkerCan(s, Respond)
    ensures PlacesInv(WorkerNext(s, Respond))
  {
    var e, t := WorkerNext(s, Respond), s.worker.ticket;
    QueueUnchanged(s.queue, s.phases, t, e.phases[t]);
    PushUnchanged(s.conns, s.frames, s.phases, t, e.phases[t]);
    ReadersKeepPush(s.conns, e.conns, s.frames, e.phases);
    HandMoves(s.worker, e.worker, s.phases, t, e.phases[t]);
    HandleKept(s.tickets, s.issued, s.phases, t, e.phases[t]);
    InFlightKept(s.inFlight, s.tickets, s.phases, s.worker, e.worker, t, e.phases[t]);
  }

  lemma SettleKeepsPlaces(s: Server)
    requires PlacesInv(s) && WorkerCan(s, Settle)
    ensures PlacesInv(WorkerNext(s, Settle))
  {
    var e, t := WorkerNext(s, Settle), s.worker.ticket;
    QueueUnchanged(s.queue, s.phases, t, e.phases[t]);
    PushUnchanged(s.conns, s.frames, s.phases, t, e.phases[t]);
    ReadersKeepPush(s.conns, e.conns, s.frames, e.phases);
    HandMoves(s.worker, e.worker, s.phases, t, e.phases[t]);
    HandleKept(s.tickets, s.issued, s.phases, t, e.phases[t]);
    InFlightKept(s.inFlight, s.tickets, s.phases, s.worker, e.worker, t, e.phases[t]);
  }

  /** The turns of the loop that only move the worker on. */
  lemma WorkerMovesOn(s: Server, step: WorkerStep)
    requires PlacesInv(s) && WorkerCan(s, step)
    requires step.PopNothing? || step.LeaveLoop? || step.Polled? || step.BatchDone?
    ensures PlacesInv(WorkerNext(s, step))
  {
    HandEmpty(s.worker, WorkerNext(s, step).worker, s.phases);
  }

  /** Every completion the worker retires is one it is waiting for. */
  lemma NeverUnknown(s: Server)
    requires PlacesInv(s)
    ensures !WorkerCan(s, SkipUnknown)
  {
  }

  lemma WorkerKeepsPlaces(s: Server, step: WorkerStep)
    requires PlacesInv(s) && WorkerCan(s, step)
    ensures PlacesInv(WorkerNext(s, step))
  {
    match step
    case Pop => PopKeepsPlaces(s);
    case Submit => SubmitKeepsPlaces(s);
    case SubmitReturns => SubmitReturnsKeepsPlaces(s);
    case ReleaseSlot => ReleaseKeepsPlaces(s);
    case Respond => RespondKeepsPlaces(s);
    case Settle => SettleKeepsPlaces(s);
    case SkipUnknown => NeverUnknown(s);
    case _ => WorkerMovesOn(s, step);
  }

  // ------------------------------------------------------------------- the others

  /** Only connections change, and no reader comes to or leaves a push. */
  predicate NoFrameMoves(s: Server, e: Server) {
    && e.frames == s.frames && e.phases == s.phases && e.queue == s.queue && e.worker == s.worker
    && e.inFlight == s.inFlight && e.tickets == s.tickets && e.issued == s.issued && |s.conns| <= |e.conns|
    && (forall c :: 0 <= c < |s.conns| ==>
          e.conns[c].reader == s.conns[c].reader || (!e.conns[c].reader.AtPush? && !s.conns[c].reader.AtPush?))
    && (forall c :: |s.conns| <= c < |e.conns| ==> !e.conns[c].reader.AtPush?)
  }

  lemma QuietKeepsPlaces(s: Server, e: Server)
    requires PlacesInv(s) && NoFrameMoves(s, e)
    ensures PlacesInv(e)
  {
    ReadersKeepPush(s.conns, e.conns, s.frames, s.phases);
  }

  lemma FrameAdded(conns: seq<Conn>, frames: seq<Frame>, phases: seq<Phase>, c: nat, conn: Conn, frame: Frame)
    requires |frames| == |phases| && PushInv(conns, frames, phases) && c < |conns| && !conns[c].reader.AtPush?
    requires frame.conn == c && conn.reader == AtPush(|frames|)
    ensures PushInv(conns[c := conn], frames + [frame], phases + [Pushing])
  {
    var longer, after := frames + [frame], phases + [Pushing];
    assert forall t :: 0 <= t < |frames| ==> longer[t] == frames[t] && after[t] == phases[t];
  }

  lemma FrameAddedElsewhere(s: Server, e: Server)
    requires PlacesInv(s) && |e.phases| == |e.frames| && e.phases == s.phases + [Pushing] && e.worker == s.worker && e.queue == s.queue
    requires e.inFlight == s.inFlight && e.tickets == s.tickets && e.issued == s.issued
    ensures QueueInv(e.queue, e.phases) && WorkInv(e)
  {
    assert forall t :: 0 <= t < |s.phases| ==> e.phases[t] == s.phases[t];
    assert forall t :: 0 <= t < |e.phases| && t != |s.phases| ==> InHand(s.worker, t, s.phases[t]);
  }

  lemma FinishFillKeepsPlaces(s: Server, c: nat)
    requires PlacesInv(s) && ReaderCan(s, c, FinishFill)
    ensures PlacesInv(ReaderNext(s, c, FinishFill))
  {
    var e := ReaderNext(s, c, FinishFill);
    FrameAdded(s.conns, s.frames, s.phases, c, e.conns[c], e.frames[|s.frames|]);
    FrameAddedElsewhere(s, e);
  }

  lemma FramePushed(conns: seq<Conn>, frames: seq<Frame>, phases: seq<Phase>, c: nat, conn: Conn)
    requires |frames| == |phases| && PushInv(conns, frames, phases) && c < |conns| && conns[c].reader.AtPush?
    requires !conn.reader.AtPush?
    ensures PushInv(conns[c := conn], frames, phases[conns[c].reader.ticket := Queued])
  {
  }

  lemma PushKeepsPlaces(s: Server, c: nat)
    requires PlacesInv(s) && ReaderCan(s, c, Push)
    ensures PlacesInv(ReaderNext(s, c, Push))
  {
    var e, t := ReaderNext(s, c, Push), s.conns[c].reader.ticket;
    FramePushed(s.conns, s.frames, s.phases, c, e.conns[c]);
    Enqueued(s.queue, s.phases, t);
    HandleKept(s.tickets, s.issued, s.phases, t, Queued);
    forall u | 0 <= u < |e.phases| ensures InHand(s.worker, u, e.phases[u]) {
      assert InHand(s.worker, u, s.phases[u]);
    }
  }
}
