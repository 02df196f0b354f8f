/**
 Responses: the outbox of a connection closes exactly when its reader is done and nothing
 of it is outstanding; every answered frame and every rejected header has exactly one
 response, in its own connection's outbox.
 */
module ServerAnswers {
  import opened Chains
  import opened Protocol
  import opened ServerModel
  import opened ServerPlaces

  predicate Answered(p: Phase) {
    p.Responded? || p.Settled?
  }

  predicate Counted(f: Frame, p: Phase, c: nat) {
    f.conn == c && !p.Settled? && !p.Dropped?
  }

  /** How many frames of a connection are not settled. */
  function Unsettled(frames: seq<Frame>, phases: seq<Phase>, c: nat): nat
    requires |frames| == |phases|
  {
    if frames == [] then 0
    else
      var n := |frames| - 1;
      Unsettled(frames[..n], phases[..n], c) + if Counted(frames[n], phases[n], c) then 1 else 0
  }

  lemma {:induction false} UnsettledAfter(frames: seq<Frame>, phases: seq<Phase>, t: nat, q: Phase, c: nat)
    requires |frames| == |phases| && t < |frames|
    ensures Unsettled(frames, phases[t := q], c)
            == Unsettled(frames, phases, c) - (if Counted(frames[t], phases[t], c) then 1 else 0)
               + (if Counted(frames[t], q, c) then 1 else 0)
    decreases |frames|
  {
    var n := |frames| - 1;
    if t < n {
      assert phases[t := q][..n] == phases[..n][t := q];
      UnsettledAfter(frames[..n], phases[..n], t, q, c);
    } else {
      assert phases[t := q][..n] == phases[..n];
    }
  }

  lemma UnsettledAdded(frames: seq<Frame>, phases: seq<Phase>, f: Frame, p: Phase, c: nat)
    requires |frames| == |phases|
    ensures Unsettled(frames + [f], phases + [p], c) == Unsettled(frames, phases, c) + if Counted(f, p, c) then 1 else 0
  {
    assert (frames + [f])[..|frames|] == frames && (phases + [p])[..|frames|] == phases;
  }

  lemma {:induction false} UnsettledCounts(frames: seq<Frame>, phases: seq<Phase>, t: nat, c: nat)
    requires |frames| == |phases| && t < |frames| && Counted(frames[t], phases[t], c)
    ensures Unsettled(frames, phases, c) > 0
    decreases |frames|
  {
    var n := |frames| - 1;
    if t < n {
      UnsettledCounts(frames[..n], phases[..n], t, c);
    }
  }

  lemma {:induction false} NoneUnsettled(frames: seq<Frame>, phases: seq<Phase>, c: nat)
    requires |frames| == |phases| && forall t :: 0 <= t < |frames| ==> !Counted(frames[t], phases[t], c)
    ensures Unsettled(frames, phases, c) == 0
    decreases |frames|
  {
    if frames != [] {
      NoneUnsettled(frames[..|frames| - 1], phases[..|frames| - 1], c);
    }
  }

  // -------------------------------------------------------------- one connection

  ghost predicate ConnInv(conn: Conn, unsettled: nat) {
    && conn.outstanding == unsettled
    && conn.readerDone == conn.reader.Gone?
    && conn.outboxClosed == (conn.readerDone && conn.outstanding == 0)
    && conn.written <= |conn.answers|
    && (conn.writerDone ==> conn.outboxClosed && conn.written == |conn.answers|)
  }

  ghost predicate ConnsInv(s: Server)
    requires |s.frames| == |s.phases|
  {
    forall c :: 0 <= c < |s.conns| ==> ConnInv(s.conns[c], Unsettled(s.frames, s.phases, c))
  }

  /** No push meets a closed outbox: rejecting readers and the worker find it open. */
  lemma OutboxOpen(s: Server, c: nat)
    requires |s.frames| == |s.phases| && ConnsInv(s) && c < |s.conns|
    ensures !s.conns[c].reader.Gone? ==> !s.conns[c].outboxClosed
    ensures forall t :: 0 <= t < |s.frames| && Counted(s.frames[t], s.phases[t], c) ==> !s.conns[c].outboxClosed
  {
    assert ConnInv(s.conns[c], Unsettled(s.frames, s.phases, c));
    forall t | 0 <= t < |s.frames| && Counted(s.frames[t], s.phases[t], c) ensures !s.conns[c].outboxClosed {
      UnsettledCounts(s.frames, s.phases, t, c);
    }
  }

  /** A frame changes phase and the counts with it; connections other than its own are untouched. */
  lemma PhaseKeepsConns(s: Server, e: Server, t: nat, q: Phase)
    requires |s.frames| == |s.phases| && ConnsInv(s) && t < |s.frames| && s.frames[t].conn < |s.conns|
    requires e.frames == s.frames && e.phases == s.phases[t := q] && |e.conns| == |s.conns|
    requires forall c :: 0 <= c < |s.conns| && c != s.frames[t].conn ==> e.conns[c] == s.conns[c]
    requires ConnInv(e.conns[s.frames[t].conn], Unsettled(e.frames, e.phases, s.frames[t].conn))
    ensures ConnsInv(e)
  {
    forall c | 0 <= c < |e.conns| ensures ConnInv(e.conns[c], Unsettled(e.frames, e.phases, c)) {
      assert ConnInv(s.conns[c], Unsettled(s.frames, s.phases, c));
      UnsettledAfter(s.frames, s.phases, t, q, c);
    }
  }

  lemma QuietPhaseKeepsConns(s: Server, e: Server, t: nat, q: Phase)
    requires |s.frames| == |s.phases| && ConnsInv(s) && t < |s.frames| && s.frames[t].conn < |s.conns|
    requires e.frames == s.frames && e.phases == s.phases[t := q] && |e.conns| == |s.conns|
    requires forall c :: 0 <= c < |s.conns| ==>
               e.conns[c] == s.conns[c].(reader := e.conns[c].reader) && e.conns[c].reader.Gone? == s.conns[c].reader.Gone?
    requires !s.phases[t].Settled? && !s.phases[t].Dropped? && !q.Settled? && !q.Dropped?
    ensures ConnsInv(e)
  {
    forall c | 0 <= c < |e.conns| ensures ConnInv(e.conns[c], Unsettled(e.frames, e.phases, c)) {
      assert ConnInv(s.conns[c], Unsettled(s.frames, s.phases, c));
      UnsettledAfter(s.frames, s.phases, t, q, c);
    }
  }

  lemma OneConnKeepsConns(s: Server, e: Server, c: nat)
    requires |s.frames| == |s.phases| && ConnsInv(s) && e.frames == s.frames && e.phases == s.phases
    requires c < |s.conns| == |e.conns| && ConnInv(e.conns[c], Unsettled(s.frames, s.phases, c))
    requires forall d :: 0 <= d < |s.conns| && d != c ==> e.conns[d] == s.conns[d]
    ensures ConnsInv(e)
  {
  }

  lemma FinishFillKeepsConns(s: Server, c: nat)
    requires |s.frames| == |s.phases| && ConnsInv(s) && ReaderCan(s, c, FinishFill)
    ensures ConnsInv(ReaderNext(s, c, FinishFill))
  {
    var e := ReaderNext(s, c, FinishFill);
    forall d | 0 <= d < |e.conns| ensures ConnInv(e.conns[d], Unsettled(e.frames, e.phases, d)) {
      assert ConnInv(s.conns[d], Unsettled(s.frames, s.phases, d));
      UnsettledAdded(s.frames, s.phases, e.frames[|s.frames|], Pushing, d);
    }
  }

  lemma ReaderKeepsConns(s: Server, c: nat, step: ReaderStep)
    requires PlacesInv(s) && ConnsInv(s) && ReaderCan(s, c, step) && step != PushFails
    ensures |ReaderNext(s, c, step).frames| == |ReaderNext(s, c, step).phases|
    ensures ConnsInv(ReaderNext(s, c, step))
  {
    var e := ReaderNext(s, c, step);
    assert ConnInv(s.conns[c], Unsettled(s.frames, s.phases, c));
    if step == FinishFill {
      FinishFillKeepsConns(s, c);
    } else if step == Push {
      QuietPhaseKeepsConns(s, e, s.conns[c].reader.ticket, Queued);
    } else {
      OneConnKeepsConns(s, e, c);
    }
  }

  lemma RespondKeepsConns(s: Server)
    requires |s.frames| == |s.phases| && WorkerInv(s.worker, s.phases, s.issued, s.inFlight)
    requires ConnsInv(s) && WorkerCan(s, Respond)
    ensures ConnsInv(WorkerNext(s, Respond))
  {
    var t := s.worker.ticket;
    var e, c := WorkerNext(s, Respond), s.frames[t].conn;
    OutboxOpen(s, c);
    assert ConnInv(s.conns[c], Unsettled(s.frames, s.phases, c));
    UnsettledAfter(s.frames, s.phases, t, e.phases[t], c);
    UnsettledCounts(s.frames, s.phases, t, c);
    PhaseKeepsConns(s, e, t, e.phases[t]);
  }

  lemma SettleKeepsConns(s: Server)
    requires |s.frames| == |s.phases| && WorkerInv(s.worker, s.phases, s.issued, s.inFlight)
    requires ConnsInv(s) && WorkerCan(s, Settle)
    ensures ConnsInv(WorkerNext(s, Settle))
  {
    var t := s.worker.ticket;
    var e, c := WorkerNext(s, Settle), s.frames[t].conn;
    OutboxOpen(s, c);
    assert ConnInv(s.conns[c], Unsettled(s.frames, s.phases, c));
    UnsettledAfter(s.frames, s.phases, t, e.phases[t], c);
    PhaseKeepsConns(s, e, t, e.phases[t]);
  }

  predicate Connected(s: Server) {
    forall t :: 0 <= t < |s.frames| ==> s.frames[t].conn < |s.conns|
  }

  lemma TakenOnKeepsConns(s: Server, e: Server, t: nat, q: Phase)
    requires |s.frames| == |s.phases| && ConnsInv(s) && Connected(s) && t < |s.frames|
    requires e.frames == s.frames && e.phases == s.phases[t := q] && e.conns == s.conns
    requires !s.phases[t].Settled? && !s.phases[t].Dropped? && !q.Settled? && !q.Dropped?
    ensures ConnsInv(e)
  {
    QuietPhaseKeepsConns(s, e, t, q);
  }

  lemma WorkerKeepsConns(s: Server, step: WorkerStep)
    requires PlacesInv(s) && ConnsInv(s) && Connected(s) && WorkerCan(s, step)
    ensures |WorkerNext(s, step).frames| == |WorkerNext(s, step).phases|
    ensures ConnsInv(WorkerNext(s, step))
  {
    var e := WorkerNext(s, step);
    match step
    case Pop => TakenOnKeepsConns(s, e, s.queue[0], Taken);
    case Submit => TakenOnKeepsConns(s, e, s.worker.ticket, Submitted(s.issued + 1));
    case ReleaseSlot =>
      var h := s.worker.batch[0].handle;
      TakenOnKeepsConns(s, e, s.inFlight[h], Freed(h));
    case Respond => RespondKeepsConns(s);
    case Settle => SettleKeepsConns(s);
    case _ =>
  }

  lemma WriterKeepsConns(s: Server, c: nat, step: WriterStep)
    requires |s.frames| == |s.phases| && ConnsInv(s) && WriterCan(s, c, step)
    ensures ConnsInv(WriterNext(s, c, step))
  {
    assert ConnInv(s.conns[c], Unsettled(s.frames, s.phases, c));
    OneConnKeepsConns(s, WriterNext(s, c, step), c);
  }

  lemma StopKeepsConns(s: Server, step: StopStep)
    requires |s.frames| == |s.phases| && ConnsInv(s) && Connected(s) && StopCan(s, step)
    ensures ConnsInv(StopNext(s, step))
  {
    var e := StopNext(s, step);
    if step == Accept {
      NoneUnsettled(s.frames, s.phases, |s.conns|);
      forall c | 0 <= c < |e.conns| ensures ConnInv(e.conns[c], Unsettled(e.frames, e.phases, c)) {
        assert c < |s.conns| ==> ConnInv(s.conns[c], Unsettled(s.frames, s.phases, c));
      }
    }
  }

  // -------------------------------------------------------------------- responses

  /** The response of an answered frame, where its phase says. */
  predicate FrameAnswer(s: Server, t: nat)
    requires t < |s.frames| == |s.phases|
  {
    Answered(s.phases[t]) ==>
      && s.frames[t].conn < |s.conns|
      && s.phases[t].at < |s.conns[s.frames[t].conn].answers|
      && var a := s.conns[s.frames[t].conn].answers[s.phases[t].at];
         a.origin == OfFrame(t) && a.response == ResponseTo(s.frames[t], a.response.image)
  }

  /** Entry p of connection c's outbox belongs to the one frame or rejection it names. */
  predicate EntryOwned(s: Server, c: nat, p: nat)
    requires |s.frames| == |s.phases| && c < |s.conns| && p < |s.conns[c].answers|
  {
    match s.conns[c].answers[p].origin
    case OfFrame(t) => t < |s.frames| && s.frames[t].conn == c && Answered(s.phases[t]) && s.phases[t].at == p
    case OfHeader(n) => n < |s.conns[c].rejections| && s.conns[c].rejections[n].at == p
  }

  predicate RejectionAnswered(conn: Conn, n: nat)
    requires n < |conn.rejections|
  {
    var r := conn.rejections[n];
    r.status != Ok && r.at < |conn.answers| && conn.answers[r.at] == Answer(Response(r.seqNum, r.status, false, false, None), OfHeader(n))
  }

  ghost predicate AnswersInv(s: Server)
    requires |s.frames| == |s.phases|
  {
    && (forall t :: 0 <= t < |s.frames| ==> FrameAnswer(s, t))
    && (forall c, p :: 0 <= c < |s.conns| && 0 <= p < |s.conns[c].answers| ==> EntryOwned(s, c, p))
    && (forall c, n :: 0 <= c < |s.conns| && 0 <= n < |s.conns[c].rejections| ==> RejectionAnswered(s.conns[c], n))
  }

  /** No response is made and no frame becomes or stops being answered. */
  predicate NoAnswer(s: Server, e: Server) {
    && |s.phases| == |s.frames| && |e.phases| == |e.frames| && s.frames <= e.frames && |s.conns| <= |e.conns|
    && (forall t :: 0 <= t < |s.phases| && Answered(s.phases[t]) ==>
          Answered(e.phases[t]) && e.phases[t].at == s.phases[t].at)
    && (forall t :: 0 <= t < |e.phases| && Answered(e.phases[t]) ==>
          t < |s.phases| && Answered(s.phases[t]))
    && (forall c :: 0 <= c < |s.conns| ==>
          e.conns[c].answers == s.conns[c].answers && e.conns[c].rejections == s.conns[c].rejections)
    && (forall c :: |s.conns| <= c < |e.conns| ==> e.conns[c].answers == [] && e.conns[c].rejections == [])
  }

  lemma QuietKeepsAnswers(s: Server, e: Server)
    requires |s.frames| == |s.phases| && AnswersInv(s) && NoAnswer(s, e)
    ensures AnswersInv(e)
  {
    forall t | 0 <= t < |e.frames| ensures FrameAnswer(e, t) {
      assert t < |s.frames| ==> FrameAnswer(s, t);
    }
    forall c, p | 0 <= c < |e.conns| && 0 <= p < |e.conns[c].answers| ensures EntryOwned(e, c, p) {
      assert EntryOwned(s, c, p);
    }
    forall c, n | 0 <= c < |e.conns| && 0 <= n < |e.conns[c].rejections| ensures RejectionAnswered(e.conns[c], n) {
      assert RejectionAnswered(s.conns[c], n);
    }
  }

  lemma RespondKeepsAnswers(s: Server)
    requires |s.frames| == |s.phases| && AnswersInv(s) && WorkerCan(s, Respond)
    requires !s.conns[s.frames[s.worker.ticket].conn].outboxClosed && !Answered(s.phases[s.worker.ticket])
    ensures AnswersInv(WorkerNext(s, Respond))
  {
    var e := WorkerNext(s, Respond);
    forall t | 0 <= t < |e.frames| ensures FrameAnswer(e, t) {
      assert FrameAnswer(s, t);
    }
    forall c, p | 0 <= c < |e.conns| && 0 <= p < |e.conns[c].answers| ensures EntryOwned(e, c, p) {
      assert p < |s.conns[c].answers| ==> EntryOwned(s, c, p);
    }
    forall c, n | 0 <= c < |e.conns| && 0 <= n < |e.conns[c].rejections| ensures RejectionAnswered(e.conns[c], n) {
      assert RejectionAnswered(s.conns[c], n);
    }
  }

  lemma RejectKeepsAnswers(s: Server, c: nat, step: ReaderStep)
    requires |s.frames| == |s.phases| && AnswersInv(s) && step.RejectHeader? && ReaderCan(s, c, step)
    requires !s.conns[c].outboxClosed
    ensures AnswersInv(ReaderNext(s, c, step))
  {
    var e := ReaderNext(s, c, step);
    forall t | 0 <= t < |e.frames| ensures FrameAnswer(e, t) {
      assert FrameAnswer(s, t);
    }
    forall d, p | 0 <= d < |e.conns| && 0 <= p < |e.conns[d].answers| ensures EntryOwned(e, d, p) {
      assert p < |s.conns[d].answers| ==> EntryOwned(s, d, p);
    }
    forall d, n | 0 <= d < |e.conns| && 0 <= n < |e.conns[d].rejections| ensures RejectionAnswered(e.conns[d], n) {
      assert n < |s.conns[d].rejections| ==> RejectionAnswered(s.conns[d], n);
    }
  }

  lemma WorkerNoAnswer(s: Server, step: WorkerStep)
    requires |s.frames| == |s.phases| && QueueInv(s.queue, s.phases)
    requires WorkerInv(s.worker, s.phases, s.issued, s.inFlight) && InFlightInv(s.inFlight, s.tickets, s.phases, s.worker)
    requires WorkerCan(s, step) && step != Respond
    ensures NoAnswer(s, WorkerNext(s, step))
  {
  }

  lemma WorkerKeepsAnswers(s: Server, step: WorkerStep)
    requires PlacesInv(s) && ConnsInv(s) && AnswersInv(s) && WorkerCan(s, step)
    ensures |WorkerNext(s, step).frames| == |WorkerNext(s, step).phases|
    ensures AnswersInv(WorkerNext(s, step))
  {
    if step == Respond {
      OutboxOpen(s, s.frames[s.worker.ticket].conn);
      RespondKeepsAnswers(s);
    } else {
      WorkerNoAnswer(s, step);
      QuietKeepsAnswers(s, WorkerNext(s, step));
    }
  }

  lemma ReaderNoAnswer(s: Server, c: nat, step: ReaderStep)
    requires |s.frames| == |s.phases| && PushInv(s.conns, s.frames, s.phases)
    requires ReaderCan(s, c, step) && !step.RejectHeader? && step != PushFails
    ensures NoAnswer(s, ReaderNext(s, c, step))
  {
  }

  lemma ReaderKeepsAnswers(s: Server, c: nat, step: ReaderStep)
    requires PlacesInv(s) && ConnsInv(s) && AnswersInv(s) && ReaderCan(s, c, step) && step != PushFails
    ensures |ReaderNext(s, c, step).frames| == |ReaderNext(s, c, step).phases|
    ensures AnswersInv(ReaderNext(s, c, step))
  {
    if step.RejectHeader? {
      OutboxOpen(s, c);
      RejectKeepsAnswers(s, c, step);
    } else {
      ReaderNoAnswer(s, c, step);
      QuietKeepsAnswers(s, ReaderNext(s, c, step));
    }
  }
}
