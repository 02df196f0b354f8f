/**
 stop() ends. From every reachable state, in the order stop() fixes, every reader can
 leave, every writer can drain its outbox and exit, the worker can leave its loop with
 nothing queued or in flight, and stop() can join them all. No client has to act.
 */
module Stopping {
  import opened Chains
  import opened Oracle
  import opened Systems
  import opened SystemRuns
  import opened Lowering
  import opened Draining
  import S = ServerModel
  import ServerPlaces
  import ServerSlots
  import ServerAnswers
  import ServerRuns

  /** Every frame that has not been answered runs in 32-bit arithmetic. */
  predicate UnansweredIndexable(s: S.Server) {
    forall t :: 0 <= t < |s.phases| && t < |s.frames| && !s.phases[t].Settled? ==> FrameIndexable(s.frames[t])
  }

  /** No frame is new, and none that was answered is so no more. */
  predicate KeepsAnswered(s: S.Server, e: S.Server) {
    && e.frames == s.frames && |e.phases| == |s.phases|
    && forall t :: 0 <= t < |s.phases| && s.phases[t].Settled? ==> e.phases[t].Settled?
  }

  /** A run, of any threads' steps, between two sound states. */
  ghost predicate Leads(nm: Numerics, sys: System, steps: seq<SystemStep>, e: System) {
    RunSystem(nm, sys, steps) == Some(e) && SystemInv(nm, e) && KeepsAnswered(sys.server, e.server)
  }

  lemma StaysIndexable(s: S.Server, e: S.Server)
    requires KeepsAnswered(s, e) && UnansweredIndexable(s)
    ensures UnansweredIndexable(e)
  {
  }

  lemma LeadOne(nm: Numerics, sys: System, step: S.Step)
    requires SystemInv(nm, sys) && S.Can(sys.server, step) && Alone(step)
    requires KeepsAnswered(sys.server, S.Next(sys.server, step))
    ensures Leads(nm, sys, [Serve(step)], System(S.Next(sys.server, step), sys.backend))
  {
    SystemStepKeepsInv(nm, sys, Serve(step));
    RunOne(nm, sys, Serve(step));
  }

  lemma LeadOn(nm: Numerics, sys: System, first: seq<SystemStep>, m: System, rest: seq<SystemStep>, e: System)
    requires Leads(nm, sys, first, m) && Leads(nm, m, rest, e)
    ensures Leads(nm, sys, first + rest, e)
  {
    RunAppends(nm, sys, first, m, rest);
  }

  // ------------------------------------------------ the worker leaves others alone

  /** Readers, writers and stop() are where they were. */
  predicate SameThreads(s: S.Server, e: S.Server) {
    && e.stage == s.stage && e.pool.closed == s.pool.closed && e.settings == s.settings && |e.conns| == |s.conns|
    && forall c :: 0 <= c < |s.conns| ==>
         e.conns[c].reader == s.conns[c].reader && e.conns[c].writerDone == s.conns[c].writerDone
  }

  lemma WorkerKeepsThreads(s: S.Server, step: S.WorkerStep)
    requires S.WorkerCan(s, step)
    ensures SameThreads(s, S.WorkerNext(s, step))
  {
  }

  lemma StepKeepsThreads(nm: Numerics, sys: System, step: SystemStep)
    requires CanDo(sys, step) && WorkerOrGpu(step)
    ensures SameThreads(sys.server, Do(nm, sys, step).server)
  {
    match step
    case Serve(step) => WorkerKeepsThreads(sys.server, step.worker);
    case SubmitFrame => WorkerKeepsThreads(sys.server, S.Submit);
    case ReturnFromSubmit => WorkerKeepsThreads(sys.server, S.SubmitReturns);
    case PollBackend =>
      WorkerKeepsThreads(sys.server, S.Polled(Dones(sys.backend.finished, sys.backend.polled, |sys.backend.finished|)));
    case _ =>
  }

  lemma {:induction false} DrivingKeepsThreads(nm: Numerics, sys: System, steps: seq<SystemStep>, e: System)
    requires Drives(nm, sys, steps, e)
    ensures SameThreads(sys.server, e.server)
    decreases |steps|
  {
    if steps != [] {
      var init, last := steps[..|steps| - 1], steps[|steps| - 1];
      assert steps == init + [last];
      RunLast(nm, sys, init, last);
      var m := RunSystem(nm, sys, init).value;
      DrivingKeepsThreads(nm, sys, init, m);
      StepKeepsThreads(nm, m, last);
    }
  }

  lemma DrainLeads(nm: Numerics, sys: System) returns (steps: seq<SystemStep>, e: System)
    requires SystemInv(nm, sys)
    requires UnansweredIndexable(sys.server)
    ensures Leads(nm, sys, steps, e) && Drained(e.server) && SameThreads(sys.server, e.server)
  {
    steps, e := SystemDrains(nm, sys);
    DrivingKeepsThreads(nm, sys, steps, e);
  }

  // --------------------------------------------------------------------- readers

  function ReaderRank(reader: S.ReaderPc): nat {
    match reader
    case AtPush(_) => 3
    case Leaving => 1
    case Gone => 0
    case _ => 2
  }

  function ReadersLeft(conns: seq<S.Conn>): nat {
    if conns == [] then 0 else ReadersLeft(conns[..|conns| - 1]) + ReaderRank(conns[|conns| - 1].reader)
  }

  lemma {:induction false} ReaderMovesOn(conns: seq<S.Conn>, c: nat, conn: S.Conn)
    requires c < |conns|
    ensures ReadersLeft(conns[c := conn]) + ReaderRank(conns[c].reader) == ReadersLeft(conns) + ReaderRank(conn.reader)
    decreases |conns|
  {
    var n := |conns| - 1;
    if c < n {
      assert conns[c := conn][..n] == conns[..n][c := conn];
      ReaderMovesOn(conns[..n], c, conn);
    } else {
      assert conns[c := conn][..n] == conns[..n];
    }
  }

  lemma {:induction false} SameReaders(a: seq<S.Conn>, b: seq<S.Conn>)
    requires |a| == |b| && forall c :: 0 <= c < |a| ==> a[c].reader == b[c].reader
    ensures ReadersLeft(a) == ReadersLeft(b)
    decreases |a|
  {
    if a != [] {
      SameReaders(a[..|a| - 1], b[..|b| - 1]);
    }
  }

  /** What a reader does next once its socket is shut and the pool is closed. */
  function LeavingStep(reader: S.ReaderPc): S.ReaderStep {
    match reader
    case AtHeader => S.StopReading
    case Claiming(_, _) => S.ClaimRefused
    case Filling(_, _, _, _) => S.AbortFill
    case AtPush(_) => S.Push
    case _ => S.Finish
  }

  lemma ReaderCanLeave(s: S.Server, c: nat)
    requires ServerSlots.Shape(s) && ServerSlots.SlotsInv(s) && ServerPlaces.PlacesInv(s) && ServerRuns.StopInv(s)
    requires c < |s.conns| && s.conns[c].reader != S.Gone && s.stage == S.PoolClosed
    requires s.conns[c].reader.AtPush? ==> s.queue == []
    ensures S.ReaderCan(s, c, LeavingStep(s.conns[c].reader))
  {
    if s.conns[c].reader.Filling? {
      ServerSlots.FilledByOne(s, c);
    }
  }

  lemma LeavingLess(s: S.Server, c: nat)
    requires c < |s.conns| && s.conns[c].reader != S.Gone && S.ReaderCan(s, c, LeavingStep(s.conns[c].reader))
    ensures var e := S.ReaderNext(s, c, LeavingStep(s.conns[c].reader));
            ReadersLeft(e.conns) < ReadersLeft(s.conns) && e.stage == s.stage
    ensures |s.frames| == |s.phases| && ServerPlaces.PushInv(s.conns, s.frames, s.phases) ==>
              KeepsAnswered(s, S.ReaderNext(s, c, LeavingStep(s.conns[c].reader)))
  {
    var e := S.ReaderNext(s, c, LeavingStep(s.conns[c].reader));
    assert e.conns == s.conns[c := e.conns[c]];
    ReaderMovesOn(s.conns, c, e.conns[c]);
  }

  predicate ReadersGone(s: S.Server) {
    forall c :: 0 <= c < |s.conns| ==> s.conns[c].reader == S.Gone
  }

  lemma SomeReader(s: S.Server) returns (c: nat)
    requires !ReadersGone(s)
    ensures c < |s.conns| && s.conns[c].reader != S.Gone
  {
    c :| 0 <= c < |s.conns| && s.conns[c].reader != S.Gone;
  }

  lemma DrainedQueue(s: S.Server)
    requires ServerPlaces.PlacesInv(s) && Drained(s)
    ensures s.queue == []
  {
    if s.queue != [] {
      ServerRuns.HeadIsQueued(s);
      assert false;
    }
  }

  /** One reader goes one step further towards its end, after the queue has been drained. */
  lemma OneReaderLeaves(nm: Numerics, sys: System, c: nat) returns (steps: seq<SystemStep>, e: System)
    requires SystemInv(nm, sys) && sys.server.stage == S.PoolClosed && Drained(sys.server)
    requires c < |sys.server.conns| && sys.server.conns[c].reader != S.Gone
    ensures Leads(nm, sys, steps, e) && e.server.stage == S.PoolClosed
    ensures ReadersLeft(e.server.conns) < ReadersLeft(sys.server.conns)
  {
    var s := sys.server;
    var step := LeavingStep(s.conns[c].reader);
    DrainedQueue(s);
    ReaderCanLeave(s, c);
    LeavingLess(s, c);
    LeadOne(nm, sys, S.ByReader(c, step));
    steps, e := [Serve(S.ByReader(c, step))], System(S.ReaderNext(s, c, step), sys.backend);
  }

  lemma ThreadsKeepReaders(s: S.Server, e: S.Server)
    requires SameThreads(s, e) && !ReadersGone(s)
    ensures ReadersLeft(e.conns) == ReadersLeft(s.conns) && !ReadersGone(e)
  {
    SameReaders(s.conns, e.conns);
    var c := SomeReader(s);
    assert e.conns[c].reader != S.Gone;
  }

  lemma ReaderGoesOn(nm: Numerics, sys: System) returns (steps: seq<SystemStep>, e: System)
    requires SystemInv(nm, sys) && sys.server.stage == S.PoolClosed && !ReadersGone(sys.server)
    requires UnansweredIndexable(sys.server)
    ensures Leads(nm, sys, steps, e) && e.server.stage == S.PoolClosed
    ensures ReadersLeft(e.server.conns) < ReadersLeft(sys.server.conns)
  {
    var first, m := DrainLeads(nm, sys);
    StaysIndexable(sys.server, m.server);
    ThreadsKeepReaders(sys.server, m.server);
    var c := SomeReader(m.server);
    var second;
    second, e := OneReaderLeaves(nm, m, c);
    steps := first + second;
    LeadOn(nm, sys, first, m, second, e);
  }

  lemma {:induction false} ReadersLeave(nm: Numerics, sys: System) returns (steps: seq<SystemStep>, e: System)
    requires SystemInv(nm, sys) && sys.server.stage == S.PoolClosed
    requires UnansweredIndexable(sys.server)
    ensures Leads(nm, sys, steps, e) && e.server.stage == S.PoolClosed && ReadersGone(e.server)
    decreases ReadersLeft(sys.server.conns)
  {
    if ReadersGone(sys.server) {
      steps, e := [], sys;
    } else {
      var first, m := ReaderGoesOn(nm, sys);
      StaysIndexable(sys.server, m.server);
      var rest;
      rest, e := ReadersLeave(nm, m);
      steps := first + rest;
      LeadOn(nm, sys, first, m, rest, e);
    }
  }

  // --------------------------------------------------------------------- writers

  function WriterRank(conn: S.Conn): nat {
    (if conn.written < |conn.answers| then |conn.answers| - conn.written else 0) + (if conn.writerDone then 0 else 1)
  }

  function WritersLeft(conns: seq<S.Conn>): nat {
    if conns == [] then 0 else WritersLeft(conns[..|conns| - 1]) + WriterRank(conns[|conns| - 1])
  }

  lemma {:induction false} WriterMovesOn(conns: seq<S.Conn>, c: nat, conn: S.Conn)
    requires c < |conns|
    ensures WritersLeft(conns[c := conn]) + WriterRank(conns[c]) == WritersLeft(conns) + WriterRank(conn)
    decreases |conns|
  {
    var n := |conns| - 1;
    if c < n {
      assert conns[c := conn][..n] == conns[..n][c := conn];
      WriterMovesOn(conns[..n], c, conn);
    } else {
      assert conns[c := conn][..n] == conns[..n];
    }
  }

  lemma SomeWriter(s: S.Server) returns (c: nat)
    requires ReadersGone(s) && !S.AllOver(s)
    ensures c < |s.conns| && !s.conns[c].writerDone
  {
    c :| 0 <= c < |s.conns| && !S.ConnOver(s.conns[c]);
  }

  /** With the reader gone and its frames settled, the outbox is closed: the writer can finish. */
  lemma WriterCanLeave(s: S.Server, c: nat) returns (step: S.WriterStep)
    requires ServerPlaces.PlacesInv(s) && ServerAnswers.ConnsInv(s) && Drained(s) && ReadersGone(s)
    requires c < |s.conns| && !s.conns[c].writerDone
    ensures S.WriterCan(s, c, step)
  {
    forall t | 0 <= t < |s.frames| ensures !ServerAnswers.Counted(s.frames[t], s.phases[t], c) {
      assert s.phases[t].Pushing? || s.phases[t].Settled?;
    }
    ServerAnswers.NoneUnsettled(s.frames, s.phases, c);
    assert ServerAnswers.ConnInv(s.conns[c], ServerAnswers.Unsettled(s.frames, s.phases, c));
    step := if s.conns[c].written < |s.conns[c].answers| then S.TakeResponse else S.WriterExits;
  }

  lemma WriterLess(s: S.Server, c: nat, step: S.WriterStep)
    requires S.WriterCan(s, c, step)
    ensures var e := S.WriterNext(s, c, step);
            && WritersLeft(e.conns) < WritersLeft(s.conns) && e.stage == s.stage && KeepsAnswered(s, e)
            && (Drained(s) ==> Drained(e)) && (ReadersGone(s) ==> ReadersGone(e))
  {
    WriterMovesOn(s.conns, c, S.WriterNext(s, c, step).conns[c]);
  }

  lemma {:induction false} WritersLeave(nm: Numerics, sys: System) returns (steps: seq<SystemStep>, e: System)
    requires SystemInv(nm, sys) && sys.server.stage == S.PoolClosed && ReadersGone(sys.server) && Drained(sys.server)
    ensures Leads(nm, sys, steps, e) && e.server.stage == S.PoolClosed && S.AllOver(e.server)
    decreases WritersLeft(sys.server.conns)
  {
    if S.AllOver(sys.server) {
      steps, e := [], sys;
    } else {
      var c := SomeWriter(sys.server);
      var step := WriterCanLeave(sys.server, c);
      WriterLess(sys.server, c, step);
      LeadOne(nm, sys, S.ByWriter(c, step));
      var m := System(S.WriterNext(sys.server, c, step), sys.backend);
      var rest;
      rest, e := WritersLeave(nm, m);
      steps := [Serve(S.ByWriter(c, step))] + rest;
      LeadOn(nm, sys, [Serve(S.ByWriter(c, step))], m, rest, e);
    }
  }

  // ------------------------------------------------------------------- stop() itself

  function StageRank(stage: S.StopStage): nat {
    match stage
    case Serving => 6
    case AcceptorJoined => 5
    case SocketsShut => 4
    case PoolClosed => 3
    case ConnectionsJoined => 2
    case QueueClosed => 1
    case WorkerJoined => 0
  }

  /** With everything answered the worker is at the top of its loop, or about to be. */
  lemma WorkerAtRest(s: S.Server)
    requires ServerRuns.Inv(s) && ServerRuns.Joined(s.stage)
    ensures s.worker == S.AtTop || s.worker == S.Exited || s.worker == S.Retiring([])
    ensures s.queue == [] && s.inFlight == map[]
  {
    ServerRuns.JoinedMeansDone(s);
    if s.worker.Retiring? && s.worker.batch != [] {
      ServerSlots.BatchHeadHolds(s);
      assert false;
    }
  }

  /** The step stop() takes next when it does not have to wait. */
  function StopStepAt(stage: S.StopStage): S.StopStep {
    match stage
    case Serving => S.JoinAcceptor
    case AcceptorJoined => S.ShutSockets
    case SocketsShut => S.ClosePool
    case PoolClosed => S.JoinConnections
    case ConnectionsJoined => S.CloseQueue
    case _ => S.JoinWorker
  }

  lemma StageGoesDown(s: S.Server)
    requires s.stage != S.WorkerJoined && S.StopCan(s, StopStepAt(s.stage))
    ensures StageRank(S.StopNext(s, StopStepAt(s.stage)).stage) < StageRank(s.stage)
    ensures KeepsAnswered(s, S.StopNext(s, StopStepAt(s.stage)))
  {
  }

  lemma StopMovesOn(nm: Numerics, sys: System) returns (steps: seq<SystemStep>, e: System)
    requires SystemInv(nm, sys) && sys.server.stage != S.WorkerJoined
    requires S.StopCan(sys.server, StopStepAt(sys.server.stage))
    ensures Leads(nm, sys, steps, e) && StageRank(e.server.stage) < StageRank(sys.server.stage)
  {
    var step := StopStepAt(sys.server.stage);
    StageGoesDown(sys.server);
    LeadOne(nm, sys, S.ByStop(step));
    steps, e := [Serve(S.ByStop(step))], System(S.StopNext(sys.server, step), sys.backend);
  }

  /** All connection threads end, so that stop() can join them. */
  lemma ConnectionsEnd(nm: Numerics, sys: System) returns (steps: seq<SystemStep>, e: System)
    requires SystemInv(nm, sys) && sys.server.stage == S.PoolClosed
    requires UnansweredIndexable(sys.server)
    ensures Leads(nm, sys, steps, e) && e.server.stage == S.PoolClosed && S.AllOver(e.server)
  {
    var first, m := ReadersLeave(nm, sys);
    StaysIndexable(sys.server, m.server);
    var second, n := DrainLeads(nm, m);
    LeadOn(nm, sys, first, m, second, n);
    var rest;
    rest, e := WritersLeave(nm, n);
    steps := first + second + rest;
    LeadOn(nm, sys, first + second, n, rest, e);
  }

  /** The worker leaves its loop once the queue is closed. */
  lemma WorkerEnds(nm: Numerics, sys: System) returns (steps: seq<SystemStep>, e: System)
    requires SystemInv(nm, sys) && sys.server.stage == S.QueueClosed
    ensures Leads(nm, sys, steps, e) && e.server.stage == S.QueueClosed && e.server.worker == S.Exited
  {
    WorkerAtRest(sys.server);
    if sys.server.worker == S.Exited {
      steps, e := [], sys;
    } else if sys.server.worker == S.AtTop {
      steps, e := LoopEnds(nm, sys);
    } else {
      LeadOne(nm, sys, S.ByWorker(S.BatchDone));
      var m := System(S.WorkerNext(sys.server, S.BatchDone), sys.backend);
      var rest;
      rest, e := LoopEnds(nm, m);
      steps := [Serve(S.ByWorker(S.BatchDone))] + rest;
      LeadOn(nm, sys, [Serve(S.ByWorker(S.BatchDone))], m, rest, e);
    }
  }

  lemma LoopEnds(nm: Numerics, sys: System) returns (steps: seq<SystemStep>, e: System)
    requires SystemInv(nm, sys) && sys.server.stage == S.QueueClosed && sys.server.worker == S.AtTop
    ensures Leads(nm, sys, steps, e) && e.server.stage == S.QueueClosed && e.server.worker == S.Exited
  {
    WorkerAtRest(sys.server);
    LeadOne(nm, sys, S.ByWorker(S.LeaveLoop));
    steps, e := [Serve(S.ByWorker(S.LeaveLoop))], System(S.WorkerNext(sys.server, S.LeaveLoop), sys.backend);
  }

  /** Before its next step stop() may have to wait, and what it waits for can happen. */
  lemma StopCanGoOn(nm: Numerics, sys: System) returns (steps: seq<SystemStep>, e: System)
    requires SystemInv(nm, sys) && sys.server.stage != S.WorkerJoined
    requires UnansweredIndexable(sys.server)
    ensures Leads(nm, sys, steps, e) && e.server.stage == sys.server.stage
    ensures S.StopCan(e.server, StopStepAt(e.server.stage))
  {
    if sys.server.stage == S.PoolClosed {
      steps, e := ConnectionsEnd(nm, sys);
    } else if sys.server.stage == S.QueueClosed {
      steps, e := WorkerEnds(nm, sys);
    } else {
      steps, e := [], sys;
    }
  }

  /** From every reachable state stop() can run to its end, with every thread joined. */
  lemma {:induction false} StopEnds(nm: Numerics, sys: System) returns (steps: seq<SystemStep>, e: System)
    requires SystemInv(nm, sys)
    requires UnansweredIndexable(sys.server)
    ensures Leads(nm, sys, steps, e) && e.server.stage == S.WorkerJoined
    decreases StageRank(sys.server.stage)
  {
    if sys.server.stage == S.WorkerJoined {
      steps, e := [], sys;
    } else {
      var first, m := StopCanGoOn(nm, sys);
      var second, n := StopMovesOn(nm, m);
      LeadOn(nm, sys, first, m, second, n);
      StaysIndexable(sys.server, n.server);
      var rest;
      rest, e := StopEnds(nm, n);
      steps := first + second + rest;
      LeadOn(nm, sys, first + second, n, rest, e);
    }
  }
}
