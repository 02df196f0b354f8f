/**
 The worker and the GPU, left to themselves, free every slot that is queued or in flight:
 while a frame waits, one of them has a step that is not an idle turn, and every such step
 leaves less to do. No reader, no writer and no socket is needed for it.
 */
module Draining {
  import opened Chains
  import opened Oracle
  import opened Launches
  import opened Protocol
  import opened KernelCaches
  import opened Backends
  import opened BackendContent
  import opened BackendProgress
  import opened Systems
  import opened SystemRuns
  import opened Lowering
  import S = ServerModel
  import ServerPlaces
  import ServerSlots
  import ServerRuns

  /** The frame has been handed over by its reader, and not been answered. */
  predicate Waits(phase: S.Phase) {
    !phase.Pushing? && !phase.Settled?
  }

  /** Every frame a reader has handed over has freed its slot and been answered. */
  predicate Drained(s: S.Server) {
    forall t :: 0 <= t < |s.phases| ==> !Waits(s.phases[t])
  }

  /** Every frame that waits runs in 32-bit arithmetic. */
  predicate WaitingIndexable(s: S.Server) {
    forall t :: 0 <= t < |s.phases| && t < |s.frames| && Waits(s.phases[t]) ==> FrameIndexable(s.frames[t])
  }

  /** A step of the worker or the GPU that can be taken now and is no idle turn. */
  ghost predicate Useful(sys: System, step: SystemStep) {
    WorkerOrGpu(step) && CanDo(sys, step) && !Idles(sys, step)
  }

  // ------------------------------------------------------------- the worker alone

  ghost predicate WorkerCanGoOn(s: S.Server, step: S.WorkerStep) {
    S.WorkerCan(s, step) && Alone(S.ByWorker(step))
  }

  lemma SomethingAwaited(s: S.Server)
    requires ServerPlaces.PlacesInv(s) && !Drained(s) && s.queue == [] && (s.worker == S.AtTop || s.worker == S.Exited)
    ensures s.inFlight != map[]
  {
    var t :| 0 <= t < |s.phases| && Waits(s.phases[t]);
    assert ServerPlaces.InHand(s.worker, t, s.phases[t]);
    assert s.phases[t].Submitted?;
    assert s.phases[t].h in s.inFlight;
  }

  lemma TopGoesOn(s: S.Server) returns (step: S.WorkerStep)
    requires ServerPlaces.PlacesInv(s) && s.worker == S.AtTop && !Drained(s)
    ensures WorkerCanGoOn(s, step)
  {
    if s.queue != [] {
      step := S.Pop;
    } else {
      SomethingAwaited(s);
      step := S.PopNothing;
    }
  }

  lemma RetiringGoesOn(s: S.Server) returns (step: S.WorkerStep)
    requires ServerSlots.Shape(s) && ServerPlaces.PlacesInv(s) && ServerSlots.SlotsInv(s) && s.worker.Retiring?
    ensures WorkerCanGoOn(s, step)
  {
    if s.worker.batch == [] {
      step := S.BatchDone;
    } else {
      ServerSlots.RetiredHoldsSlot(s);
      step := S.ReleaseSlot;
    }
  }

  lemma AnsweringGoesOn(s: S.Server) returns (step: S.WorkerStep)
    requires ServerSlots.Shape(s) && ServerPlaces.WorkerInv(s.worker, s.phases, s.issued, s.inFlight)
    requires s.worker.Responding? || s.worker.Settling?
    ensures WorkerCanGoOn(s, step)
  {
    assert ServerSlots.FrameOk(s, s.frames[s.worker.ticket]);
    step := if s.worker.Responding? then S.Respond else S.Settle;
  }

  /** Whatever the worker does without the backend, it can do it. */
  lemma AloneGoesOn(s: S.Server) returns (step: S.WorkerStep)
    requires ServerRuns.Inv(s) && !Drained(s)
    requires !s.worker.Holding? && !s.worker.Launching? && !s.worker.ToPoll?
    ensures WorkerCanGoOn(s, step)
  {
    if s.worker.AtTop? {
      step := TopGoesOn(s);
    } else if s.worker.Retiring? {
      step := RetiringGoesOn(s);
    } else if s.worker.Exited? {
      SomethingAwaited(s);
      step := S.Pop;
      assert false;
    } else {
      step := AnsweringGoesOn(s);
    }
  }

  // ------------------------------------------------------------ calls into the backend

  lemma HoldingGoesOn(s: S.Server, b: Backend)
    requires ServerSlots.Shape(s) && ServerPlaces.PlacesInv(s) && Linked(s, b) && s.worker.Holding?
    ensures Useful(System(s, b), SubmitFrame)
  {
    assert ServerSlots.FrameOk(s, s.frames[s.worker.ticket]);
  }

  lemma CallIsUseful(s: S.Server, b: Backend, call: BackendStep)
    requires (s.worker.Launching? || s.worker.ToPoll?) && InsideCall(call) && Sees(call, s.host) && Enabled(b, call) && !call.Fault?
    ensures Useful(System(s, b), Within(call))
  {
  }

  lemma ExecuteIsUseful(s: S.Server, b: Backend, i: nat, sched: Schedule)
    requires Enabled(b, Execute(i, s.host, sched))
    ensures Useful(System(s, b), Gpu(i, sched))
  {
  }

  /** After a driver error: the launch fails, then every busy stream, then the rebuild. */
  lemma PoisonedGoesOn(sys: System) returns (step: SystemStep)
    requires HandlesInv(sys.backend) && sys.backend.poisoned
    requires sys.server.worker.Launching? || sys.server.worker.ToPoll?
    ensures Useful(sys, step)
  {
    var b := sys.backend;
    if b.launching.Some? {
      step := Within(FailLaunch);
    } else if i :| 0 <= i < |b.streams| && b.streams[i].running.Some? {
      step := Within(FailStream(i));
    } else {
      step := Within(Rebuild(false, []));
    }
  }

  /** A frame on the GPU is one that has not been answered. */
  lemma RunningIsWaiting(nm: Numerics, s: S.Server, b: Backend, i: nat)
    requires ServerSlots.Shape(s) && Linked(s, b) && HandlesInv(b) && ContentInv(nm, b) && WaitingIndexable(s) && Busy(b, i)
    ensures RunsIndexable(b, i)
  {
    var h := b.streams[i].running.value.handle;
    assert StreamInv(nm, b.config, b.poisoned, b.asks, b.streams[i]);
    assert AskOk(s, b, h) && HandleOk(s, b, h);
    var f := s.frames[s.tickets[h]];
    assert ServerSlots.FrameOk(s, f);
    ServedFrameIsExact(f.header, s.settings.limits);
  }

  /** A busy stream: its next operation executes, or it is retired. */
  lemma BusyGoesOn(nm: Numerics, s: S.Server, b: Backend, i: nat) returns (step: SystemStep)
    requires BackendSound(nm, b, s.host) && !b.poisoned && Busy(b, i) && RunsIndexable(b, i)
    requires s.worker.Launching? || s.worker.ToPoll?
    ensures (step.Gpu? && step.i == i) || step == Within(RetireStream(i))
    ensures Useful(System(s, b), step)
  {
    if b.streams[i].pending != [] {
      var sched := CanExecute(nm, b, i, s.host);
      step := Gpu(i, sched);
      ExecuteIsUseful(s, b, i, sched);
    } else {
      CanRetire(nm, b, i);
      step := Within(RetireStream(i));
      CallIsUseful(s, b, RetireStream(i));
    }
  }

  // ------------------------------------------------------------------- a launch

  predicate AllBusy(b: Backend) {
    forall i :: 0 <= i < |b.streams| ==> b.streams[i].running.Some?
  }

  /** The frame being launched has its input and fits its buffers. */
  ghost predicate LaunchFed(b: Backend, host: Host) {
    && UnderLaunch(b)
    && (GoodJob(LaunchJob(b)) ==>
          LaunchJob(b).slot.value < |host| && |host[LaunchJob(b).slot.value]| == b.config.slotBytes
          && JobBytes(LaunchJob(b)) <= b.config.slotBytes)
  }

  lemma LaunchedFits(s: S.Server, b: Backend)
    requires ServerSlots.Shape(s) && Linked(s, b) && HandlesInv(b) && HostKept(b, s.host) && b.launching.Some?
    ensures LaunchFed(b, s.host)
  {
    var h := b.launching.value;
    assert AskOk(s, b, h);
    var f := s.frames[s.tickets[h]];
    assert ServerSlots.FrameOk(s, f);
    if GoodJob(JobOf(f)) {
      FrameIsAsked(f, s.settings.limits, b.asks[h - 1].payload);
    }
  }

  /**
   A launch under way on a healthy backend. It fails only for a cause: no context, a malformed
   job, kernels that could not be had, or no stream at all. Otherwise an empty chain finishes,
   kernels are asked for once, an idle stream takes the frame, and when every stream is busy
   the first of them goes on.
   */
  lemma LaunchGoesOn(nm: Numerics, s: S.Server, b: Backend) returns (step: SystemStep)
    requires BackendSound(nm, b, s.host) && !b.poisoned && s.worker.Launching? && LaunchFed(b, s.host)
    requires forall i: nat :: Busy(b, i) ==> RunsIndexable(b, i)
    ensures Useful(System(s, b), step)
    ensures step == Within(FailLaunch) ==>
              !b.alive || !GoodJob(LaunchJob(b)) || b.streams == [] || (b.lookup.Some? && !b.lookup.value.Found?)
  {
    var job := LaunchJob(b);
    if !b.alive || !GoodJob(job) {
      step := Within(FailLaunch);
    } else if job.chain == [] {
      step := Within(FinishInline(s.host));
    } else if b.lookup.None? {
      step := Within(FetchKernels(BuildOk));
    } else if HasFailed(b) {
      step := Within(FailLaunch);
    } else if AllBusy(b) {
      step := BusyGoesOn(nm, s, b, 0);
    } else {
      var i := SomeIdle(b);
      CanOccupy(nm, b, i);
      step := Within(Occupy(i, GivenWork(b)));
    }
  }

  lemma SomeIdle(b: Backend) returns (i: nat)
    requires !AllBusy(b)
    ensures i < |b.streams| && b.streams[i].running.None?
  {
    i :| 0 <= i < |b.streams| && b.streams[i].running.None?;
  }

  lemma ReturnGoesOn(s: S.Server, b: Backend)
    requires s.worker.Launching? && b.launching.None? && !b.poisoned
    ensures Useful(System(s, b), ReturnFromSubmit)
  {
  }

  // --------------------------------------------------------------------- a poll

  /** The worker is about to poll for handles it awaits. */
  ghost predicate Polls(s: S.Server) {
    && s.worker == S.ToPoll && s.inFlight != map[] && ServerPlaces.HandleInv(s.tickets, s.issued, s.phases)
    && ServerPlaces.InFlightInv(s.inFlight, s.tickets, s.phases, s.worker)
  }

  lemma WaitingIsPolling(s: S.Server)
    requires ServerPlaces.PlacesInv(s) && s.worker == S.ToPoll
    ensures Polls(s)
  {
  }

  lemma IdleFate(b: Backend, h: nat)
    requires HandlesInv(b) && NoneBusy(b) && b.launching.None? && 1 <= h <= |b.fates|
    ensures b.fates[h - 1].Finished? && b.fates[h - 1].k < |b.finished| && b.finished[b.fates[h - 1].k].handle == h
  {
    assert FateHolds(b, h - 1);
  }

  /** With nothing on the GPU, what the worker awaits has been completed and not polled. */
  lemma UnpolledExists(s: S.Server, b: Backend)
    requires Polls(s) && Linked(s, b) && HandlesInv(b) && NoneBusy(b)
    ensures b.polled < |b.finished|
  {
    var h :| h in s.inFlight;
    assert s.phases[s.tickets[h]] == S.Submitted(h);
    IdleFate(b, h);
    assert FinishedOk(s, b, b.fates[h - 1].k);
  }

  lemma CanPoll(s: S.Server, b: Backend)
    requires ServerPlaces.HandleInv(s.tickets, s.issued, s.phases) && Linked(s, b) && s.worker == S.ToPoll
    requires ServerPlaces.InFlightInv(s.inFlight, s.tickets, s.phases, s.worker) && FinishedOnce(b) && !b.poisoned
    ensures CanDo(System(s, b), PollBackend)
  {
    PollMeetsContract(s, b);
  }

  /** With nothing on the GPU there is something to poll. */
  lemma QuietGoesOn(s: S.Server, b: Backend)
    requires Polls(s) && Linked(s, b) && HandlesInv(b) && NoneBusy(b) && !b.poisoned
    ensures Useful(System(s, b), PollBackend)
  {
    UnpolledExists(s, b);
    CanPoll(s, b);
  }

  lemma SomeBusy(b: Backend) returns (i: nat)
    requires !NoneBusy(b)
    ensures Busy(b, i)
  {
    i :| 0 <= i < |b.streams| && b.streams[i].running.Some?;
  }

  lemma PollGoesOn(nm: Numerics, s: S.Server, b: Backend) returns (step: SystemStep)
    requires Polls(s) && Linked(s, b) && BackendSound(nm, b, s.host) && !b.poisoned
    requires forall i: nat :: Busy(b, i) ==> RunsIndexable(b, i)
    ensures Useful(System(s, b), step)
  {
    if NoneBusy(b) {
      step := PollBackend;
      QuietGoesOn(s, b);
    } else {
      var i := SomeBusy(b);
      step := BusyGoesOn(nm, s, b, i);
    }
  }

  // ------------------------------------------------------------- until nothing waits

  /** Inside a call into the backend some step that is not idle is enabled. */
  lemma CallGoesOn(nm: Numerics, s: S.Server, b: Backend) returns (step: SystemStep)
    requires SystemInv(nm, System(s, b)) && WaitingIndexable(s) && (s.worker.Launching? || s.worker.ToPoll?)
    ensures Useful(System(s, b), step)
  {
    forall i: nat | Busy(b, i) ensures RunsIndexable(b, i) {
      RunningIsWaiting(nm, s, b, i);
    }
    if b.poisoned {
      step := PoisonedGoesOn(System(s, b));
    } else if b.launching.Some? {
      LaunchedFits(s, b);
      step := LaunchGoesOn(nm, s, b);
    } else if s.worker.Launching? {
      ReturnGoesOn(s, b);
      step := ReturnFromSubmit;
    } else {
      WaitingIsPolling(s);
      step := PollGoesOn(nm, s, b);
    }
  }

  /** While any frame handed over is unanswered, the worker or the GPU has a step that is not idle. */
  lemma NeverStuck(nm: Numerics, sys: System) returns (step: SystemStep)
    requires SystemInv(nm, sys) && WaitingIndexable(sys.server) && !Drained(sys.server)
    ensures Useful(sys, step)
  {
    var s, b := sys.server, sys.backend;
    if s.worker.Launching? || s.worker.ToPoll? {
      step := CallGoesOn(nm, s, b);
    } else if s.worker.Holding? {
      HoldingGoesOn(s, b);
      step := SubmitFrame;
    } else {
      var alone := AloneGoesOn(s);
      step := Serve(S.ByWorker(alone));
    }
  }

  /** The same frames; the answered ones stay answered, and those with their readers stay there. */
  predicate SameFrames(s: S.Server, e: S.Server) {
    && e.frames == s.frames && |e.phases| == |s.phases|
    && forall t :: 0 <= t < |s.phases| ==>
         e.phases[t].Pushing? == s.phases[t].Pushing? && (s.phases[t].Settled? ==> e.phases[t].Settled?)
  }

  lemma WorkerBringsNothing(s: S.Server, step: S.WorkerStep)
    requires ServerPlaces.PlacesInv(s) && S.WorkerCan(s, step)
    ensures SameFrames(s, S.WorkerNext(s, step))
  {
    assert step == S.Pop ==> s.phases[s.queue[0]].Queued?;
    assert step == S.ReleaseSlot ==> s.inFlight[s.worker.batch[0].handle] < |s.phases|;
  }

  lemma StepBringsNothing(nm: Numerics, sys: System, step: SystemStep)
    requires ServerPlaces.PlacesInv(sys.server) && CanDo(sys, step) && WorkerOrGpu(step)
    ensures SameFrames(sys.server, Do(nm, sys, step).server)
  {
    match step
    case Serve(step) => WorkerBringsNothing(sys.server, step.worker);
    case SubmitFrame => WorkerBringsNothing(sys.server, S.Submit);
    case ReturnFromSubmit => WorkerBringsNothing(sys.server, S.SubmitReturns);
    case PollBackend =>
      WorkerBringsNothing(sys.server, S.Polled(Dones(sys.backend.finished, sys.backend.polled, |sys.backend.finished|)));
    case _ =>
  }

  /** A run of worker and GPU steps from one state to another. */
  ghost predicate Drives(nm: Numerics, sys: System, steps: seq<SystemStep>, e: System) {
    RunSystem(nm, sys, steps) == Some(e) && forall k :: 0 <= k < |steps| ==> WorkerOrGpu(steps[k])
  }

  lemma RunOne(nm: Numerics, sys: System, step: SystemStep)
    requires CanDo(sys, step)
    ensures RunSystem(nm, sys, [step]) == Some(Do(nm, sys, step))
  {
    assert [step][..0] == [];
    assert RunSystem(nm, sys, [step][..0]) == Some(sys);
  }

  lemma RunLast(nm: Numerics, sys: System, steps: seq<SystemStep>, step: SystemStep)
    ensures RunSystem(nm, sys, steps + [step]) == StepOn(nm, RunSystem(nm, sys, steps), step)
  {
    assert (steps + [step])[..|steps|] == steps;
  }

  lemma {:induction false} RunAppends(nm: Numerics, sys: System, first: seq<SystemStep>, m: System, rest: seq<SystemStep>)
    requires RunSystem(nm, sys, first) == Some(m)
    ensures RunSystem(nm, sys, first + rest) == RunSystem(nm, m, rest)
    decreases |rest|
  {
    if rest == [] {
      assert first + rest == first;
    } else {
      var init, last := rest[..|rest| - 1], rest[|rest| - 1];
      assert rest == init + [last] && first + rest == (first + init) + [last];
      RunAppends(nm, sys, first, m, init);
      RunLast(nm, sys, first + init, last);
      RunLast(nm, m, init, last);
    }
  }

  lemma DriveOn(nm: Numerics, sys: System, step: SystemStep, rest: seq<SystemStep>, e: System)
    requires WorkerOrGpu(step) && CanDo(sys, step) && Drives(nm, Do(nm, sys, step), rest, e)
    ensures Drives(nm, sys, [step] + rest, e)
  {
    RunOne(nm, sys, step);
    RunAppends(nm, sys, [step], Do(nm, sys, step), rest);
  }

  lemma SameFramesIndexable(s: S.Server, e: S.Server)
    requires SameFrames(s, e) && WaitingIndexable(s)
    ensures WaitingIndexable(e)
  {
  }

  /** While a frame waits, one step of the worker or the GPU leaves less to do. */
  lemma SystemDrives(nm: Numerics, sys: System) returns (step: SystemStep, e: System)
    requires SystemInv(nm, sys) && WaitingIndexable(sys.server) && !Drained(sys.server)
    ensures WorkerOrGpu(step) && CanDo(sys, step) && e == Do(nm, sys, step) && Lower(e, sys)
    ensures SystemInv(nm, e) && SameFrames(sys.server, e.server) && WaitingIndexable(e.server)
  {
    step := NeverStuck(nm, sys);
    e := Do(nm, sys, step);
    StepLowers(nm, sys, step);
    SystemStepKeepsInv(nm, sys, step);
    StepBringsNothing(nm, sys, step);
    SameFramesIndexable(sys.server, e.server);
  }

  /**
   From every reachable state the worker and the GPU alone can free every slot that is
   queued or in flight, and answer its frame: a reader waiting for a slot never waits for
   its own response to be written.
   */
  lemma {:induction false} SystemDrains(nm: Numerics, sys: System) returns (steps: seq<SystemStep>, e: System)
    requires SystemInv(nm, sys) && WaitingIndexable(sys.server)
    ensures Drives(nm, sys, steps, e) && SystemInv(nm, e) && Drained(e.server) && SameFrames(sys.server, e.server)
    decreases LeftOf(sys).unlaunched, LeftOf(sys).load, LeftOf(sys).broken, LeftOf(sys).unpolled, LeftOf(sys).awaited,
              Rank(sys.server.worker)
  {
    if Drained(sys.server) {
      steps, e := [], sys;
    } else {
      var step, m := SystemDrives(nm, sys);
      var rest;
      rest, e := SystemDrains(nm, m);
      steps := [step] + rest;
      DriveOn(nm, sys, step, rest, e);
    }
  }
}
