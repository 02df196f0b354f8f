/**
 How much the worker and the GPU have left to do. Every step of theirs leaves less, except
 a poll that finds nothing, which leaves as much, and a driver fault.
 */
module Lowering {
  import opened Chains
  import opened Oracle
  import opened Launches
  import opened Backends
  import opened BackendProgress
  import opened Systems
  import opened SystemRuns
  import S = ServerModel
  import ServerPlaces

  /** The worker's own steps, its calls into the backend, and the GPU's. */
  predicate WorkerOrGpu(step: SystemStep) {
    step.Serve? ==> step.step.ByWorker?
  }

  predicate PollsInVain(sys: System, step: SystemStep) {
    step == PollBackend && sys.backend.polled == |sys.backend.finished|
  }

  predicate Faults(step: SystemStep) {
    step.Within? && step.call.Fault?
  }

  /** A turn that may leave as much to do as before, or more. */
  predicate Idles(sys: System, step: SystemStep) {
    PollsInVain(sys, step) || Faults(step)
  }

  function Rank(worker: S.WorkerPc): nat {
    match worker
    case Launching(_, _) => 9
    case Responding(_, _, _) => 8
    case Settling(_, _) => 7
    case Retiring(_) => 6
    case AtTop => 3
    case ToPoll => 2
    case _ => 0
  }

  /** What is left to do, most significant first. */
  datatype Left = Left(unlaunched: nat, load: nat, broken: nat, unpolled: nat, awaited: nat)

  function Waiting(s: S.Server): nat {
    4 * |s.queue| + (if s.worker.Holding? then 3 else 0)
  }

  function Awaited(s: S.Server): nat {
    |s.inFlight| + (if s.worker.Launching? then 1 else 0)
  }

  /** A launch asks for its kernels, and then ends. */
  function ToLaunch(b: Backend): nat {
    if b.launching.None? then 0 else if b.lookup.None? then 2 else 1
  }

  function LeftOf(sys: System): Left
    requires sys.backend.polled <= |sys.backend.finished|
  {
    Left(Waiting(sys.server) + ToLaunch(sys.backend), Pending(sys.backend.streams), if sys.backend.poisoned then 1 else 0,
         |sys.backend.finished| - sys.backend.polled, Awaited(sys.server))
  }

  predicate Less(a: Left, b: Left) {
    || a.unlaunched < b.unlaunched
    || (a.unlaunched == b.unlaunched &&
        (|| a.load < b.load
         || (a.load == b.load &&
             (|| a.broken < b.broken
              || (a.broken == b.broken &&
                  (a.unpolled < b.unpolled || (a.unpolled == b.unpolled && a.awaited < b.awaited)))))))
  }

  predicate Lower(e: System, sys: System) {
    && sys.backend.polled <= |sys.backend.finished| && e.backend.polled <= |e.backend.finished|
    && (|| Less(LeftOf(e), LeftOf(sys))
        || (LeftOf(e) == LeftOf(sys) && Rank(e.server.worker) < Rank(sys.server.worker)))
  }

  /** A step of the worker or the GPU that leaves less to do, or brings the worker nearer to its next turn. */
  ghost predicate Advances(nm: Numerics, sys: System, step: SystemStep) {
    WorkerOrGpu(step) && CanDo(sys, step) && Lower(Do(nm, sys, step), sys)
  }

  // ------------------------------------------------------------- the worker alone

  /** The server's part of what is left goes down. */
  predicate ServerLess(e: S.Server, s: S.Server) {
    || Waiting(e) < Waiting(s)
    || (Waiting(e) == Waiting(s) &&
        (Awaited(e) < Awaited(s) || (Awaited(e) == Awaited(s) && Rank(e.worker) < Rank(s.worker))))
  }

  lemma ServerStepAdvances(nm: Numerics, sys: System, step: S.WorkerStep)
    requires S.WorkerCan(sys.server, step) && Alone(S.ByWorker(step)) && ServerLess(S.WorkerNext(sys.server, step), sys.server)
    requires sys.backend.polled <= |sys.backend.finished|
    ensures Advances(nm, sys, Serve(S.ByWorker(step)))
  {
    assert Do(nm, sys, Serve(S.ByWorker(step))) == System(S.WorkerNext(sys.server, step), sys.backend);
  }

  lemma OneLess(inFlight: map<nat, nat>, h: nat)
    requires h in inFlight
    ensures |inFlight - {h}| < |inFlight|
  {
    assert inFlight.Keys == (inFlight - {h}).Keys + {h};
  }

  lemma PopLowers(s: S.Server)
    requires S.WorkerCan(s, S.Pop)
    ensures ServerLess(S.WorkerNext(s, S.Pop), s)
  {
  }

  lemma ReleaseLowers(s: S.Server)
    requires S.WorkerCan(s, S.ReleaseSlot)
    ensures ServerLess(S.WorkerNext(s, S.ReleaseSlot), s)
  {
    OneLess(s.inFlight, s.worker.batch[0].handle);
  }

  lemma TurnLowers(s: S.Server, step: S.WorkerStep)
    requires S.WorkerCan(s, step) && Alone(S.ByWorker(step)) && step != S.Pop && step != S.ReleaseSlot && step != S.SkipUnknown
    ensures ServerLess(S.WorkerNext(s, step), s)
  {
  }

  /** Whatever the worker does without the backend leaves less to do. */
  lemma WorkerLowers(s: S.Server, step: S.WorkerStep)
    requires ServerPlaces.PlacesInv(s) && S.WorkerCan(s, step) && Alone(S.ByWorker(step))
    ensures ServerLess(S.WorkerNext(s, step), s)
  {
    ServerPlaces.NeverUnknown(s);
    if step == S.Pop {
      PopLowers(s);
    } else if step == S.ReleaseSlot {
      ReleaseLowers(s);
    } else {
      TurnLowers(s, step);
    }
  }

  // ------------------------------------------------------------ calls into the backend

  lemma PolledAreFinished(s: S.Server, b: Backend)
    requires Linked(s, b)
    ensures b.polled <= |b.finished|
  {
  }

  lemma SubmitAdvances(nm: Numerics, sys: System)
    requires CanDo(sys, SubmitFrame) && sys.backend.polled <= |sys.backend.finished|
    ensures Advances(nm, sys, SubmitFrame)
  {
  }

  lemma PollAdvances(nm: Numerics, sys: System)
    requires CanDo(sys, PollBackend) && sys.backend.polled < |sys.backend.finished|
    ensures Advances(nm, sys, PollBackend)
  {
    var e := Do(nm, sys, PollBackend);
    assert e.backend == sys.backend.(polled := |sys.backend.finished|);
    assert e.server.queue == sys.server.queue && e.server.inFlight == sys.server.inFlight;
  }

  lemma OneMore(inFlight: map<nat, nat>, h: nat, t: nat)
    requires h !in inFlight
    ensures |inFlight[h := t]| == |inFlight| + 1
  {
    assert inFlight[h := t].Keys == inFlight.Keys + {h};
  }

  lemma ReturnAdvances(nm: Numerics, sys: System)
    requires CanDo(sys, ReturnFromSubmit) && ServerPlaces.PlacesInv(sys.server) && sys.backend.polled <= |sys.backend.finished|
    ensures Advances(nm, sys, ReturnFromSubmit)
  {
    var s := sys.server;
    OneMore(s.inFlight, s.worker.h, s.worker.ticket);
    assert Do(nm, sys, ReturnFromSubmit) == System(S.WorkerNext(s, S.SubmitReturns), sys.backend);
  }

  lemma ServerLowers(nm: Numerics, sys: System, step: SystemStep)
    requires ServerPlaces.PlacesInv(sys.server) && sys.backend.polled <= |sys.backend.finished|
    requires CanDo(sys, step) && WorkerOrGpu(step) && !Idles(sys, step) && !step.Within? && !step.Gpu?
    ensures Advances(nm, sys, step)
  {
    match step
    case Serve(step) =>
      WorkerLowers(sys.server, step.worker);
      ServerStepAdvances(nm, sys, step.worker);
    case SubmitFrame => SubmitAdvances(nm, sys);
    case ReturnFromSubmit => ReturnAdvances(nm, sys);
    case PollBackend => PollAdvances(nm, sys);
  }

  // ------------------------------------------------------------- inside the backend

  /** The backend's part of what is left goes down, the rest staying put. */
  predicate BackendLess(e: Backend, b: Backend) {
    && e.polled == b.polled <= |b.finished| <= |e.finished|
    && (|| ToLaunch(e) < ToLaunch(b)
        || (ToLaunch(e) == ToLaunch(b) &&
            (|| Pending(e.streams) < Pending(b.streams)
             || (Pending(e.streams) <= Pending(b.streams) && b.poisoned && !e.poisoned))))
  }

  lemma ExecuteLess(nm: Numerics, b: Backend, i: nat, host: Host, sched: Schedule)
    requires Enabled(b, Execute(i, host, sched)) && b.polled <= |b.finished|
    ensures BackendLess(Apply(nm, b, Execute(i, host, sched)), b)
  {
    PendingAfter(b.streams, i, ExecuteHead(nm, b.streams[i], host, sched));
  }

  lemma FreedLess(nm: Numerics, b: Backend, step: BackendStep, i: nat)
    requires (step == RetireStream(i) || step == FailStream(i)) && Enabled(b, step) && b.polled <= |b.finished|
    ensures BackendLess(Apply(nm, b, step), b)
  {
    PendingAfter(b.streams, i, b.streams[i].(running := None));
  }

  lemma RebuildLess(nm: Numerics, b: Backend, step: BackendStep)
    requires step.Rebuild? && Enabled(b, step) && b.polled <= |b.finished|
    ensures BackendLess(Apply(nm, b, step), b)
  {
    IdlePending(IdleStreams(step.made));
  }

  lemma LaunchLess(nm: Numerics, b: Backend, step: BackendStep)
    requires step.FetchKernels? || step.FinishInline? || step.FailLaunch? || step.Occupy?
    requires Enabled(b, step) && b.polled <= |b.finished|
    ensures BackendLess(Apply(nm, b, step), b)
  {
  }

  lemma CallLess(nm: Numerics, b: Backend, step: BackendStep)
    requires b.polled <= |b.finished| && Enabled(b, step) && !step.Issue? && !step.Poll? && !step.Fault?
    ensures BackendLess(Apply(nm, b, step), b)
  {
    match step
    case Execute(i, host, sched) => ExecuteLess(nm, b, i, host, sched);
    case RetireStream(i) => FreedLess(nm, b, step, i);
    case FailStream(i) => FreedLess(nm, b, step, i);
    case Rebuild(_, _) => RebuildLess(nm, b, step);
    case _ => LaunchLess(nm, b, step);
  }

  /** A step inside a call, or one of the GPU. */
  predicate BackendWork(step: SystemStep) {
    step.Within? || step.Gpu?
  }

  /** Every step inside a call but a fault, and every step of the GPU, leaves less to do. */
  lemma BackendLowers(nm: Numerics, sys: System, step: SystemStep)
    requires sys.backend.polled <= |sys.backend.finished| && CanDo(sys, step) && BackendWork(step) && !Faults(step)
    ensures Advances(nm, sys, step) && Less(LeftOf(Do(nm, sys, step)), LeftOf(sys))
  {
    var call := if step.Within? then step.call else Execute(step.i, sys.server.host, step.sched);
    CallLess(nm, sys.backend, call);
    assert Do(nm, sys, step) == System(sys.server, Apply(nm, sys.backend, call));
  }

  /** Every step of the worker or the GPU that is not an idle turn leaves less to do. */
  lemma StepLowers(nm: Numerics, sys: System, step: SystemStep)
    requires SystemInv(nm, sys) && CanDo(sys, step) && WorkerOrGpu(step) && !Idles(sys, step)
    ensures Advances(nm, sys, step)
  {
    PolledAreFinished(sys.server, sys.backend);
    if BackendWork(step) {
      BackendLowers(nm, sys, step);
    } else {
      ServerLowers(nm, sys, step);
    }
  }

  /** A poll that finds nothing changes nothing but where the worker is. */
  lemma VainPollKeeps(nm: Numerics, sys: System, step: SystemStep)
    requires CanDo(sys, step) && PollsInVain(sys, step)
    ensures Do(nm, sys, step) == System(sys.server.(worker := S.Retiring([])), sys.backend)
    ensures LeftOf(Do(nm, sys, step)) == LeftOf(sys)
  {
    assert Dones(sys.backend.finished, sys.backend.polled, |sys.backend.finished|) == [];
  }
}
