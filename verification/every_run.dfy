/**
 Not only some run drains. A run of worker and GPU steps cannot go on for ever without
 polling in vain or a driver fault. And in every endless run of all threads, once no more
 frames are handed over and without faults, every frame is answered: it is enough that the
 worker and the GPU go on while a frame waits, and that a poll in vain is followed, sooner
 or later, by a step on the GPU or inside a call that could have been taken.
 */
module EveryRun {
  import opened Oracle
  import opened Systems
  import opened SystemRuns
  import opened Lowering
  import opened Draining
  import S = ServerModel
  import ServerRuns

  /** Step i of an endless run. */
  ghost predicate Continues(nm: Numerics, run: nat -> System, steps: nat -> SystemStep, i: nat) {
    CanDo(run(i), steps(i)) && run(i + 1) == Do(nm, run(i), steps(i))
  }

  ghost predicate Endless(nm: Numerics, run: nat -> System, steps: nat -> SystemStep, n: nat) {
    forall i: nat {:trigger Continues(nm, run, steps, i)} :: i >= n ==> Continues(nm, run, steps, i)
  }

  // ------------------------------------------------------- measures along a run

  predicate NotMore(a: Left, b: Left) {
    a == b || Less(a, b)
  }

  /** A turn of others changes nothing; any other that is not idle leaves less, or the same with a lower rank. */
  predicate TurnLowers(left: nat -> Left, rank: nat -> nat, other: nat -> bool, idle: nat -> bool, i: nat) {
    if other(i) then left(i + 1) == left(i) && rank(i + 1) == rank(i)
    else idle(i) || Less(left(i + 1), left(i)) || (left(i + 1) == left(i) && rank(i + 1) < rank(i))
  }

  ghost predicate Lowers(left: nat -> Left, rank: nat -> nat, other: nat -> bool, idle: nat -> bool, n: nat) {
    forall i: nat {:trigger TurnLowers(left, rank, other, idle, i)} :: i >= n ==> TurnLowers(left, rank, other, idle, i)
  }

  ghost predicate IdleKeeps(left: nat -> Left, idle: nat -> bool, n: nat) {
    forall i: nat :: i >= n && idle(i) ==> left(i + 1) == left(i)
  }

  /** Until the goal is met there are always more turns that are not of others. */
  ghost predicate GoesOn(other: nat -> bool, met: nat -> bool, n: nat) {
    forall i: nat :: i >= n && !met(i) ==> exists j: nat :: j >= i && !other(j)
  }

  lemma AllGoOn(other: nat -> bool, met: nat -> bool, n: nat)
    requires forall i: nat :: i >= n ==> !other(i)
    ensures GoesOn(other, met, n)
  {
    forall i: nat | i >= n && !met(i) ensures exists j: nat :: j >= i && !other(j) {
      assert !other(i);
    }
  }

  /** The first turn not of others, from n on, finds everything as at n. */
  lemma {:induction false} NextOwn(left: nat -> Left, rank: nat -> nat, other: nat -> bool, idle: nat -> bool, n: nat, j: nat)
    returns (k: nat)
    requires Lowers(left, rank, other, idle, n) && j >= n && !other(j)
    ensures k >= n && !other(k) && left(k) == left(n) && rank(k) == rank(n)
    decreases j - n
  {
    if !other(n) {
      k := n;
    } else {
      assert TurnLowers(left, rank, other, idle, n);
      k := NextOwn(left, rank, other, idle, n + 1, j);
    }
  }

  lemma {:induction false} IdlesAgain(left: nat -> Left, rank: nat -> nat, other: nat -> bool, idle: nat -> bool, met: nat -> bool,
                                      n: nat) returns (k: nat)
    requires Lowers(left, rank, other, idle, n) && GoesOn(other, met, n)
    ensures k >= n && (met(k) || (!other(k) && idle(k)))
    decreases left(n).unlaunched, left(n).load, left(n).broken, left(n).unpolled, left(n).awaited, rank(n)
  {
    if met(n) {
      k := n;
    } else {
      var j: nat :| j >= n && !other(j);
      k := NextOwn(left, rank, other, idle, n, j);
      assert TurnLowers(left, rank, other, idle, k);
      if !idle(k) {
        k := IdlesAgain(left, rank, other, idle, met, k + 1);
      }
    }
  }

  lemma {:induction false} LeftStaysBelow(left: nat -> Left, rank: nat -> nat, other: nat -> bool, idle: nat -> bool, n: nat, j: nat)
    requires Lowers(left, rank, other, idle, n) && IdleKeeps(left, idle, n) && n <= j
    ensures NotMore(left(j), left(n))
    decreases j - n
  {
    if n < j {
      LeftStaysBelow(left, rank, other, idle, n, j - 1);
      assert TurnLowers(left, rank, other, idle, j - 1);
    }
  }

  /** Work leaves less, and there is some to do whenever a turn is idle and the goal is not met. */
  ghost predicate WorkHelps(left: nat -> Left, other: nat -> bool, idle: nat -> bool, has: nat -> bool, work: nat -> bool,
                            met: nat -> bool, n: nat) {
    && (forall i: nat :: i >= n && work(i) ==> Less(left(i + 1), left(i)))
    && (forall i: nat :: i >= n && !other(i) && idle(i) && !met(i) ==> has(i))
  }

  /** An idle turn while there is work to do is followed by work. */
  ghost predicate Fair(idle: nat -> bool, has: nat -> bool, work: nat -> bool, n: nat) {
    forall i: nat :: i >= n && idle(i) && has(i) ==> exists j: nat :: j >= i && work(j)
  }

  lemma {:induction false} GoalIsMet(left: nat -> Left, rank: nat -> nat, other: nat -> bool, idle: nat -> bool, has: nat -> bool,
                                     work: nat -> bool, met: nat -> bool, n: nat) returns (k: nat)
    requires Lowers(left, rank, other, idle, n) && IdleKeeps(left, idle, n) && GoesOn(other, met, n)
    requires WorkHelps(left, other, idle, has, work, met, n) && Fair(idle, has, work, n)
    ensures k >= n && met(k)
    decreases left(n).unlaunched, left(n).load, left(n).broken, left(n).unpolled, left(n).awaited
  {
    k := IdlesAgain(left, rank, other, idle, met, n);
    if !met(k) {
      var j: nat :| j >= k && work(j);
      LeftStaysBelow(left, rank, other, idle, n, j);
      k := GoalIsMet(left, rank, other, idle, has, work, met, j + 1);
    }
  }

  lemma {:induction false} Always(ok: nat -> bool, n: nat, j: nat)
    requires ok(n) && n <= j && forall i: nat :: i >= n && ok(i) ==> ok(i + 1)
    ensures ok(j)
    decreases j - n
  {
    if n < j {
      Always(ok, n, j - 1);
    }
  }

  // ------------------------------------------------- steps of the other threads

  /** A reader hands a frame over to the worker. */
  predicate HandsOver(step: SystemStep) {
    step.Serve? && step.step.ByReader? && step.step.reader.Push?
  }

  ghost predicate NoneHandedOver(steps: nat -> SystemStep, n: nat) {
    forall i: nat :: i >= n ==> !HandsOver(steps(i))
  }

  ghost predicate Faultless(steps: nat -> SystemStep, n: nat) {
    forall i: nat :: i >= n ==> !Faults(steps(i))
  }

  /** What waits now waited before, and the worker has not moved. */
  predicate NothingNew(s: S.Server, e: S.Server) {
    && s.frames <= e.frames && |s.frames| == |s.phases| && |e.frames| == |e.phases|
    && (forall t :: 0 <= t < |e.phases| && Waits(e.phases[t]) ==> t < |s.phases| && Waits(s.phases[t]))
    && e.queue == s.queue && e.inFlight == s.inFlight && e.worker == s.worker
  }

  lemma ReaderBringsNothing(s: S.Server, c: nat, step: S.ReaderStep)
    requires |s.frames| == |s.phases| && S.ReaderCan(s, c, step) && !step.Push? && !step.PushFails?
    ensures NothingNew(s, S.ReaderNext(s, c, step))
  {
  }

  lemma StopBringsNothing(s: S.Server, step: S.StopStep)
    requires |s.frames| == |s.phases| && S.StopCan(s, step)
    ensures NothingNew(s, S.StopNext(s, step))
  {
  }

  lemma OtherBringsNothing(s: S.Server, step: S.Step)
    requires |s.frames| == |s.phases| && ServerRuns.StopInv(s)
    requires S.Can(s, step) && !step.ByWorker? && !HandsOver(Serve(step))
    ensures NothingNew(s, S.Next(s, step))
  {
    if step.ByReader? {
      ServerRuns.PushNeverFails(s, step.c);
      ReaderBringsNothing(s, step.c, step.reader);
    } else if step.ByStop? {
      StopBringsNothing(s, step.stop);
    }
  }

  lemma NothingNewIndexable(s: S.Server, e: S.Server)
    requires NothingNew(s, e) && WaitingIndexable(s)
    ensures WaitingIndexable(e)
  {
  }

  // ------------------------------------------------------------ the system's measures

  function LeftAt(sys: System): Left {
    if sys.backend.polled <= |sys.backend.finished| then LeftOf(sys) else Left(0, 0, 0, 0, 0)
  }

  lemma StepStaysIndexable(nm: Numerics, sys: System, step: SystemStep)
    requires SystemInv(nm, sys) && WaitingIndexable(sys.server) && CanDo(sys, step) && !HandsOver(step)
    ensures WaitingIndexable(Do(nm, sys, step).server)
  {
    if WorkerOrGpu(step) {
      StepBringsNothing(nm, sys, step);
      SameFramesIndexable(sys.server, Do(nm, sys, step).server);
    } else {
      OtherBringsNothing(sys.server, step.step);
      NothingNewIndexable(sys.server, Do(nm, sys, step).server);
    }
  }

  ghost function InvAlong(nm: Numerics, run: nat -> System): nat -> bool {
    (i: nat) => SystemInv(nm, run(i))
  }

  function IndexableAlong(run: nat -> System): nat -> bool {
    (i: nat) => WaitingIndexable(run(i).server)
  }

  lemma TurnKeepsInv(nm: Numerics, run: nat -> System, steps: nat -> SystemStep, i: nat)
    requires Continues(nm, run, steps, i) && SystemInv(nm, run(i))
    ensures SystemInv(nm, run(i + 1))
  {
    SystemStepKeepsInv(nm, run(i), steps(i));
  }

  lemma RunKeepsInv(nm: Numerics, run: nat -> System, steps: nat -> SystemStep, n: nat, j: nat)
    requires Endless(nm, run, steps, n) && InvAlong(nm, run)(n) && n <= j
    ensures InvAlong(nm, run)(j)
  {
    forall i: nat | i >= n && InvAlong(nm, run)(i) ensures InvAlong(nm, run)(i + 1) {
      assert Continues(nm, run, steps, i);
      TurnKeepsInv(nm, run, steps, i);
    }
    Always(InvAlong(nm, run), n, j);
  }

  lemma TurnStaysIndexable(nm: Numerics, run: nat -> System, steps: nat -> SystemStep, i: nat)
    requires Continues(nm, run, steps, i) && !HandsOver(steps(i)) && SystemInv(nm, run(i)) && IndexableAlong(run)(i)
    ensures IndexableAlong(run)(i + 1)
  {
    StepStaysIndexable(nm, run(i), steps(i));
  }

  lemma RunStaysIndexable(nm: Numerics, run: nat -> System, steps: nat -> SystemStep, n: nat, j: nat)
    requires Endless(nm, run, steps, n) && NoneHandedOver(steps, n) && n <= j
    requires InvAlong(nm, run)(n) && IndexableAlong(run)(n)
    ensures IndexableAlong(run)(j)
  {
    forall i: nat | i >= n && IndexableAlong(run)(i) ensures IndexableAlong(run)(i + 1) {
      RunKeepsInv(nm, run, steps, n, i);
      assert Continues(nm, run, steps, i);
      TurnStaysIndexable(nm, run, steps, i);
    }
    Always(IndexableAlong(run), n, j);
  }

  lemma OtherKeepsLeft(nm: Numerics, sys: System, step: SystemStep)
    requires |sys.server.frames| == |sys.server.phases| && ServerRuns.StopInv(sys.server)
    requires CanDo(sys, step) && !WorkerOrGpu(step) && !HandsOver(step)
    ensures var e := Do(nm, sys, step); LeftAt(e) == LeftAt(sys) && Rank(e.server.worker) == Rank(sys.server.worker)
  {
    OtherBringsNothing(sys.server, step.step);
    assert Do(nm, sys, step) == System(S.Next(sys.server, step.step), sys.backend);
  }

  lemma StepMeasured(nm: Numerics, sys: System, step: SystemStep)
    requires SystemInv(nm, sys) && CanDo(sys, step) && WorkerOrGpu(step) && !Idles(sys, step)
    ensures var e := Do(nm, sys, step);
            Less(LeftAt(e), LeftAt(sys)) || (LeftAt(e) == LeftAt(sys) && Rank(e.server.worker) < Rank(sys.server.worker))
  {
    PolledAreFinished(sys.server, sys.backend);
    StepLowers(nm, sys, step);
  }

  lemma VainPollMeasured(nm: Numerics, sys: System, step: SystemStep)
    requires SystemInv(nm, sys) && CanDo(sys, step) && PollsInVain(sys, step)
    ensures LeftAt(Do(nm, sys, step)) == LeftAt(sys)
  {
    PolledAreFinished(sys.server, sys.backend);
    VainPollKeeps(nm, sys, step);
  }

  lemma WorkMeasured(nm: Numerics, sys: System, step: SystemStep)
    requires SystemInv(nm, sys) && CanDo(sys, step) && BackendWork(step) && !Faults(step)
    ensures Less(LeftAt(Do(nm, sys, step)), LeftAt(sys))
  {
    PolledAreFinished(sys.server, sys.backend);
    BackendLowers(nm, sys, step);
  }

  /** Something can be done on the GPU or inside the call under way. */
  ghost predicate HasWork(sys: System) {
    exists step :: BackendWork(step) && Useful(sys, step)
  }

  lemma PollingIsWork(sys: System, step: SystemStep)
    requires sys.server.worker.ToPoll? && Useful(sys, step) && sys.backend.polled == |sys.backend.finished|
    ensures BackendWork(step) && HasWork(sys)
  {
  }

  lemma VainPollIsPoll(sys: System, step: SystemStep)
    requires CanDo(sys, step) && PollsInVain(sys, step)
    ensures sys.server.worker.ToPoll? && sys.backend.polled == |sys.backend.finished|
  {
  }

  /** While the worker polls in vain and a frame waits, the backend has work. */
  lemma VainPollHasWork(nm: Numerics, sys: System)
    requires SystemInv(nm, sys) && WaitingIndexable(sys.server) && !Drained(sys.server)
    requires sys.server.worker.ToPoll? && sys.backend.polled == |sys.backend.finished|
    ensures HasWork(sys)
  {
    var next := NeverStuck(nm, sys);
    PollingIsWork(sys, next);
  }

  // A run's own measures, turn by turn.
  function LeftAlong(run: nat -> System): nat -> Left {
    (i: nat) => LeftAt(run(i))
  }

  function RankAlong(run: nat -> System): nat -> nat {
    (i: nat) => Rank(run(i).server.worker)
  }

  function IdleAlong(run: nat -> System, steps: nat -> SystemStep): nat -> bool {
    (i: nat) => Idles(run(i), steps(i))
  }

  function OthersAlong(steps: nat -> SystemStep): nat -> bool {
    (i: nat) => !WorkerOrGpu(steps(i))
  }

  function WorkAlong(steps: nat -> SystemStep): nat -> bool {
    (i: nat) => BackendWork(steps(i))
  }

  function DrainedAlong(run: nat -> System): nat -> bool {
    (i: nat) => Drained(run(i).server)
  }

  ghost function HasWorkAlong(run: nat -> System): nat -> bool {
    (i: nat) => HasWork(run(i))
  }

  lemma TurnMeasured(nm: Numerics, run: nat -> System, steps: nat -> SystemStep, i: nat)
    requires Continues(nm, run, steps, i) && SystemInv(nm, run(i)) && !HandsOver(steps(i))
    ensures TurnLowers(LeftAlong(run), RankAlong(run), OthersAlong(steps), IdleAlong(run, steps), i)
  {
    if !WorkerOrGpu(steps(i)) {
      OtherKeepsLeft(nm, run(i), steps(i));
    } else if !Idles(run(i), steps(i)) {
      StepMeasured(nm, run(i), steps(i));
    }
  }

  lemma IdleTurnKeeps(nm: Numerics, run: nat -> System, steps: nat -> SystemStep, i: nat)
    requires Continues(nm, run, steps, i) && SystemInv(nm, run(i)) && !Faults(steps(i)) && IdleAlong(run, steps)(i)
    ensures LeftAlong(run)(i + 1) == LeftAlong(run)(i)
  {
    VainPollMeasured(nm, run(i), steps(i));
  }

  lemma TurnWorks(nm: Numerics, run: nat -> System, steps: nat -> SystemStep, i: nat)
    requires Continues(nm, run, steps, i) && SystemInv(nm, run(i)) && !Faults(steps(i)) && BackendWork(steps(i))
    ensures Less(LeftAlong(run)(i + 1), LeftAlong(run)(i))
  {
    WorkMeasured(nm, run(i), steps(i));
  }

  lemma VainTurnHasWork(nm: Numerics, run: nat -> System, steps: nat -> SystemStep, i: nat)
    requires Continues(nm, run, steps, i) && SystemInv(nm, run(i)) && IndexableAlong(run)(i)
    requires !Faults(steps(i)) && IdleAlong(run, steps)(i) && !DrainedAlong(run)(i)
    ensures HasWorkAlong(run)(i)
  {
    VainPollIsPoll(run(i), steps(i));
    VainPollHasWork(nm, run(i));
  }

  lemma RunLowers(nm: Numerics, run: nat -> System, steps: nat -> SystemStep, n: nat)
    requires Endless(nm, run, steps, n) && NoneHandedOver(steps, n) && InvAlong(nm, run)(n)
    ensures Lowers(LeftAlong(run), RankAlong(run), OthersAlong(steps), IdleAlong(run, steps), n)
  {
    forall i: nat | i >= n ensures TurnLowers(LeftAlong(run), RankAlong(run), OthersAlong(steps), IdleAlong(run, steps), i) {
      RunKeepsInv(nm, run, steps, n, i);
      assert Continues(nm, run, steps, i);
      TurnMeasured(nm, run, steps, i);
    }
  }

  lemma IdleTurnsKeep(nm: Numerics, run: nat -> System, steps: nat -> SystemStep, n: nat)
    requires Endless(nm, run, steps, n) && Faultless(steps, n) && InvAlong(nm, run)(n)
    ensures IdleKeeps(LeftAlong(run), IdleAlong(run, steps), n)
  {
    forall i: nat | i >= n && IdleAlong(run, steps)(i) ensures LeftAlong(run)(i + 1) == LeftAlong(run)(i) {
      RunKeepsInv(nm, run, steps, n, i);
      assert Continues(nm, run, steps, i);
      IdleTurnKeeps(nm, run, steps, i);
    }
  }

  lemma RunWorks(nm: Numerics, run: nat -> System, steps: nat -> SystemStep, n: nat)
    requires Endless(nm, run, steps, n) && NoneHandedOver(steps, n) && Faultless(steps, n)
    requires InvAlong(nm, run)(n) && IndexableAlong(run)(n)
    ensures WorkHelps(LeftAlong(run), OthersAlong(steps), IdleAlong(run, steps), HasWorkAlong(run), WorkAlong(steps),
              DrainedAlong(run), n)
  {
    forall i: nat | i >= n && WorkAlong(steps)(i) ensures Less(LeftAlong(run)(i + 1), LeftAlong(run)(i)) {
      RunKeepsInv(nm, run, steps, n, i);
      assert Continues(nm, run, steps, i);
      TurnWorks(nm, run, steps, i);
    }
    forall i: nat | i >= n && IdleAlong(run, steps)(i) && !DrainedAlong(run)(i) ensures HasWorkAlong(run)(i) {
      RunKeepsInv(nm, run, steps, n, i);
      RunStaysIndexable(nm, run, steps, n, i);
      assert Continues(nm, run, steps, i);
      VainTurnHasWork(nm, run, steps, i);
    }
  }

  // ---------------------------------------------------------------- all endless runs

  ghost predicate OnlyOwn(steps: nat -> SystemStep, n: nat) {
    forall i: nat :: i >= n ==> WorkerOrGpu(steps(i))
  }

  function Never(): nat -> bool {
    (i: nat) => false
  }

  lemma OwnGoesOn(steps: nat -> SystemStep, n: nat)
    requires OnlyOwn(steps, n)
    ensures NoneHandedOver(steps, n) && GoesOn(OthersAlong(steps), Never(), n)
  {
    AllGoOn(OthersAlong(steps), Never(), n);
  }

  /**
   An endless run of worker and GPU steps alone idles again and again: from every point on
   there is a poll that finds nothing or a fault. With finitely many of those a run ends.
   */
  lemma EndlessRunIdles(nm: Numerics, run: nat -> System, steps: nat -> SystemStep, n: nat) returns (k: nat)
    requires SystemInv(nm, run(n)) && Endless(nm, run, steps, n) && OnlyOwn(steps, n)
    ensures k >= n && Idles(run(k), steps(k))
  {
    OwnGoesOn(steps, n);
    RunLowers(nm, run, steps, n);
    k := IdlesAgain(LeftAlong(run), RankAlong(run), OthersAlong(steps), IdleAlong(run, steps), Never(), n);
  }

  /**
   Every endless run, of all threads, answers every frame handed over, once no more are handed
   over and without faults, if it is fair: the worker or the GPU goes on while a frame waits,
   and a poll in vain, while something can be done on the GPU or inside the call, is followed
   by such work.
   */
  lemma FairRunDrains(nm: Numerics, run: nat -> System, steps: nat -> SystemStep, n: nat) returns (k: nat)
    requires SystemInv(nm, run(n)) && WaitingIndexable(run(n).server)
    requires Endless(nm, run, steps, n) && NoneHandedOver(steps, n) && Faultless(steps, n)
    requires GoesOn(OthersAlong(steps), DrainedAlong(run), n)
    requires Fair(IdleAlong(run, steps), HasWorkAlong(run), WorkAlong(steps), n)
    ensures k >= n && Drained(run(k).server)
  {
    RunLowers(nm, run, steps, n);
    IdleTurnsKeep(nm, run, steps, n);
    RunWorks(nm, run, steps, n);
    k := GoalIsMet(LeftAlong(run), RankAlong(run), OthersAlong(steps), IdleAlong(run, steps), HasWorkAlong(run), WorkAlong(steps),
      DrainedAlong(run), n);
  }
}
