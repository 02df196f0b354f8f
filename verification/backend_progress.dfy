/**
 What the backend can always do next: execute a busy stream's next operation, retire a
 stream that has executed everything, and launch a good frame on an idle stream.
 */
module BackendProgress {
  import opened Oracle
  import opened Launches
  import opened Schedules
  import opened Device
  import opened Backends
  import opened BackendContent

  /** The frame on stream i runs in 32-bit arithmetic. */
  ghost predicate RunsIndexable(b: Backend, i: nat)
    requires Busy(b, i)
  {
    var h := b.streams[i].running.value.handle;
    1 <= h <= |b.asks| && GoodJob(b.asks[h - 1].job) && Indexable(b.asks[h - 1].job)
  }

  lemma NextFits(nm: Numerics, b: Backend, i: nat, host: Host)
    requires ContentInv(nm, b) && HostKept(b, host) && Busy(b, i) && b.streams[i].pending != [] && RunsIndexable(b, i)
    ensures InBounds(b.streams[i].pending[0], host, b.streams[i].buffers)
  {
    var s := b.streams[i];
    assert StreamInv(nm, b.config, b.poisoned, b.asks, s) && InputKept(b.asks, s, host);
    NextInBounds(nm, b.config, b.asks[s.running.value.handle - 1], s, s.running.value.work, host);
  }

  /** A busy stream with work left can execute: in bounds, and some schedule exists. */
  lemma CanExecute(nm: Numerics, b: Backend, i: nat, host: Host) returns (sched: Schedule)
    requires ContentInv(nm, b) && HostKept(b, host) && Busy(b, i) && b.streams[i].pending != [] && RunsIndexable(b, i)
    ensures Enabled(b, Execute(i, host, sched))
  {
    NextFits(nm, b, i, host);
    sched := ScheduleFor(b.streams[i].pending[0], host, b.streams[i].buffers);
  }

  lemma ScheduleFor(op: DeviceOp, host: Host, buffers: Buffers) returns (sched: Schedule)
    requires InBounds(op, host, buffers)
    ensures Scheduled(op, sched)
  {
    if op.RunKernel? {
      sched := ScheduleExists(op.kernel, op.width, op.height);
    } else {
      sched := Schedule([], map[], map[]);
    }
  }

  /** A busy stream that has executed everything can be retired. */
  lemma CanRetire(nm: Numerics, b: Backend, i: nat)
    requires ContentInv(nm, b) && HandlesInv(b) && !b.poisoned && Busy(b, i) && b.streams[i].pending == []
    ensures Enabled(b, RetireStream(i))
  {
    assert StreamInv(nm, b.config, b.poisoned, b.asks, b.streams[i]);
  }

  /** The work a launch queues, once it has its kernels. */
  function GivenWork(b: Backend): Work
    requires UnderLaunch(b) && GoodJob(LaunchJob(b)) && b.lookup.Some? && b.lookup.value.Found?
  {
    var job := LaunchJob(b);
    Work(LaunchKey(b), b.lookup.value.kernels, job.slot.value, job.width, job.height)
  }

  /** An idle stream takes the frame once its kernels are there. */
  lemma CanOccupy(nm: Numerics, b: Backend, i: nat)
    requires ContentInv(nm, b) && UnderLaunch(b) && !b.poisoned && GoodJob(LaunchJob(b)) && LaunchJob(b).chain != []
    requires b.lookup.Some? && b.lookup.value.Found? && JobBytes(LaunchJob(b)) <= b.config.slotBytes
    requires i < |b.streams| && b.streams[i].running.None?
    ensures Enabled(b, Occupy(i, GivenWork(b)))
  {
    assert AskInv(b.config, AskedHandle(b, b.launching.value));
    GivenIsGood(nm, b, GivenWork(b));
    GoodWorkHasArguments(nm, GivenWork(b));
  }

  // ------------------------------------------------------------ how much is left

  /** Operations left to execute and frames left to retire, over all streams. */
  function Pending(streams: seq<Stream>): nat {
    if streams == [] then 0
    else
      var s := streams[|streams| - 1];
      Pending(streams[..|streams| - 1]) + |s.pending| + (if s.running.Some? then 1 else 0)
  }

  lemma {:induction false} PendingAfter(streams: seq<Stream>, i: nat, s: Stream)
    requires i < |streams|
    ensures Pending(streams[i := s]) + |streams[i].pending| + (if streams[i].running.Some? then 1 else 0)
            == Pending(streams) + |s.pending| + (if s.running.Some? then 1 else 0)
    decreases |streams|
  {
    var n := |streams| - 1;
    if i < n {
      assert streams[i := s][..n] == streams[..n][i := s];
      PendingAfter(streams[..n], i, s);
    } else {
      assert streams[i := s][..n] == streams[..n];
    }
  }

  lemma {:induction false} IdlePending(streams: seq<Stream>)
    requires forall i :: 0 <= i < |streams| ==> streams[i].running.None? && streams[i].pending == []
    ensures Pending(streams) == 0
    decreases |streams|
  {
    if streams != [] {
      IdlePending(streams[..|streams| - 1]);
    }
  }
}
