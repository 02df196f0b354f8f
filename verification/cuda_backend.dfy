/**
 The CUDA backend's methods (src/backend/cuda/cuda_backend.cpp). Every change they make
 is one of the steps of backend.dfy, recorded in `log`, so what is proved of all runs of
 those steps holds of every sequence of calls.

 The driver and the GPU are a script of events: operations the GPU executes on its own,
 and the reply to the next driver call. An exhausted script means a dead driver.
 */
module CudaBackends {
  import opened Arith
  import opened Samples
  import opened Chains
  import opened Images
  import opened Arguments
  import opened Oracle
  import opened Kernels
  import opened Launches
  import opened Schedules
  import opened KernelKeys
  import opened KernelCaches
  import opened Programs
  import opened Device
  import opened Backends
  import opened BackendShapes
  import opened BackendContent
  import opened BackendHistory

  datatype DriverEvent = Runs(i: nat, sched: Schedule) | Replies(healthy: bool, build: BuildReply)

  datatype LaunchOutcome = Launched | Malformed | CompilerFailed | DriverFailed

  function BlankBuffers(bytes: nat): (b: Buffers)
    ensures Sized(b, bytes)
  {
    var blank: seq<Byte> := seq(bytes, _ => 0);
    Buffers(blank, blank, blank)
  }

  /** Only the GPU moved: same frames on the same streams, with less left to execute. */
  predicate OnlyDevice(b: Backend, e: Backend) {
    && e == b.(streams := e.streams) && |e.streams| == |b.streams|
    && forall i :: 0 <= i < |b.streams| ==>
         e.streams[i].running == b.streams[i].running && |e.streams[i].pending| <= |b.streams[i].pending|
  }

  /** Schedules the GPU can take for an operation. */
  predicate Admits(op: DeviceOp, sched: Schedule) {
    op.RunKernel? ==>
      op.kernel.blockDim > 0 && Times(op.kernel.blockDim, op.kernel.blockDim) > 0
      && Checked(op.kernel, op.width, op.height, sched)
  }

  /** InBounds by finite checks: sizes, and a launch whose positions and coordinates are 32-bit. */
  predicate Touchable(op: DeviceOp, host: Host, b: Buffers) {
    match op
    case CopyIn(slot, bytes) => slot < |host| && bytes <= |host[slot]| && bytes <= |b.front|
    case RunKernel(k, _, width, height, _) =>
      && 0 < k.blockDim <= MAX_TILE_SIZE && GoodDimensions(width, height, k.channels)
      && ByteCount(width, height, k.channels) <= |b.front| && ByteCount(width, height, k.channels) <= |b.back|
      && ByteCount(width, height, k.channels) <= INT32_LIMIT
      && Padded(width, k.blockDim) <= INT32_LIMIT && Padded(height, k.blockDim) <= INT32_LIMIT
    case CopyOut(bytes, fromFront) => bytes <= |Source(b, fromFront)| && bytes <= |b.staging|
    case RecordDone => true
  }

  /** For blocks code generation makes, the checks are exactly what keeps an operation in bounds. */
  lemma TouchableIsInBounds(op: DeviceOp, host: Host, b: Buffers)
    requires op.RunKernel? ==> op.kernel.blockDim <= MAX_TILE_SIZE
    ensures Touchable(op, host, b) <==> InBounds(op, host, b)
  {
    if op.RunKernel? && op.kernel.blockDim > 0 && GoodDimensions(op.width, op.height, op.kernel.channels) {
      StaysInsideIff(op.kernel, op.width, op.height);
    }
  }

  lemma AdmitsScheduled(op: DeviceOp, sched: Schedule)
    requires Admits(op, sched)
    ensures Scheduled(op, sched)
  {
    if op.RunKernel? {
      CheckedIsValid(op.kernel, op.width, op.height, sched);
    }
  }

  function CurrentBuffers(streams: seq<Stream>): (r: seq<Buffers>)
    ensures |r| == |streams| && forall i :: 0 <= i < |streams| ==> r[i] == streams[i].buffers
  {
    seq(|streams|, i requires 0 <= i < |streams| => streams[i].buffers)
  }

  lemma FaultUnseen(nm: Numerics, b: Backend, scratch: seq<Buffers>)
    requires ShapeInv(nm, b) && scratch == CurrentBuffers(b.streams)
    ensures Enabled(b, Fault(scratch)) && Apply(nm, b, Fault(scratch)) == b.(poisoned := true)
  {
    forall i | 0 <= i < |scratch| ensures Sized(scratch[i], b.config.slotBytes) {
      assert StreamShape(b.config, b.streams[i]);
    }
    assert Scrambled(b.streams, scratch) == b.streams;
  }

  /** The rows of the staging buffer, copied out packed. */
  method StagedOutput(work: Work, staging: seq<Byte>) returns (img: Image)
    requires ArgumentsExist(work) && WorkBytes(work) <= |staging|
    requires GoodDimensions(work.width, work.height, work.key.channels)
    ensures img == StagedImage(work, staging)
  {
    RowsAreByteCount(work.width, work.height, work.key.channels);
    PackedRowsArePrefix(staging, work.height, Times(work.width, work.key.channels));
    var r := FromBytes(work.width, work.height, work.key.channels, staging, Times(work.width, work.key.channels));
    img := r.image;
  }

  method InlineOutput(job: FrameJob, input: seq<Byte>) returns (img: Image)
    requires GoodJob(job) && JobBytes(job) <= |input|
    ensures img == InputImage(job, input)
  {
    RowsAreByteCount(job.width, job.height, job.channels);
    PackedRowsArePrefix(input, job.height, Times(job.width, job.channels));
    var r := FromBytes(job.width, job.height, job.channels, input, job.stride);
    img := r.image;
  }

  /** Nothing was launched, lost or taken off the completion list; streams went on or were freed. */
  predicate Settles(b: Backend, e: Backend) {
    && e == b.(streams := e.streams, finished := e.finished, fates := e.fates)
    && |e.streams| == |b.streams| && b.finished <= e.finished
    && (forall i :: 0 <= i < |b.streams| ==>
          |e.streams[i].pending| <= |b.streams[i].pending|
          && (e.streams[i].running == b.streams[i].running || e.streams[i].running.None?))
  }

  /** Of the first n streams, every one that had nothing left to execute is free. */
  predicate Swept(b: Backend, e: Backend, n: nat) {
    && |e.streams| == |b.streams|
    && forall i :: 0 <= i < n && i < |b.streams| && b.streams[i].pending == [] ==> e.streams[i].running.None?
  }

  lemma SettlesOn(b: Backend, m: Backend, e: Backend)
    requires Settles(b, m) && Settles(m, e)
    ensures Settles(b, e)
  {
  }

  lemma SweepOn(b: Backend, m: Backend, e: Backend, n: nat)
    requires Settles(b, m) && Settles(m, e) && Swept(b, m, n)
    requires n < |m.streams| && (m.streams[n].pending == [] ==> e.streams[n].running.None?)
    ensures Swept(b, e, n + 1)
  {
  }

  /** After a recovery no stream is busy, nothing is being launched, and no completion was lost. */
  predicate Recovered(b: Backend, e: Backend) {
    && !e.poisoned && NoneBusy(e) && e.launching.None? && (!e.alive ==> e.streams == [])
    && b.finished <= e.finished && e.polled == b.polled && e.asks == b.asks && e.nextHandle == b.nextHandle
    && e.config == b.config
  }

  /** The handle being launched asks for this work, with the kernels it was given. */
  ghost predicate Launchable(b: Backend, handle: nat, work: Work) {
    && b.launching == Some(handle) && UnderLaunch(b) && !b.poisoned && WorkOf(b, LaunchJob(b), work)
  }

  /** A launch either put its frame where it completes from, or left it to be failed for a reason. */
  predicate LaunchEnds(b: Backend, e: Backend, outcome: LaunchOutcome) {
    && e.config == b.config && e.asks == b.asks && e.nextHandle == b.nextHandle && e.polled == b.polled
    && !e.poisoned && b.finished <= e.finished
    && e.launching == (if outcome == Launched then None else b.launching)
    && (outcome == Malformed || outcome == CompilerFailed ==> UnderLaunch(e) && HasFailed(e))
  }

  lemma ReadyToOccupy(nm: Numerics, log: seq<Moment>, b: Backend, e: Backend, handle: nat, work: Work, i: nat)
    requires Launchable(b, handle, work) && Settles(b, e) && Traced(nm, log, e)
    requires ArgumentsExist(work) && WorkBytes(work) <= e.config.slotBytes
    requires i < |e.streams| && e.streams[i].running.None?
    ensures Enabled(e, Occupy(i, work))
  {
    TracedHandles(nm, log, e);
  }

  /**
   What a caller promises about a job it submits: its input is there and holds the frame, and
   in parameterized mode every gaussian's weights fit the argument array.
   */
  predicate Supplied(config: Config, job: FrameJob, host: Host) {
    && (job.slot.Some? ==> job.slot.value < |host|)
    && (GoodJob(job) ==> JobBytes(job) <= |host[job.slot.value]|)
    && (config.constants == Parameterized ==> ChainTapsFit(job.chain))
  }

  predicate FetchEnds(b: Backend, e: Backend) {
    && e == b.(streams := e.streams, cache := e.cache, lookup := e.lookup) && |e.streams| == |b.streams|
  }

  /** After the lookup the launch goes on with the kernels found, or has failed. */
  lemma LookedUp(nm: Numerics, log: seq<Moment>, b: Backend, handle: nat, job: FrameJob, result: GetResult)
    requires Traced(nm, log, b) && b.launching == Some(handle) && !b.poisoned && b.lookup == Some(result)
    requires 1 <= handle <= |b.asks| && b.asks[handle - 1].job == job && GoodJob(job) && job.chain != []
    ensures result.Found? ==>
              Launchable(b, handle, Work(KeyFor(b.config, job.chain, job.channels), result.kernels, job.slot.value, job.width, job.height))
    ensures result.Refused? ==> LaunchEnds(b, b, Malformed)
    ensures result.NotCompiled? ==> LaunchEnds(b, b, CompilerFailed)
    ensures result.NotLoaded? ==> LaunchEnds(b, b, DriverFailed)
  {
    TracedHandles(nm, log, b);
  }

  lemma DeviceThenFetch(b: Backend, m: Backend, e: Backend)
    requires OnlyDevice(b, m) && e == m.(cache := e.cache, lookup := e.lookup)
    ensures FetchEnds(b, e) && m.cache == b.cache
  {
  }

  lemma FetchThenEnds(b: Backend, m: Backend, e: Backend, outcome: LaunchOutcome)
    requires FetchEnds(b, m) && LaunchEnds(m, e, outcome)
    ensures LaunchEnds(b, e, outcome)
  {
  }

  /** What a lookup answers, whatever the chain. */
  lemma LookUpEnds(nm: Numerics, cache: CacheState, key: KernelKey, reply: BuildReply)
    requires OwnPrograms(nm, cache.entries)
    ensures var result := CacheGet(nm, cache, key, reply).1;
            (result.Found? ==> KernelsFor(nm, key, result.kernels)) && (result.Refused? <==> Refuses(nm, cache, key))
  {
    GetFindsEqual(nm, cache, key, reply);
  }

  /** No canonical chain is ever refused its kernels. */
  lemma CanonicalNeverRefused(nm: Numerics, config: Config, cache: CacheState, job: FrameJob)
    requires ConfigInv(config) && GoodJob(job) && CanonicalChain(job.chain)
    ensures !Refuses(nm, cache, KeyFor(config, job.chain, job.channels))
  {
    CanonicalProgramEmits(nm, KeyFor(config, job.chain, job.channels));
  }

  lemma FetchEnabled(nm: Numerics, log: seq<Moment>, b: Backend, handle: nat, job: FrameJob, key: KernelKey, reply: BuildReply)
    requires Traced(nm, log, b) && b.launching == Some(handle) && b.lookup.None? && !b.poisoned && b.alive
    requires 1 <= handle <= |b.asks| && b.asks[handle - 1].job == job && GoodJob(job) && job.chain != []
    requires key == KeyFor(b.config, job.chain, job.channels)
    ensures Enabled(b, FetchKernels(reply)) && key == LaunchKey(b) && KeyFits(key) && OwnPrograms(nm, b.cache.entries)
  {
    TracedIsSound(nm, log, b);
  }

  lemma RetireEnabled(nm: Numerics, log: seq<Moment>, b: Backend, i: nat)
    requires Traced(nm, log, b) && !b.poisoned && Busy(b, i) && b.streams[i].pending == []
    ensures Enabled(b, RetireStream(i))
    ensures var work := b.streams[i].running.value.work; GoodDimensions(work.width, work.height, work.key.channels)
  {
    TracedIsSound(nm, log, b);
    assert StreamShape(b.config, b.streams[i]);
  }

  class CudaBackend {
    const nm: Numerics
    const config: Config
    const cache: KernelCache
    var context: bool
    var streams: seq<Stream>
    var completed: seq<Completion>
    var nextHandle: nat
    var nextOrder: nat
    var driver: seq<DriverEvent>
    ghost var poisoned: bool
    ghost var launching: Option<nat>
    ghost var lookup: Option<GetResult>
    ghost var asks: seq<Ask>
    ghost var fates: seq<Fate>
    ghost var reported: seq<Completion>
    ghost var log: seq<Moment>
    // What the driver and the compiler have refused so far.
    ghost var driverErrors: nat
    ghost var compilerErrors: nat

    ghost function State(): Backend
      reads this, cache
    {
      Backend(config, context, poisoned, cache.State(), streams, reported + completed, |reported|,
        nextHandle, nextOrder, launching, lookup, asks, fates)
    }

    ghost predicate Ready(host: Host)
      reads this, cache
    {
      cache.Valid() && Traced(nm, log, State()) && HostKept(State(), host)
    }

    /** Construction and allocate_slots: a context, an empty cache, and all the streams. */
    constructor (nm: Numerics, config: Config, driver: seq<DriverEvent>)
      requires ConfigInv(config) && config.streamCount > 0
      ensures fresh(cache) && this.nm == nm && this.config == config && this.driver == driver
      ensures Initial(State()) && |streams| == config.streamCount && forall host :: Ready(host)
    {
      this.nm, this.config, this.driver := nm, config, driver;
      cache := new KernelCache();
      context := true;
      streams := IdleStreams(seq(config.streamCount, _ => BlankBuffers(config.slotBytes)));
      completed, nextHandle, nextOrder := [], 1, 1;
      poisoned, launching, lookup, asks, fates, reported, log := false, None, None, [], [], [], [];
      driverErrors, compilerErrors := 0, 0;
    }

    /** The construction the source allows: no streams means one, a bad tile or mode is refused. */
    static method Create(nm: Numerics, config: Config, driver: seq<DriverEvent>) returns (backend: CudaBackend?)
      ensures backend == null <==> !ConfigInv(config)
      ensures backend != null ==> fresh(backend) && fresh(backend.cache) && Initial(backend.State())
      ensures backend != null ==>
                backend.config == config.(streamCount := if config.streamCount == 0 then 1 else config.streamCount)
      ensures backend != null ==> forall host :: backend.Ready(host)
    {
      if !SupportedTile(config.tile, config.tileSize) || !SupportedConstants(config.constants, config.tile) {
        return null;
      }
      backend := new CudaBackend(nm, config.(streamCount := if config.streamCount == 0 then 1 else config.streamCount), driver);
    }

    /** Records a step whose effect on the fields has just been made. */
    ghost method Record(before: Backend, step: BackendStep, host: Host)
      requires cache.Valid() && Traced(nm, log, before) && HostKept(before, host) && Sees(step, host) && Enabled(before, step)
      requires State() == Apply(nm, before, step)
      modifies this`log
      ensures Ready(host)
    {
      TracedOneMore(nm, log, before, step, host);
      log := log + [Moment(before, step, host)];
    }

    // ------------------------------------------------------------ the device's own steps

    /** The GPU executes the next operation of a stream. */
    method ExecuteNext(i: nat, sched: Schedule, host: Host)
      requires Ready(host) && Enabled(State(), Execute(i, host, sched))
      modifies this`streams, this`log
      ensures Ready(host) && State() == Apply(nm, old(State()), Execute(i, host, sched))
    {
      ghost var before := State();
      streams := streams[i := ExecuteHead(nm, streams[i], host, sched)];
      Record(before, Execute(i, host, sched), host);
    }

    /** The GPU executes the next operation of a stream, if it has one and can. */
    method RunOne(i: nat, sched: Schedule, host: Host)
      requires Ready(host)
      modifies this`streams, this`log
      ensures Ready(host) && OnlyDevice(old(State()), State())
    {
      if i < |streams| && streams[i].pending != [] && Touchable(streams[i].pending[0], host, streams[i].buffers)
         && Admits(streams[i].pending[0], sched) {
        TouchableIsInBounds(streams[i].pending[0], host, streams[i].buffers);
        AdmitsScheduled(streams[i].pending[0], sched);
        ExecuteNext(i, sched, host);
      }
    }

    /** The GPU makes progress, then the next question to the driver is answered. */
    method NextReply(host: Host) returns (healthy: bool, build: BuildReply)
      requires Ready(host)
      modifies this`streams, this`log, this`driver
      ensures Ready(host) && OnlyDevice(old(State()), State())
    {
      while driver != []
        invariant Ready(host) && OnlyDevice(old(State()), State())
        decreases |driver|
      {
        var event := driver[0];
        driver := driver[1..];
        match event {
          case Replies(ok, reply) => return ok, reply;
          case Runs(i, sched) => RunOne(i, sched, host);
        }
      }
      return false, LoadError;
    }

    /** A driver call that either succeeds or raises a driver error. */
    method Call(host: Host) returns (healthy: bool)
      requires Ready(host)
      modifies this`streams, this`log, this`driver, this`driverErrors
      ensures Ready(host) && OnlyDevice(old(State()), State())
      ensures driverErrors == old(driverErrors) + if healthy then 0 else 1
    {
      var ok, _ := NextReply(host);
      driverErrors := driverErrors + if ok then 0 else 1;
      return ok;
    }

    /** cuEventSynchronize: waits until the stream has executed everything, or the driver dies. */
    method Synchronize(i: nat, host: Host) returns (healthy: bool)
      requires Ready(host) && i < |streams|
      modifies this`streams, this`log, this`driver, this`driverErrors
      ensures Ready(host) && OnlyDevice(old(State()), State())
      ensures healthy ==> streams[i].pending == []
      ensures driverErrors == old(driverErrors) + if healthy then 0 else 1
    {
      while streams[i].pending != []
        invariant Ready(host) && OnlyDevice(old(State()), State()) && i < |streams|
        invariant driverErrors == old(driverErrors)
        decreases |driver|
      {
        var event := if driver == [] then Replies(false, LoadError) else driver[0];
        match event {
          case Replies(ok, _) =>
            if !ok {
              driverErrors := driverErrors + 1;
              return false;
            }
            driver := driver[1..];
          case Runs(j, sched) =>
            driver := driver[1..];
            RunOne(j, sched, host);
        }
      }
      return true;
    }

    // ------------------------------------------------------------------ single steps

    /** Adds a completion and records where its handle went. */
    method Finish(handle: nat, output: Option<Image>)
      requires 1 <= handle <= |fates|
      modifies this`completed, this`fates
      ensures State() == Complete(old(State()), handle, output)
    {
      fates := fates[handle - 1 := Finished(|reported + completed|)];
      assert reported + (completed + [Completion(handle, output)]) == reported + completed + [Completion(handle, output)];
      completed := completed + [Completion(handle, output)];
    }

    method RetireAt(i: nat, host: Host)
      requires Ready(host) && Enabled(State(), RetireStream(i))
      requires GoodDimensions(streams[i].running.value.work.width, streams[i].running.value.work.height,
                 streams[i].running.value.work.key.channels)
      modifies this`streams, this`completed, this`fates, this`log
      ensures Ready(host) && State() == Apply(nm, old(State()), RetireStream(i))
    {
      ghost var before := State();
      var running := streams[i].running.value;
      var output := StagedOutput(running.work, streams[i].buffers.staging);
      Finish(running.handle, Some(output));
      streams := streams[i := streams[i].(running := None)];
      Record(before, RetireStream(i), host);
    }

    /** A driver error: from here until the rebuild nothing on the GPU can be trusted. */
    ghost method NoteFault(host: Host)
      requires Ready(host)
      modifies this`poisoned, this`log
      ensures Ready(host) && poisoned && State() == old(State()).(poisoned := true)
    {
      var before := State();
      var scratch := CurrentBuffers(streams);
      TracedIsSound(nm, log, before);
      FaultUnseen(nm, before, scratch);
      poisoned := true;
      Record(before, Fault(scratch), host);
    }

    method FailStreamAt(i: nat, host: Host)
      requires Ready(host) && Enabled(State(), FailStream(i))
      modifies this`streams, this`completed, this`fates, this`log
      ensures Ready(host) && State() == Apply(nm, old(State()), FailStream(i))
    {
      ghost var before := State();
      Finish(streams[i].running.value.handle, None);
      streams := streams[i := streams[i].(running := None)];
      Record(before, FailStream(i), host);
    }

    method FailLaunching(handle: nat, host: Host)
      requires Ready(host) && launching == Some(handle) && Enabled(State(), FailLaunch)
      modifies this`completed, this`fates, this`launching, this`log
      ensures Ready(host) && State() == Apply(nm, old(State()), FailLaunch)
    {
      ghost var before := State();
      Finish(handle, None);
      launching := None;
      Record(before, FailLaunch, host);
    }

    method IssueHandle(job: FrameJob, host: Host) returns (handle: nat)
      requires Ready(host) && Enabled(State(), Issue(job, host))
      modifies this`nextHandle, this`launching, this`lookup, this`asks, this`fates, this`log
      ensures Ready(host) && State() == Apply(nm, old(State()), Issue(job, host)) && handle == old(nextHandle)
      ensures launching == Some(handle) && lookup.None? && 1 <= handle == |asks| && asks[handle - 1].job == job
    {
      ghost var before := State();
      TracedHandles(nm, log, before);
      handle := nextHandle;
      nextHandle := nextHandle + 1;
      launching, lookup := Some(handle), None;
      fates := fates + [Launching];
      asks := asks + [Ask(job, if job.slot.Some? then host[job.slot.value] else [])];
      Record(before, Issue(job, host), host);
    }

    method FinishAtOnce(handle: nat, job: FrameJob, host: Host)
      requires Ready(host) && Enabled(State(), FinishInline(host)) && launching == Some(handle)
      requires 1 <= handle <= |asks| && asks[handle - 1].job == job
      modifies this`completed, this`fates, this`launching, this`log
      ensures Ready(host) && State() == Apply(nm, old(State()), FinishInline(host))
    {
      ghost var before := State();
      var output := InlineOutput(job, host[job.slot.value]);
      Finish(handle, Some(output));
      launching := None;
      Record(before, FinishInline(host), host);
    }

    method LookUp(key: KernelKey, reply: BuildReply, host: Host) returns (result: GetResult)
      requires Ready(host) && Enabled(State(), FetchKernels(reply)) && key == LaunchKey(State()) && KeyFits(key)
      modifies this`lookup, this`log, cache
      ensures Ready(host) && State() == Apply(nm, old(State()), FetchKernels(reply))
      ensures result == CacheGet(nm, old(State()).cache, key, reply).1 && lookup == Some(result)
    {
      ghost var before := State();
      result := cache.Get(nm, key, reply);
      lookup := Some(result);
      Record(before, FetchKernels(reply), host);
    }

    /** The stream becomes busy only here, after everything is queued. */
    method MarkBusy(i: nat, handle: nat, work: Work, queued: seq<DeviceOp>)
      requires i < |streams| && 1 <= handle <= |fates| && ArgumentsExist(work) && queued == WorkOps(nm, work)
      modifies this`streams, this`fates, this`launching, this`nextOrder
      ensures State() == OccupyStream(nm, old(State()), i, handle, work)
    {
      streams := streams[i := Stream(Some(Running(handle, nextOrder, work)), queued, streams[i].buffers)];
      nextOrder := nextOrder + 1;
      fates := fates[handle - 1 := OnStream(i)];
      launching := None;
    }

    method OccupyAt(i: nat, handle: nat, work: Work, host: Host)
      requires Ready(host) && launching == Some(handle) && Enabled(State(), Occupy(i, work))
      modifies this`streams, this`fates, this`launching, this`nextOrder, this`log
      ensures Ready(host) && State() == OccupyStream(nm, old(State()), i, handle, work)
    {
      ghost var before := State();
      var queued := Enqueue(nm, work);
      MarkBusy(i, handle, work, queued);
      Record(before, Occupy(i, work), host);
    }

    method RebuildWith(contextBack: bool, made: seq<Buffers>, host: Host)
      requires Ready(host) && Enabled(State(), Rebuild(contextBack, made))
      modifies this`context, this`streams, this`poisoned, this`log, cache
      ensures Ready(host) && State() == Apply(nm, old(State()), Rebuild(contextBack, made))
    {
      ghost var before := State();
      streams := IdleStreams(made);
      cache.Clear();
      context := contextBack;
      poisoned := false;
      Record(before, Rebuild(contextBack, made), host);
    }

    method TakeCompleted(host: Host) returns (completions: seq<Completion>)
      requires Ready(host) && Enabled(State(), Poll)
      modifies this`completed, this`reported, this`log
      ensures Ready(host) && State() == Apply(nm, old(State()), Poll)
      ensures completions == old(completed) && completed == []
    {
      ghost var before := State();
      completions := completed;
      reported := reported + completed;
      completed := [];
      assert reported + completed == before.finished;
      Record(before, Poll, host);
    }

    // ------------------------------------------------------------------- the methods

    /** One stream of the sweep: retired if it is busy and its event has completed. */
    method RetireDrained(i: nat, host: Host)
      requires Ready(host) && !poisoned && Busy(State(), i) && streams[i].pending == []
      modifies this`streams, this`completed, this`fates, this`log
      ensures Ready(host) && Settles(old(State()), State()) && streams[i].running.None?
    {
      RetireEnabled(nm, log, State(), i);
      RetireAt(i, host);
    }

    method RetireIfDone(i: nat, host: Host) returns (healthy: bool)
      requires Ready(host) && !poisoned && i < |streams|
      modifies this`streams, this`completed, this`fates, this`log, this`driver, this`driverErrors
      ensures Ready(host) && Settles(old(State()), State())
      ensures healthy && old(streams[i].pending) == [] ==> streams[i].running.None?
      ensures driverErrors == old(driverErrors) + if healthy then 0 else 1
    {
      if streams[i].running.None? {
        return true;
      }
      var drained := QueryDone(i, host);
      if drained.None? || !drained.value {
        return drained.Some?;
      }
      var ok := Call(host);
      if ok {
        RetireDrained(i, host);
      }
      return ok;
    }

    /** The sweep over all streams; false is a driver error partway. */
    method RetireReadyStreams(host: Host) returns (healthy: bool)
      requires Ready(host) && !poisoned
      modifies this`streams, this`completed, this`fates, this`log, this`driver, this`driverErrors
      ensures Ready(host) && Settles(old(State()), State())
      ensures healthy ==> Swept(old(State()), State(), |streams|)
      ensures driverErrors == old(driverErrors) + if healthy then 0 else 1
    {
      for i := 0 to |streams|
        invariant Ready(host) && Settles(old(State()), State()) && Swept(old(State()), State(), i)
        invariant driverErrors == old(driverErrors)
      {
        ghost var before := State();
        var ok := RetireIfDone(i, host);
        SettlesOn(old(State()), before, State());
        if !ok {
          return false;
        }
        SweepOn(old(State()), before, State(), i);
      }
      return true;
    }

    /** cuEventQuery: whether the stream's done event has been reached, or a driver error. */
    method QueryDone(i: nat, host: Host) returns (drained: Option<bool>)
      requires Ready(host) && i < |streams|
      modifies this`streams, this`log, this`driver, this`driverErrors
      ensures Ready(host) && OnlyDevice(old(State()), State())
      ensures drained.Some? ==> drained.value == (streams[i].pending == [])
      ensures driverErrors == old(driverErrors) + if drained.Some? then 0 else 1
    {
      var ok := Call(host);
      return if ok then Some(streams[i].pending == []) else None;
    }

    method FindIdle() returns (i: nat)
      ensures i <= |streams| && (i < |streams| ==> streams[i].running.None?)
      ensures i == |streams| ==> forall j :: 0 <= j < |streams| ==> streams[j].running.Some?
    {
      i := 0;
      while i < |streams| && streams[i].running.Some?
        invariant i <= |streams| && forall j :: 0 <= j < i ==> streams[j].running.Some?
      {
        i := i + 1;
      }
    }

    /** The busy stream submitted first. */
    method Oldest() returns (k: nat)
      requires streams != [] && forall j :: 0 <= j < |streams| ==> streams[j].running.Some?
      ensures k < |streams|
      ensures forall j :: 0 <= j < |streams| ==> streams[k].running.value.order <= streams[j].running.value.order
    {
      k := 0;
      for i := 1 to |streams|
        invariant k < i && forall j :: 0 <= j < i ==> streams[k].running.value.order <= streams[j].running.value.order
      {
        if streams[i].running.value.order < streams[k].running.value.order {
          k := i;
        }
      }
    }

    /**
     An idle stream, waiting on the oldest frame while there is none; None is a driver
     error. The wait ends: the frame waited for is swept, so its stream is free.
     */
    method ClaimStream(host: Host) returns (claimed: Option<nat>)
      requires Ready(host) && !poisoned && streams != []
      modifies this`streams, this`completed, this`fates, this`log, this`driver, this`driverErrors
      ensures Ready(host) && Settles(old(State()), State())
      ensures claimed.Some? ==> claimed.value < |streams| && streams[claimed.value].running.None?
      ensures driverErrors == old(driverErrors) + if claimed.Some? then 0 else 1
    {
      var idle: nat := FindIdle();
      while idle == |streams|
        invariant Ready(host) && Settles(old(State()), State())
        invariant idle <= |streams| && (idle < |streams| ==> streams[idle].running.None?)
        invariant idle == |streams| ==> forall j :: 0 <= j < |streams| ==> streams[j].running.Some?
        invariant driverErrors == old(driverErrors)
        decreases idle == |streams|
      {
        ghost var before := State();
        var freed := WaitForOldest(host);
        SettlesOn(old(State()), before, State());
        if freed.None? {
          return None;
        }
        idle := FindIdle();
      }
      return Some(idle);
    }

    /** Blocks on the oldest frame's event and sweeps; the stream it names is then free. */
    method WaitForOldest(host: Host) returns (freed: Option<nat>)
      requires Ready(host) && !poisoned && streams != []
      requires forall j :: 0 <= j < |streams| ==> streams[j].running.Some?
      modifies this`streams, this`completed, this`fates, this`log, this`driver, this`driverErrors
      ensures Ready(host) && Settles(old(State()), State())
      ensures freed.Some? ==> freed.value < |streams| && streams[freed.value].running.None?
      ensures driverErrors == old(driverErrors) + if freed.Some? then 0 else 1
    {
      var oldest := Oldest();
      var ok := Synchronize(oldest, host);
      if !ok {
        return None;
      }
      ghost var before := State();
      ok := RetireReadyStreams(host);
      SettlesOn(old(State()), before, State());
      return if ok then Some(oldest) else None;
    }

    /** Every frame on the GPU is reported as failed, before anything is destroyed. */
    method FailBusyStreams(host: Host)
      requires Ready(host) && poisoned
      modifies this`streams, this`completed, this`fates, this`log
      ensures Ready(host) && Settles(old(State()), State()) && NoneBusy(State())
    {
      for i := 0 to |streams|
        invariant Ready(host) && Settles(old(State()), State())
        invariant forall j :: 0 <= j < i ==> streams[j].running.None?
      {
        if streams[i].running.Some? {
          ghost var before := State();
          TracedHandles(nm, log, before);
          FailStreamAt(i, host);
          SettlesOn(old(State()), before, State());
        }
      }
    }

    /** Fresh stream slots, one driver call each; a failure partway keeps those made. */
    method BuildStreamSlots(host: Host) returns (made: seq<Buffers>)
      requires Ready(host)
      modifies this`streams, this`log, this`driver, this`driverErrors
      ensures Ready(host) && OnlyDevice(old(State()), State())
      ensures |made| <= config.streamCount && AllSized(made, config.slotBytes) && driverErrors >= old(driverErrors)
    {
      made := [];
      while |made| < config.streamCount
        invariant Ready(host) && OnlyDevice(old(State()), State())
        invariant |made| <= config.streamCount && AllSized(made, config.slotBytes) && driverErrors == old(driverErrors)
      {
        var ok := Call(host);
        if !ok {
          return;
        }
        made := made + [BlankBuffers(config.slotBytes)];
      }
    }

    /** Step 3 of a recreation: a context, the host registration, the streams. */
    method RebuildAll(host: Host)
      requires Ready(host) && poisoned && launching.None? && NoneBusy(State())
      modifies this`streams, this`log, this`driver, this`driverErrors, this`context, this`poisoned, cache
      ensures Ready(host) && Recovered(old(State()), State()) && State().finished == old(State()).finished
      ensures driverErrors >= old(driverErrors)
    {
      var made: seq<Buffers> := [];
      var ok := Call(host);
      if ok {
        var attached := Call(host);
        if attached {
          made := BuildStreamSlots(host);
        }
      }
      RebuildWith(ok, made, host);
    }

    /**
     recreate_context: frames on the GPU fail, everything goes, and what the driver lets
     come back comes back. recover() is this with its exception swallowed.
     */
    method RecreateContext(host: Host)
      requires Ready(host) && launching.None?
      modifies this`streams, this`completed, this`fates, this`log, this`driver, this`driverErrors, this`context, this`poisoned, cache
      ensures Ready(host) && Recovered(old(State()), State()) && driverErrors >= old(driverErrors)
    {
      NoteFault(host);
      FailBusyStreams(host);
      RebuildAll(host);
    }

    /** The launch path once the job's checks have passed and its kernels are at hand. */
    method QueueFrame(handle: nat, work: Work, host: Host) returns (outcome: LaunchOutcome)
      requires Ready(host) && Launchable(State(), handle, work) && KernelsFor(nm, work.key, work.kernels)
      modifies this`streams, this`completed, this`fates, this`launching, this`nextOrder, this`log, this`driver, this`driverErrors
      ensures Ready(host) && LaunchEnds(old(State()), State(), outcome) && outcome != CompilerFailed
      ensures outcome == Malformed <==> old(streams) == [] || config.slotBytes < WorkBytes(work)
      ensures driverErrors == old(driverErrors) + if outcome == DriverFailed then 1 else 0
    {
      FoundHasArguments(nm, work);
      if streams == [] || config.slotBytes < WorkBytes(work) {
        return Malformed;
      }
      var claimed := ClaimAndQueue(|work.kernels| + 5, host);
      if claimed.None? {
        return DriverFailed;
      }
      ReadyToOccupy(nm, log, old(State()), State(), handle, work, claimed.value);
      OccupyAt(claimed.value, handle, work, host);
      return Launched;
    }

    /** A stream, and everything queued on it; None is a driver error on the way. */
    method ClaimAndQueue(calls: nat, host: Host) returns (claimed: Option<nat>)
      requires Ready(host) && !poisoned && streams != []
      modifies this`streams, this`completed, this`fates, this`log, this`driver, this`driverErrors
      ensures Ready(host) && Settles(old(State()), State())
      ensures claimed.Some? ==> claimed.value < |streams| && streams[claimed.value].running.None?
      ensures driverErrors == old(driverErrors) + if claimed.Some? then 0 else 1
    {
      claimed := ClaimStream(host);
      if claimed.Some? {
        ghost var before := State();
        var ok := QueueCalls(calls, host);
        SettlesOn(old(State()), before, State());
        claimed := if ok then claimed else None;
      }
    }

    /** One driver call per copy, launch and event record; a failing one ends the queueing. */
    method QueueCalls(calls: nat, host: Host) returns (healthy: bool)
      requires Ready(host)
      modifies this`streams, this`log, this`driver, this`driverErrors
      ensures Ready(host) && OnlyDevice(old(State()), State())
      ensures driverErrors == old(driverErrors) + if healthy then 0 else 1
    {
      for c := 0 to calls
        invariant Ready(host) && OnlyDevice(old(State()), State()) && driverErrors == old(driverErrors)
      {
        var ok := Call(host);
        if !ok {
          return false;
        }
      }
      return true;
    }

    /** The checks of a job, in the source's order, and then its launch. */
    method Launch(job: FrameJob, handle: nat, host: Host) returns (outcome: LaunchOutcome)
      requires Ready(host) && launching == Some(handle) && lookup.None? && !poisoned
      requires 1 <= handle <= |asks| && asks[handle - 1].job == job && Supplied(config, job, host)
      modifies this`streams, this`completed, this`fates, this`launching, this`lookup, this`nextOrder, this`log, this`driver,
               this`driverErrors, this`compilerErrors, cache
      ensures Ready(host) && LaunchEnds(old(State()), State(), outcome)
      ensures outcome == Malformed <==>
                !old(context) || !GoodJob(job)
                || (job.chain != []
                    && (Refuses(nm, old(State()).cache, KeyFor(config, job.chain, job.channels))
                        || ((old(streams) == [] || config.slotBytes < JobBytes(job))
                            && driverErrors == old(driverErrors) && compilerErrors == old(compilerErrors))))
      ensures driverErrors == old(driverErrors) + if outcome == DriverFailed then 1 else 0
      ensures compilerErrors == old(compilerErrors) + if outcome == CompilerFailed then 1 else 0
    {
      TracedHandles(nm, log, State());
      if !context || !GoodJob(job) {
        return Malformed;
      }
      if job.chain == [] {
        FinishAtOnce(handle, job, host);
        return Launched;
      }
      outcome := LaunchChain(job, handle, host);
    }

    /** A job with at least one operation: its kernels from the cache, then a stream. */
    method LaunchChain(job: FrameJob, handle: nat, host: Host) returns (outcome: LaunchOutcome)
      requires Ready(host) && launching == Some(handle) && lookup.None? && !poisoned && context && GoodJob(job) && job.chain != []
      requires 1 <= handle <= |asks| && asks[handle - 1].job == job
      modifies this`streams, this`completed, this`fates, this`launching, this`lookup, this`nextOrder, this`log, this`driver,
               this`driverErrors, this`compilerErrors, cache
      ensures Ready(host) && LaunchEnds(old(State()), State(), outcome)
      ensures outcome == Malformed <==>
                || Refuses(nm, old(State()).cache, KeyFor(config, job.chain, job.channels))
                || ((old(streams) == [] || config.slotBytes < JobBytes(job))
                    && driverErrors == old(driverErrors) && compilerErrors == old(compilerErrors))
      ensures driverErrors == old(driverErrors) + if outcome == DriverFailed then 1 else 0
      ensures compilerErrors == old(compilerErrors) + if outcome == CompilerFailed then 1 else 0
    {
      var key := KeyFor(config, job.chain, job.channels);
      var result := FetchFor(key, job, handle, host);
      ghost var before := State();
      outcome := LaunchWith(result, key, job, handle, host);
      FetchThenEnds(old(State()), before, State(), outcome);
    }

    /** The rest of a launch, with what it was told about its kernels. */
    method LaunchWith(result: GetResult, key: KernelKey, job: FrameJob, handle: nat, host: Host) returns (outcome: LaunchOutcome)
      requires Ready(host) && launching == Some(handle) && lookup == Some(result) && !poisoned && GoodJob(job) && job.chain != []
      requires 1 <= handle <= |asks| && asks[handle - 1].job == job && key == KeyFor(config, job.chain, job.channels)
      requires result.Found? ==> KernelsFor(nm, key, result.kernels)
      modifies this`streams, this`completed, this`fates, this`launching, this`nextOrder, this`log, this`driver, this`driverErrors
      ensures Ready(host) && LaunchEnds(old(State()), State(), outcome)
      ensures outcome == CompilerFailed <==> result.NotCompiled?
      ensures result.NotLoaded? ==> outcome == DriverFailed
      ensures outcome == Malformed <==>
                result.Refused? || (result.Found? && (old(streams) == [] || config.slotBytes < JobBytes(job)))
      ensures driverErrors == old(driverErrors) + if result.Found? && outcome == DriverFailed then 1 else 0
    {
      LookedUp(nm, log, State(), handle, job, result);
      match result {
        case Refused => return Malformed;
        case NotCompiled => return CompilerFailed;
        case NotLoaded => return DriverFailed;
        case Found(kernels) =>
          outcome := QueueFrame(handle, Work(key, kernels, job.slot.value, job.width, job.height), host);
      }
    }

    /** cache_.get: a compiler error and a driver error part ways here. */
    method FetchFor(key: KernelKey, job: FrameJob, handle: nat, host: Host) returns (result: GetResult)
      requires Ready(host) && launching == Some(handle) && lookup.None? && !poisoned && context && GoodJob(job) && job.chain != []
      requires 1 <= handle <= |asks| && asks[handle - 1].job == job && key == KeyFor(config, job.chain, job.channels)
      modifies this`streams, this`lookup, this`log, this`driver, this`driverErrors, this`compilerErrors, cache
      ensures Ready(host) && FetchEnds(old(State()), State()) && lookup == Some(result)
      ensures result.Found? ==> KernelsFor(nm, key, result.kernels)
      ensures result.Refused? <==> Refuses(nm, old(State()).cache, key)
      ensures driverErrors == old(driverErrors) + if result.NotLoaded? then 1 else 0
      ensures compilerErrors == old(compilerErrors) + if result.NotCompiled? then 1 else 0
    {
      var _, reply := NextReply(host);
      ghost var before := State();
      result := LookUpFor(key, job, handle, reply, host);
      DeviceThenFetch(old(State()), before, State());
      driverErrors := driverErrors + if result.NotLoaded? then 1 else 0;
      compilerErrors := compilerErrors + if result.NotCompiled? then 1 else 0;
    }

    method LookUpFor(key: KernelKey, job: FrameJob, handle: nat, reply: BuildReply, host: Host) returns (result: GetResult)
      requires Ready(host) && launching == Some(handle) && lookup.None? && !poisoned && context && GoodJob(job) && job.chain != []
      requires 1 <= handle <= |asks| && asks[handle - 1].job == job && key == KeyFor(config, job.chain, job.channels)
      modifies this`lookup, this`log, cache
      ensures Ready(host) && State() == old(State()).(cache := State().cache, lookup := Some(result))
      ensures result.Found? ==> KernelsFor(nm, key, result.kernels)
      ensures result.Refused? <==> Refuses(nm, old(State()).cache, key)
    {
      ghost var before := State();
      FetchEnabled(nm, log, before, handle, job, key, reply);
      result := LookUp(key, reply, host);
      LookUpEnds(nm, before.cache, key, reply);
    }

    /**
     submit: a handle is issued whatever happens and is never left launching. It comes to
     nothing exactly when the job is malformed, code generation refuses its chain, there is no
     buffer for it, or the compiler or the driver refused something on the way.
     */
    method Submit(job: FrameJob, host: Host) returns (handle: nat, outcome: LaunchOutcome)
      requires Ready(host) && !poisoned && launching.None? && Supplied(config, job, host)
      requires job.slot.Some? ==> |host[job.slot.value]| == config.slotBytes
      modifies this, cache
      ensures Ready(host) && !poisoned && launching.None?
      ensures handle == old(nextHandle) && nextHandle == handle + 1
      ensures asks == old(asks) + [Ask(job, if job.slot.Some? then host[job.slot.value] else [])]
      ensures old(State()).finished <= State().finished && State().polled == old(State()).polled
      ensures outcome == DriverFailed <==> driverErrors > old(driverErrors)
      ensures outcome == CompilerFailed <==> compilerErrors > old(compilerErrors)
      ensures outcome == Malformed <==>
                !old(context) || !GoodJob(job)
                || (job.chain != []
                    && (Refuses(nm, old(State()).cache, KeyFor(config, job.chain, job.channels))
                        || ((old(streams) == [] || config.slotBytes < JobBytes(job))
                            && driverErrors == old(driverErrors) && compilerErrors == old(compilerErrors))))
    {
      handle := IssueHandle(job, host);
      outcome := LaunchOrFail(job, handle, host);
    }

    method LaunchOrFail(job: FrameJob, handle: nat, host: Host) returns (outcome: LaunchOutcome)
      requires Ready(host) && launching == Some(handle) && lookup.None? && !poisoned
      requires 1 <= handle <= |asks| && asks[handle - 1].job == job && Supplied(config, job, host)
      modifies this`streams, this`completed, this`fates, this`launching, this`lookup, this`nextOrder, this`log, this`driver,
               this`driverErrors, this`compilerErrors, this`context, this`poisoned, cache
      ensures Ready(host) && !poisoned && launching.None?
      ensures old(State()).finished <= State().finished && State().polled == old(State()).polled
      ensures outcome == DriverFailed <==> driverErrors > old(driverErrors)
      ensures outcome == CompilerFailed <==> compilerErrors > old(compilerErrors)
      ensures outcome == Malformed <==>
                !old(context) || !GoodJob(job)
                || (job.chain != []
                    && (Refuses(nm, old(State()).cache, KeyFor(config, job.chain, job.channels))
                        || ((old(streams) == [] || config.slotBytes < JobBytes(job))
                            && driverErrors == old(driverErrors) && compilerErrors == old(compilerErrors))))
    {
      outcome := Launch(job, handle, host);
      if outcome != Launched {
        FailJob(handle, outcome == DriverFailed, host);
      }
    }

    /** The exception handlers of submit: an error completion, and after a driver error a recovery. */
    method FailJob(handle: nat, driverBroke: bool, host: Host)
      requires Ready(host) && !poisoned && launching == Some(handle)
      requires !driverBroke ==> UnderLaunch(State()) && HasFailed(State())
      modifies this`streams, this`completed, this`fates, this`launching, this`log, this`driver, this`driverErrors,
               this`context, this`poisoned, cache
      ensures Ready(host) && !poisoned && launching.None? && driverErrors >= old(driverErrors)
      ensures State().config == old(State()).config
      ensures !driverBroke ==> driverErrors == old(driverErrors)
      ensures old(State()).finished <= State().finished && State().polled == old(State()).polled
    {
      if driverBroke {
        NoteFault(host);
      }
      TracedHandles(nm, log, State());
      FailLaunching(handle, host);
      if driverBroke {
        RecreateContext(host);
      }
    }

    /** poll_completions: the sweep, a recovery if the driver broke, and the whole list. */
    method PollCompletions(host: Host) returns (completions: seq<Completion>)
      requires Ready(host) && !poisoned && launching.None?
      modifies this, cache
      ensures Ready(host) && !poisoned && launching.None? && completed == []
      ensures old(State()).finished <= State().finished && asks == old(asks) && nextHandle == old(nextHandle)
      ensures State().polled == |State().finished| && State().finished == old(reported) + completions
    {
      var ok := RetireReadyStreams(host);
      if !ok {
        RecreateContext(host);
      }
      completions := TakeCompleted(host);
    }
  }
}
