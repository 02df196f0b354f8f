/**
 The asynchronous backend as a step system (src/backend/cuda/cuda_backend.cpp): handles,
 stream slots gated by their done events, the completion list, and recovery from a
 driver error. The class in cuda_backend.dfy takes exactly these steps.
 */
module Backends {
  import opened Arith
  import opened Samples
  import opened Chains
  import opened Images
  import opened Oracle
  import opened Launches
  import opened KernelKeys
  import opened KernelCaches
  import opened Device

  /** A frame as the server submits it; `slot` is None for a null input pointer. */
  datatype FrameJob = FrameJob(slot: Option<nat>, width: int, height: int, channels: int, stride: int, chain: OpChain)

  /** A submitted job together with what its input held at that moment. */
  datatype Ask = Ask(job: FrameJob, payload: seq<Byte>)

  /** No output means an error completion. */
  datatype Completion = Completion(handle: nat, output: Option<Image>)

  datatype Running = Running(handle: nat, order: nat, work: Work)

  /** One stream slot; `running` is the frame it is busy with, `pending` what is not executed yet. */
  datatype Stream = Stream(running: Option<Running>, pending: seq<DeviceOp>, buffers: Buffers)

  /** Where an issued handle is. */
  datatype Fate = Launching | OnStream(i: nat) | Finished(k: nat)

  datatype Config = Config(tile: TileVariant, tileSize: int, constants: ConstantsMode, streamCount: nat, slotBytes: nat)

  /**
   `finished` keeps every completion ever made; the first `polled` of them have been
   reported. `asks` and `fates` have one element per issued handle, handle 1 first.
   `lookup` is what the launch under way has been told about its kernels, if it has asked.
   */
  datatype Backend = Backend(
    config: Config, alive: bool, poisoned: bool, cache: CacheState, streams: seq<Stream>,
    finished: seq<Completion>, polled: nat, nextHandle: nat, nextOrder: nat,
    launching: Option<nat>, lookup: Option<GetResult>, asks: seq<Ask>, fates: seq<Fate>)

  type Host = seq<seq<Byte>>

  function KeyFor(config: Config, chain: OpChain, channels: int): KernelKey {
    KernelKey(chain, channels, config.tile, config.tileSize, config.constants)
  }

  /** launch()'s checks of a job, before it looks at any resource. */
  predicate GoodJob(job: FrameJob) {
    && job.slot.Some? && GoodDimensions(job.width, job.height, job.channels)
    && job.stride == Times(job.width, job.channels)
  }

  function JobBytes(job: FrameJob): nat
    requires GoodDimensions(job.width, job.height, job.channels)
  {
    ByteCount(job.width, job.height, job.channels)
  }

  /** The image a job asks about: the front of its input. */
  function InputImage(job: FrameJob, input: seq<Byte>): Image
    requires GoodJob(job) && JobBytes(job) <= |input|
  {
    Image(job.width, job.height, job.channels, input[..JobBytes(job)])
  }

  function AskedHandle(b: Backend, h: nat): Ask
    requires 1 <= h <= |b.asks|
  {
    b.asks[h - 1]
  }

  datatype BackendStep =
    | Issue(job: FrameJob, host: Host)
    | FinishInline(host: Host)
    | FetchKernels(reply: BuildReply)
    | FailLaunch
    | Occupy(i: nat, work: Work)
    | Execute(i: nat, host: Host, sched: Schedule)
    | RetireStream(i: nat)
    | Fault(scratch: seq<Buffers>)
    | FailStream(i: nat)
    | Rebuild(contextBack: bool, made: seq<Buffers>)
    | Poll

  predicate Busy(b: Backend, i: nat) {
    i < |b.streams| && b.streams[i].running.Some?
  }

  predicate NoneBusy(b: Backend) {
    forall i :: 0 <= i < |b.streams| ==> b.streams[i].running.None?
  }

  predicate AllSized(buffers: seq<Buffers>, bytes: nat) {
    forall i :: 0 <= i < |buffers| ==> Sized(buffers[i], bytes)
  }

  predicate ConfigInv(config: Config) {
    SupportedTile(config.tile, config.tileSize) && SupportedConstants(config.constants, config.tile)
  }

  predicate UnderLaunch(b: Backend) {
    b.launching.Some? && 1 <= b.launching.value <= |b.asks| == |b.fates|
  }

  /** The job of the launch under way. */
  function LaunchJob(b: Backend): FrameJob
    requires UnderLaunch(b)
  {
    AskedHandle(b, b.launching.value).job
  }

  function LaunchKey(b: Backend): KernelKey
    requires UnderLaunch(b)
  {
    KeyFor(b.config, LaunchJob(b).chain, LaunchJob(b).channels)
  }

  /**
   What makes a launch fail: a driver error, no context, a malformed job, kernels that could
   not be had, or no buffers for the frame.
   */
  predicate HasFailed(b: Backend)
    requires UnderLaunch(b)
  {
    || b.poisoned || !b.alive || !GoodJob(LaunchJob(b))
    || (LaunchJob(b).chain != [] && b.lookup.Some?
        && (!b.lookup.value.Found? || b.streams == [] || b.config.slotBytes < JobBytes(LaunchJob(b))))
  }

  /** The work launch() queues for the handle it is launching: its own job and the kernels it was given. */
  ghost predicate WorkOf(b: Backend, job: FrameJob, work: Work) {
    && GoodJob(job) && job.chain != []
    && work.slot == job.slot.value && work.width == job.width && work.height == job.height
    && work.key == KeyFor(b.config, job.chain, job.channels)
    && b.lookup == Some(Found(work.kernels))
  }

  ghost predicate Enabled(b: Backend, step: BackendStep) {
    match step
    case Issue(job, host) =>
      && b.launching.None? && !b.poisoned
      && (job.slot.Some? ==> job.slot.value < |host| && |host[job.slot.value]| == b.config.slotBytes)
    case FinishInline(host) =>
      && UnderLaunch(b) && !b.poisoned && b.alive
      && (var job := LaunchJob(b);
          GoodJob(job) && job.chain == [] && job.slot.value < |host| && JobBytes(job) <= |host[job.slot.value]|)
    case FetchKernels(reply) =>
      && UnderLaunch(b) && !b.poisoned && b.alive && b.lookup.None?
      && GoodJob(LaunchJob(b)) && LaunchJob(b).chain != []
    case FailLaunch => UnderLaunch(b) && HasFailed(b)
    case Occupy(i, work) =>
      && UnderLaunch(b) && !b.poisoned && i < |b.streams| && b.streams[i].running.None?
      && WorkOf(b, LaunchJob(b), work)
      && ArgumentsExist(work) && WorkBytes(work) <= b.config.slotBytes
    case Execute(i, host, sched) =>
      && i < |b.streams| && b.streams[i].pending != []
      && InBounds(b.streams[i].pending[0], host, b.streams[i].buffers)
      && Scheduled(b.streams[i].pending[0], sched)
    case RetireStream(i) =>
      && !b.poisoned && Busy(b, i) && b.streams[i].pending == []
      && 1 <= b.streams[i].running.value.handle <= |b.fates|
      && ArgumentsExist(b.streams[i].running.value.work)
      && WorkBytes(b.streams[i].running.value.work) <= |b.streams[i].buffers.staging|
    case Fault(scratch) => |scratch| == |b.streams| && AllSized(scratch, b.config.slotBytes)
    case FailStream(i) => b.poisoned && Busy(b, i) && 1 <= b.streams[i].running.value.handle <= |b.fates|
    case Rebuild(contextBack, made) =>
      && b.poisoned && b.launching.None? && NoneBusy(b)
      && |made| <= b.config.streamCount && AllSized(made, b.config.slotBytes) && (!contextBack ==> made == [])
    case Poll => !b.poisoned && b.launching.None?
  }

  function IdleStreams(made: seq<Buffers>): (r: seq<Stream>)
    ensures |r| == |made|
  {
    seq(|made|, i requires 0 <= i < |made| => Stream(None, [], made[i]))
  }

  function Scrambled(streams: seq<Stream>, scratch: seq<Buffers>): (r: seq<Stream>)
    requires |scratch| == |streams|
    ensures |r| == |streams|
  {
    seq(|streams|, i requires 0 <= i < |streams| => streams[i].(buffers := scratch[i]))
  }

  /** Completing a handle: one more completion, and the handle's fate is that completion. */
  function Complete(b: Backend, h: nat, output: Option<Image>): Backend
    requires 1 <= h <= |b.fates|
  {
    b.(finished := b.finished + [Completion(h, output)], fates := b.fates[h - 1 := Finished(|b.finished|)])
  }

  function StagedImage(work: Work, staging: seq<Byte>): Image
    requires ArgumentsExist(work) && WorkBytes(work) <= |staging|
  {
    Image(work.width, work.height, work.key.channels, staging[..WorkBytes(work)])
  }

  function OccupyStream(nm: Numerics, b: Backend, i: nat, h: nat, work: Work): Backend
    requires i < |b.streams| && 1 <= h <= |b.fates| && ArgumentsExist(work)
  {
    b.(launching := None, nextOrder := b.nextOrder + 1, fates := b.fates[h - 1 := OnStream(i)],
       streams := b.streams[i := Stream(Some(Running(h, b.nextOrder, work)), WorkOps(nm, work), b.streams[i].buffers)])
  }

  function ExecuteHead(nm: Numerics, s: Stream, host: Host, sched: Schedule): Stream
    requires s.pending != [] && InBounds(s.pending[0], host, s.buffers)
  {
    s.(pending := s.pending[1..], buffers := ExecOp(nm, s.pending[0], host, s.buffers, sched))
  }

  function FreeStream(b: Backend, i: nat): Backend
    requires i < |b.streams|
  {
    b.(streams := b.streams[i := b.streams[i].(running := None)])
  }

  ghost function Apply(nm: Numerics, b: Backend, step: BackendStep): Backend
    requires Enabled(b, step)
  {
    match step
    case Issue(job, host) =>
      b.(launching := Some(b.nextHandle), lookup := None, nextHandle := b.nextHandle + 1, fates := b.fates + [Launching],
         asks := b.asks + [Ask(job, if job.slot.Some? then host[job.slot.value] else [])])
    case FinishInline(host) =>
      var job := LaunchJob(b);
      Complete(b, b.launching.value, Some(InputImage(job, host[job.slot.value]))).(launching := None)
    case FetchKernels(reply) =>
      var got := CacheGet(nm, b.cache, LaunchKey(b), reply);
      b.(cache := got.0, lookup := Some(got.1))
    case FailLaunch => Complete(b, b.launching.value, None).(launching := None)
    case Occupy(i, work) => OccupyStream(nm, b, i, b.launching.value, work)
    case Execute(i, host, sched) => b.(streams := b.streams[i := ExecuteHead(nm, b.streams[i], host, sched)])
    case RetireStream(i) =>
      var running := b.streams[i].running.value;
      FreeStream(Complete(b, running.handle, Some(StagedImage(running.work, b.streams[i].buffers.staging))), i)
    case Fault(scratch) => b.(poisoned := true, streams := Scrambled(b.streams, scratch))
    case FailStream(i) => FreeStream(Complete(b, b.streams[i].running.value.handle, None), i)
    case Rebuild(contextBack, made) =>
      b.(poisoned := false, alive := contextBack, cache := CacheClear(b.cache), streams := IdleStreams(made))
    case Poll => b.(polled := |b.finished|)
  }

  /** The state after a whole run, if every step of it was enabled. */
  ghost function Run(nm: Numerics, b: Backend, steps: seq<BackendStep>): Option<Backend> {
    if steps == [] then Some(b)
    else
      var m := Run(nm, b, steps[..|steps| - 1]);
      if m.Some? && Enabled(m.value, steps[|steps| - 1]) then Some(Apply(nm, m.value, steps[|steps| - 1])) else None
  }

  lemma RunOneMore(nm: Numerics, b: Backend, steps: seq<BackendStep>, m: Backend, step: BackendStep)
    requires Run(nm, b, steps) == Some(m) && Enabled(m, step)
    ensures Run(nm, b, steps + [step]) == Some(Apply(nm, m, step))
  {
    assert (steps + [step])[..|steps|] == steps;
  }

  /** A backend as constructed, with its streams built or not yet. */
  predicate Initial(b: Backend) {
    && b.alive && !b.poisoned && b.cache == CacheState([], 0) && b.config.streamCount > 0
    && (forall i :: 0 <= i < |b.streams| ==>
          b.streams[i].running.None? && b.streams[i].pending == [] && Sized(b.streams[i].buffers, b.config.slotBytes))
    && b.finished == [] && b.polled == 0 && b.nextHandle == 1 && b.nextOrder == 1
    && b.launching.None? && b.lookup.None? && b.asks == [] && b.fates == [] && ConfigInv(b.config)
  }

  // ------------------------------------------------------- every handle, exactly once

  predicate IssuedHandle(b: Backend, h: nat) {
    1 <= h <= |b.fates|
  }

  /** The three holders of a handle, each agreeing with its recorded fate. */
  predicate HoldersAgree(b: Backend) {
    && (b.launching.Some? ==> IssuedHandle(b, b.launching.value) && b.fates[b.launching.value - 1] == Launching)
    && (forall i :: 0 <= i < |b.streams| && b.streams[i].running.Some? ==>
          IssuedHandle(b, b.streams[i].running.value.handle)
          && b.fates[b.streams[i].running.value.handle - 1] == OnStream(i))
    && (forall k :: 0 <= k < |b.finished| ==>
          IssuedHandle(b, b.finished[k].handle) && b.fates[b.finished[k].handle - 1] == Finished(k))
  }

  /** Handle g + 1 is where its fate says. */
  predicate FateHolds(b: Backend, g: nat)
    requires g < |b.fates|
  {
    match b.fates[g]
    case Launching => b.launching == Some(g + 1)
    case OnStream(i) => i < |b.streams| && b.streams[i].running.Some? && b.streams[i].running.value.handle == g + 1
    case Finished(k) => k < |b.finished| && b.finished[k].handle == g + 1
  }

  predicate HandlesInv(b: Backend) {
    && |b.fates| + 1 == b.nextHandle && |b.asks| == |b.fates| && b.polled <= |b.finished|
    && HoldersAgree(b)
    && (forall g :: 0 <= g < |b.fates| ==> FateHolds(b, g))
  }

  lemma CompleteKeepsFates(b: Backend, h: nat, output: Option<Image>, e: Backend)
    requires HandlesInv(b) && IssuedHandle(b, h) && !b.fates[h - 1].Finished?
    requires e.fates == Complete(b, h, output).fates && e.finished == Complete(b, h, output).finished
    requires e.nextHandle == b.nextHandle && e.asks == b.asks && e.polled == b.polled
    requires b.fates[h - 1].Launching? ==> e.launching.None? && e.streams == b.streams
    requires b.fates[h - 1].OnStream? ==>
               e.launching == b.launching && b.fates[h - 1].i < |b.streams|
               && e.streams == b.streams[b.fates[h - 1].i := b.streams[b.fates[h - 1].i].(running := None)]
    ensures HandlesInv(e)
  {
    assert FateHolds(b, h - 1);
    forall g | 0 <= g < |e.fates| ensures FateHolds(e, g) {
      assert FateHolds(b, g);
    }
  }

  lemma StepKeepsHandles(nm: Numerics, b: Backend, step: BackendStep)
    requires HandlesInv(b) && Enabled(b, step)
    ensures HandlesInv(Apply(nm, b, step))
  {
    var e := Apply(nm, b, step);
    match step
    case FinishInline(host) =>
      var job := LaunchJob(b);
      CompleteKeepsFates(b, b.launching.value, Some(InputImage(job, host[job.slot.value])), e);
    case FailLaunch => CompleteKeepsFates(b, b.launching.value, None, e);
    case RetireStream(i) =>
      var running := b.streams[i].running.value;
      CompleteKeepsFates(b, running.handle, Some(StagedImage(running.work, b.streams[i].buffers.staging)), e);
    case FailStream(i) => CompleteKeepsFates(b, b.streams[i].running.value.handle, None, e);
    case Issue(_, _) => IssueKeepsFates(nm, b, step);
    case Occupy(i, work) => OccupyKeepsFates(nm, b, i, b.launching.value, work);
    case _ => QuietKeepsFates(b, e);
  }

  /** A step that moves no handle. */
  predicate MovesNoHandle(b: Backend, e: Backend) {
    && e.fates == b.fates && e.asks == b.asks && e.finished == b.finished && e.launching == b.launching
    && e.nextHandle == b.nextHandle && e.polled <= |e.finished|
    && (|e.streams| == |b.streams| || NoneBusy(b))
    && (forall i :: 0 <= i < |e.streams| ==>
          if i < |b.streams| then e.streams[i].running == b.streams[i].running else e.streams[i].running.None?)
  }

  lemma QuietKeepsFates(b: Backend, e: Backend)
    requires HandlesInv(b) && MovesNoHandle(b, e)
    ensures HandlesInv(e)
  {
    forall g | 0 <= g < |e.fates| ensures FateHolds(e, g) {
      assert FateHolds(b, g);
    }
  }

  lemma IssueKeepsFates(nm: Numerics, b: Backend, step: BackendStep)
    requires HandlesInv(b) && Enabled(b, step) && step.Issue?
    ensures HandlesInv(Apply(nm, b, step))
  {
    var e := Apply(nm, b, step);
    forall g | 0 <= g < |e.fates| ensures FateHolds(e, g) {
      if g < |b.fates| {
        assert FateHolds(b, g);
      }
    }
  }

  lemma OccupyKeepsFates(nm: Numerics, b: Backend, i: nat, h: nat, work: Work)
    requires HandlesInv(b) && b.launching == Some(h) && i < |b.streams| && b.streams[i].running.None?
    requires IssuedHandle(b, h) && ArgumentsExist(work)
    ensures HandlesInv(OccupyStream(nm, b, i, h, work))
  {
    var e := OccupyStream(nm, b, i, h, work);
    forall g | 0 <= g < |e.fates| ensures FateHolds(e, g) {
      assert FateHolds(b, g);
    }
  }

  lemma {:induction false} RunKeepsHandles(nm: Numerics, b: Backend, steps: seq<BackendStep>)
    requires Initial(b) && Run(nm, b, steps).Some?
    ensures HandlesInv(Run(nm, b, steps).value)
    decreases |steps|
  {
    if steps != [] {
      RunKeepsHandles(nm, b, steps[..|steps| - 1]);
      StepKeepsHandles(nm, Run(nm, b, steps[..|steps| - 1]).value, steps[|steps| - 1]);
    }
  }

  // The four places a handle can be.
  predicate Reported(b: Backend, h: nat) {
    exists k :: 0 <= k < b.polled && k < |b.finished| && b.finished[k].handle == h
  }

  predicate Waiting(b: Backend, h: nat) {
    exists k :: b.polled <= k < |b.finished| && b.finished[k].handle == h
  }

  predicate OnGpu(b: Backend, h: nat) {
    exists i :: 0 <= i < |b.streams| && b.streams[i].running.Some? && b.streams[i].running.value.handle == h
  }

  predicate ExactlyOne(p: bool, q: bool, r: bool, s: bool) {
    (p || q || r || s) && !(p && q) && !(p && r) && !(p && s) && !(q && r) && !(q && s) && !(r && s)
  }

  /** Each handle is in one place, nothing else is in any, and no place holds a handle twice. */
  ghost predicate HandlesPartitioned(e: Backend) {
    && (forall h: nat {:trigger Reported(e, h)} {:trigger Waiting(e, h)} {:trigger OnGpu(e, h)} ::
          if 1 <= h < e.nextHandle then ExactlyOne(Reported(e, h), Waiting(e, h), OnGpu(e, h), e.launching == Some(h))
          else !Reported(e, h) && !Waiting(e, h) && !OnGpu(e, h) && e.launching != Some(h))
    && (forall j, k :: 0 <= j < k < |e.finished| ==> e.finished[j].handle != e.finished[k].handle)
    && (forall i, j :: 0 <= i < j < |e.streams| && e.streams[i].running.Some? && e.streams[j].running.Some? ==>
          e.streams[i].running.value.handle != e.streams[j].running.value.handle)
  }

  lemma HandleHasOnePlace(e: Backend, h: nat)
    requires HandlesInv(e) && 1 <= h < e.nextHandle
    ensures ExactlyOne(Reported(e, h), Waiting(e, h), OnGpu(e, h), e.launching == Some(h))
  {
    assert FateHolds(e, h - 1);
  }

  lemma InvPartitions(e: Backend)
    requires HandlesInv(e)
    ensures HandlesPartitioned(e)
  {
    forall h: nat
      ensures if 1 <= h < e.nextHandle then ExactlyOne(Reported(e, h), Waiting(e, h), OnGpu(e, h), e.launching == Some(h))
              else !Reported(e, h) && !Waiting(e, h) && !OnGpu(e, h) && e.launching != Some(h)
    {
      if 1 <= h < e.nextHandle {
        HandleHasOnePlace(e, h);
      }
    }
  }

  /**
   Over any run mixing stalls, compile errors, driver errors at any point and rebuilds
   that succeed or fail: every handle ever issued is in exactly one of the four places
   and is completed at most once.
   */
  lemma HandlesAlwaysPartitioned(nm: Numerics, b: Backend, steps: seq<BackendStep>)
    requires Initial(b) && Run(nm, b, steps).Some?
    ensures HandlesPartitioned(Run(nm, b, steps).value)
  {
    RunKeepsHandles(nm, b, steps);
    InvPartitions(Run(nm, b, steps).value);
  }
}
