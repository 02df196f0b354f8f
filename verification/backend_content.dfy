/**
 What an ok completion carries. Every stream works through the operations of one asked
 job, its buffers hold the fold so far, and a retired stream's staging holds the chain
 applied to what the host slot held when the job was submitted.
 */
module BackendContent {
  import opened Chains
  import opened Images
  import opened Oracle
  import opened Launches
  import opened KernelKeys
  import opened Arguments
  import opened KernelCaches
  import opened Device
  import opened Backends

  /** `work` is the launch of `ask`, with the program its own key generates. */
  ghost predicate WorksOn(nm: Numerics, config: Config, ask: Ask, work: Work) {
    && GoodJob(ask.job) && ask.job.chain != [] && CanonicalChain(ask.job.chain) && |ask.payload| == config.slotBytes
    && work.slot == ask.job.slot.value && work.width == ask.job.width && work.height == ask.job.height
    && work.key == KeyFor(config, ask.job.chain, ask.job.channels)
    && GoodWork(nm, work) && ArgumentsExist(work) && WorkBytes(work) <= config.slotBytes
  }

  function Executed(work: Work, pending: seq<DeviceOp>): int {
    |work.kernels| + 3 - |pending|
  }

  /** What is still queued is the tail of the frame's operations. */
  ghost predicate TailOf(nm: Numerics, work: Work, pending: seq<DeviceOp>)
    requires ArgumentsExist(work)
  {
    Executed(work, pending) >= 0 && pending == WorkOps(nm, work)[Executed(work, pending)..]
  }

  /** The buffers are as far as the operations executed so far take them. */
  ghost predicate Advanced(nm: Numerics, ask: Ask, work: Work, s: Stream)
    requires GoodJob(ask.job) && JobBytes(ask.job) <= |ask.payload|
  {
    Executed(work, s.pending) >= 0
    && Progress(Goals(nm, ask.job.chain, InputImage(ask.job, ask.payload)), Executed(work, s.pending), s.buffers)
  }

  /** The job's launches are sure to fit 32-bit arithmetic; an empty chain launches nothing. */
  predicate Indexable(job: FrameJob)
    requires GoodJob(job)
  {
    job.chain == [] || JobBytes(job) <= MAX_INDEXED_BYTES
  }

  lemma IndexableFits(nm: Numerics, config: Config, ask: Ask, work: Work)
    requires WorksOn(nm, config, ask, work) && Indexable(ask.job)
    ensures WorkFits(work)
  {
    SmallWorkFits(nm, work);
  }

  ghost predicate BusyInv(nm: Numerics, config: Config, poisoned: bool, ask: Ask, s: Stream, work: Work) {
    && WorksOn(nm, config, ask, work) && TailOf(nm, work, s.pending)
    && (!poisoned && Indexable(ask.job) ==> Advanced(nm, ask, work, s))
  }

  ghost predicate StreamInv(nm: Numerics, config: Config, poisoned: bool, asks: seq<Ask>, s: Stream) {
    && Sized(s.buffers, config.slotBytes)
    && (s.running.None? && !poisoned ==> s.pending == [])
    && (s.running.Some? ==>
          && 1 <= s.running.value.handle <= |asks|
          && BusyInv(nm, config, poisoned, asks[s.running.value.handle - 1], s, s.running.value.work))
  }

  /** The chain applied to the asked image. */
  function Answer(nm: Numerics, ask: Ask): Image
    requires GoodJob(ask.job) && JobBytes(ask.job) <= |ask.payload|
  {
    ApplyChain(nm, InputImage(ask.job, ask.payload), ask.job.chain)
  }

  /** An ok completion carries the answer to its own handle's ask. */
  ghost predicate Answers(nm: Numerics, ask: Ask, output: Option<Image>) {
    output.Some? ==>
      && GoodJob(ask.job) && JobBytes(ask.job) <= |ask.payload|
      && (Indexable(ask.job) ==> output.value == Answer(nm, ask))
  }

  ghost predicate CompletionInv(nm: Numerics, asks: seq<Ask>, c: Completion) {
    1 <= c.handle <= |asks| && Answers(nm, asks[c.handle - 1], c.output)
  }

  ghost predicate AskInv(config: Config, ask: Ask) {
    CanonicalChain(ask.job.chain) && (ask.job.slot.Some? ==> |ask.payload| == config.slotBytes)
  }

  /** Kernels given to the launch under way are the program of its own key. */
  ghost predicate LookupInv(nm: Numerics, b: Backend) {
    UnderLaunch(b) && b.lookup.Some? && b.lookup.value.Found? ==>
      EmitProgram(nm, LaunchKey(b)) == Some(b.lookup.value.kernels)
  }

  ghost predicate ContentInv(nm: Numerics, b: Backend) {
    && ConfigInv(b.config) && CacheHonest(nm, b.cache.entries) && LookupInv(nm, b)
    && (forall g :: 0 <= g < |b.asks| ==> AskInv(b.config, b.asks[g]))
    && (forall i :: 0 <= i < |b.streams| ==> StreamInv(nm, b.config, b.poisoned, b.asks, b.streams[i]))
    && (forall k :: 0 <= k < |b.finished| ==> CompletionInv(nm, b.asks, b.finished[k]))
  }

  // ------------------------------------------------------------------ the host side

  predicate SlotKept(ask: Ask, host: Host) {
    ask.job.slot.Some? ==> ask.job.slot.value < |host| && host[ask.job.slot.value] == ask.payload
  }

  /** The copy in of the frame on stream i has not run. */
  predicate AwaitsInput(s: Stream) {
    s.running.Some? && |s.pending| >= |s.running.value.work.kernels| + 3
  }

  ghost predicate InputKept(asks: seq<Ask>, s: Stream, host: Host) {
    AwaitsInput(s) && 1 <= s.running.value.handle <= |asks| ==> SlotKept(asks[s.running.value.handle - 1], host)
  }

  /** Every input that may still be read holds what it held when it was submitted. */
  ghost predicate HostKept(b: Backend, host: Host) {
    && (b.launching.Some? && 1 <= b.launching.value <= |b.asks| ==> SlotKept(AskedHandle(b, b.launching.value), host))
    && (forall i :: 0 <= i < |b.streams| ==> InputKept(b.asks, b.streams[i], host))
  }

  /** The step sees this host memory. */
  predicate Sees(step: BackendStep, host: Host) {
    match step
    case Issue(_, h) => h == host
    case FinishInline(h) => h == host
    case Execute(_, h, _) => h == host
    case _ => true
  }

  /** The step brings no chain but a canonical one. */
  predicate BringsCanonical(step: BackendStep) {
    step.Issue? ==> CanonicalChain(step.job.chain)
  }

  /** Every chain submitted so far is canonical. */
  predicate AsksCanonical(asks: seq<Ask>) {
    forall g :: 0 <= g < |asks| ==> CanonicalChain(asks[g].job.chain)
  }

  // ------------------------------------------------------------------ one stream

  lemma TailStep(nm: Numerics, work: Work, pending: seq<DeviceOp>)
    requires ArgumentsExist(work) && TailOf(nm, work, pending) && pending != []
    ensures pending[0] == WorkOp(nm, work, Executed(work, pending))
    ensures TailOf(nm, work, pending[1..])
  {
    var ops, j := WorkOps(nm, work), Executed(work, pending);
    assert ops[j..][0] == ops[j] && ops[j..][1..] == ops[j + 1..];
  }

  /** The next operation of a busy stream is inside its buffers and its slot. */
  lemma NextInBounds(nm: Numerics, config: Config, ask: Ask, s: Stream, work: Work, host: Host)
    requires WorksOn(nm, config, ask, work) && Indexable(ask.job) && TailOf(nm, work, s.pending) && s.pending != []
    requires Sized(s.buffers, config.slotBytes)
    requires Executed(work, s.pending) == 0 ==> SlotKept(ask, host)
    ensures InBounds(s.pending[0], host, s.buffers)
  {
    TailStep(nm, work, s.pending);
    IndexableFits(nm, config, ask, work);
    var j := Executed(work, s.pending);
    var large := seq(work.slot + 1, _ => ask.payload);
    WorkInBounds(nm, work, j, if j == 0 then host else large, s.buffers, config.slotBytes);
  }

  lemma AskIsFrame(ask: Ask, config: Config, work: Work)
    requires GoodJob(ask.job) && JobBytes(ask.job) <= |ask.payload|
    requires work.width == ask.job.width && work.height == ask.job.height && work.key.channels == ask.job.channels
    ensures IsFrame(work, InputImage(ask.job, ask.payload))
    ensures Holds(ask.payload, InputImage(ask.job, ask.payload))
  {
  }

  lemma ExecuteAdvances(nm: Numerics, img: Image, s: Stream, work: Work, host: Host, sched: Schedule, t: Stream)
    requires IsFrame(work, img) && GoodWork(nm, work) && WorkFits(work) && ArgumentsExist(work)
    requires s.pending != [] && Executed(work, s.pending) >= 0
    requires Progress(Goals(nm, work.key.chain, img), Executed(work, s.pending), s.buffers)
    requires s.pending[0] == WorkOp(nm, work, Executed(work, s.pending))
    requires InBounds(s.pending[0], host, s.buffers) && Scheduled(s.pending[0], sched)
    requires Executed(work, s.pending) == 0 ==> Holds(host[work.slot], img)
    requires |t.pending| == |s.pending| - 1 && t.buffers == ExecOp(nm, s.pending[0], host, s.buffers, sched)
    ensures Progress(Goals(nm, work.key.chain, img), Executed(work, t.pending), t.buffers)
  {
    WorkAdvances(nm, work, img, Goals(nm, work.key.chain, img), Executed(work, s.pending), host, s.buffers, sched);
  }

  /** Executing the next operation keeps a busy stream on its way. */
  lemma ExecuteKeepsBusy(nm: Numerics, config: Config, poisoned: bool, ask: Ask, s: Stream, work: Work, host: Host, sched: Schedule)
    requires BusyInv(nm, config, poisoned, ask, s, work) && s.pending != []
    requires Executed(work, s.pending) == 0 ==> SlotKept(ask, host)
    requires InBounds(s.pending[0], host, s.buffers) && Scheduled(s.pending[0], sched)
    ensures BusyInv(nm, config, poisoned, ask, ExecuteHead(nm, s, host, sched), work)
  {
    TailStep(nm, work, s.pending);
    if !poisoned && Indexable(ask.job) {
      IndexableFits(nm, config, ask, work);
      AskIsFrame(ask, config, work);
      ExecuteAdvances(nm, InputImage(ask.job, ask.payload), s, work, host, sched, ExecuteHead(nm, s, host, sched));
    }
  }

  /** A stream whose operations are all executed has the answer staged. */
  lemma DrainedHasAnswer(nm: Numerics, config: Config, ask: Ask, s: Stream, work: Work)
    requires BusyInv(nm, config, false, ask, s, work) && Indexable(ask.job)
    requires s.pending == [] && Sized(s.buffers, config.slotBytes)
    ensures StagedImage(work, s.buffers.staging) == Answer(nm, ask)
  {
    var img := InputImage(ask.job, ask.payload);
    var goals := Goals(nm, ask.job.chain, img);
    AskIsFrame(ask, config, work);
    GoalShape(nm, ask.job.chain, img, |work.kernels|);
    LastGoal(nm, ask.job.chain, img);
    assert Progress(goals, |work.kernels| + 3, s.buffers);
  }

  lemma StartsBusy(nm: Numerics, config: Config, ask: Ask, s: Stream, work: Work)
    requires WorksOn(nm, config, ask, work) && s.pending == WorkOps(nm, work)
    ensures BusyInv(nm, config, false, ask, s, work)
  {
    assert WorkOps(nm, work)[0..] == WorkOps(nm, work);
  }

  /** The kernels the launch was given make good work. */
  lemma GivenIsGood(nm: Numerics, b: Backend, work: Work)
    requires ConfigInv(b.config) && LookupInv(nm, b) && UnderLaunch(b) && CanonicalChain(LaunchJob(b).chain)
    requires WorkOf(b, LaunchJob(b), work)
    ensures GoodWork(nm, work)
  {
    CanonicalTapsFit(LaunchJob(b).chain);
  }

  lemma GivenWorks(nm: Numerics, b: Backend, work: Work)
    requires ConfigInv(b.config) && LookupInv(nm, b) && UnderLaunch(b) && AskInv(b.config, AskedHandle(b, b.launching.value))
    requires WorkOf(b, LaunchJob(b), work) && ArgumentsExist(work) && WorkBytes(work) <= b.config.slotBytes
    ensures WorksOn(nm, b.config, AskedHandle(b, b.launching.value), work)
  {
    GivenIsGood(nm, b, work);
  }

  // ------------------------------------------------------------------ every step

  /** Streams and completions keep their meaning when more is asked. */
  lemma AsksGrow(nm: Numerics, b: Backend, ask: Ask)
    requires ContentInv(nm, b) && AskInv(b.config, ask) && b.launching.None?
    ensures ContentInv(nm, b.(asks := b.asks + [ask]))
  {
    var e := b.(asks := b.asks + [ask]);
    forall i | 0 <= i < |e.streams| ensures StreamInv(nm, e.config, e.poisoned, e.asks, e.streams[i]) {
      assert StreamInv(nm, b.config, b.poisoned, b.asks, b.streams[i]);
    }
    forall k | 0 <= k < |e.finished| ensures CompletionInv(nm, e.asks, e.finished[k]) {
      assert CompletionInv(nm, b.asks, b.finished[k]);
    }
  }

  lemma OneMoreCompletion(nm: Numerics, b: Backend, h: nat, output: Option<Image>)
    requires ContentInv(nm, b) && 1 <= h <= |b.asks| == |b.fates| && Answers(nm, b.asks[h - 1], output)
    ensures ContentInv(nm, Complete(b, h, output))
  {
  }

  /** Completing a handle and freeing the stream that ran it. */
  lemma FreeingKeepsContent(nm: Numerics, b: Backend, i: nat, h: nat, output: Option<Image>)
    requires ContentInv(nm, b) && i < |b.streams| && (b.streams[i].pending == [] || b.poisoned)
    requires 1 <= h <= |b.asks| == |b.fates| && Answers(nm, b.asks[h - 1], output)
    ensures ContentInv(nm, FreeStream(Complete(b, h, output), i))
  {
    OneMoreCompletion(nm, b, h, output);
    assert StreamInv(nm, b.config, b.poisoned, b.asks, b.streams[i]);
    StreamReplaced(nm, Complete(b, h, output), i, b.streams[i].(running := None), FreeStream(Complete(b, h, output), i));
  }

  /** What a drained stream has staged answers its own ask. */
  lemma DrainedAnswers(nm: Numerics, config: Config, ask: Ask, s: Stream, work: Work)
    requires BusyInv(nm, config, false, ask, s, work) && s.pending == [] && Sized(s.buffers, config.slotBytes)
    ensures Answers(nm, ask, Some(StagedImage(work, s.buffers.staging)))
  {
    if Indexable(ask.job) {
      DrainedHasAnswer(nm, config, ask, s, work);
    }
  }

  lemma StreamAnswers(nm: Numerics, config: Config, asks: seq<Ask>, s: Stream)
    requires StreamInv(nm, config, false, asks, s) && s.running.Some? && s.pending == []
    ensures 1 <= s.running.value.handle <= |asks| && WorkBytes(s.running.value.work) <= |s.buffers.staging|
    ensures Answers(nm, asks[s.running.value.handle - 1], Some(StagedImage(s.running.value.work, s.buffers.staging)))
  {
    DrainedAnswers(nm, config, asks[s.running.value.handle - 1], s, s.running.value.work);
  }

  /** A drained stream on a healthy backend, as the handles and the step have it. */
  lemma RetireRuns(nm: Numerics, b: Backend, i: nat)
    requires HandlesInv(b) && Enabled(b, RetireStream(i))
    ensures i < |b.streams| && b.streams[i].running.Some? && b.streams[i].pending == [] && !b.poisoned && |b.asks| == |b.fates|
    ensures var work := b.streams[i].running.value.work;
            WorkBytes(work) <= |b.streams[i].buffers.staging|
            && Apply(nm, b, RetireStream(i))
               == FreeStream(Complete(b, b.streams[i].running.value.handle, Some(StagedImage(work, b.streams[i].buffers.staging))), i)
  {
  }

  lemma RetireKeepsContent(nm: Numerics, b: Backend, i: nat)
    requires ContentInv(nm, b) && HandlesInv(b) && Enabled(b, RetireStream(i))
    ensures ContentInv(nm, Apply(nm, b, RetireStream(i)))
  {
    RetireRuns(nm, b, i);
    var s := b.streams[i];
    StreamAnswers(nm, b.config, b.asks, s);
    FreeingKeepsContent(nm, b, i, s.running.value.handle, Some(StagedImage(s.running.value.work, s.buffers.staging)));
  }

  lemma InlineKeepsContent(nm: Numerics, b: Backend, host: Host)
    requires ContentInv(nm, b) && HandlesInv(b) && Enabled(b, FinishInline(host)) && HostKept(b, host)
    ensures ContentInv(nm, Apply(nm, b, FinishInline(host)))
  {
    var h := b.launching.value;
    var ask := b.asks[h - 1];
    assert AskInv(b.config, ask);
    assert InputImage(ask.job, host[ask.job.slot.value]) == Answer(nm, ask);
    OneMoreCompletion(nm, b, h, Some(Answer(nm, ask)));
  }

  /** One stream changed, and its new content is sound. */
  lemma StreamReplaced(nm: Numerics, b: Backend, i: nat, s: Stream, e: Backend)
    requires ContentInv(nm, b) && i < |b.streams| && StreamInv(nm, b.config, b.poisoned, b.asks, s)
    requires e.config == b.config && e.poisoned == b.poisoned && e.asks == b.asks && e.finished == b.finished
    requires e.cache == b.cache && e.streams == b.streams[i := s]
    requires e.launching.None? || (e.launching == b.launching && e.lookup == b.lookup && |e.fates| == |b.fates|)
    ensures ContentInv(nm, e)
  {
  }

  /** A stream that has just taken a frame is at the start of that frame's work. */
  lemma NewlyBusy(nm: Numerics, config: Config, asks: seq<Ask>, h: nat, s: Stream, work: Work)
    requires 1 <= h <= |asks| && WorksOn(nm, config, asks[h - 1], work) && Sized(s.buffers, config.slotBytes)
    requires s.running.Some? && s.running.value.handle == h && s.running.value.work == work
    requires s.pending == WorkOps(nm, work)
    ensures StreamInv(nm, config, false, asks, s)
  {
    StartsBusy(nm, config, asks[h - 1], s, work);
  }

  ghost predicate Occupiable(b: Backend, i: nat, h: nat, work: Work) {
    && i < |b.streams| && b.launching == Some(h) && UnderLaunch(b) && !b.poisoned
    && WorkOf(b, LaunchJob(b), work) && ArgumentsExist(work) && WorkBytes(work) <= b.config.slotBytes
  }

  lemma OccupyRuns(nm: Numerics, b: Backend, i: nat, work: Work)
    requires Enabled(b, Occupy(i, work))
    ensures b.launching.Some? && b.launching.value >= 0 && Occupiable(b, i, b.launching.value, work)
    ensures Apply(nm, b, Occupy(i, work)) == OccupyStream(nm, b, i, b.launching.value, work)
  {
  }

  lemma OccupiedIsSound(nm: Numerics, b: Backend, i: nat, h: nat, work: Work)
    requires ContentInv(nm, b) && Occupiable(b, i, h, work)
    ensures StreamInv(nm, b.config, false, b.asks, OccupyStream(nm, b, i, h, work).streams[i])
  {
    assert AskInv(b.config, b.asks[h - 1]) && StreamInv(nm, b.config, b.poisoned, b.asks, b.streams[i]);
    GivenWorks(nm, b, work);
    NewlyBusy(nm, b.config, b.asks, h, OccupyStream(nm, b, i, h, work).streams[i], work);
  }

  lemma OccupiedKeepsContent(nm: Numerics, b: Backend, i: nat, h: nat, work: Work)
    requires ContentInv(nm, b) && Occupiable(b, i, h, work)
    ensures ContentInv(nm, OccupyStream(nm, b, i, h, work))
  {
    OccupiedIsSound(nm, b, i, h, work);
    StreamReplaced(nm, b, i, OccupyStream(nm, b, i, h, work).streams[i], OccupyStream(nm, b, i, h, work));
  }

  lemma OccupyKeepsContent(nm: Numerics, b: Backend, i: nat, work: Work)
    requires ContentInv(nm, b) && Enabled(b, Occupy(i, work))
    ensures ContentInv(nm, Apply(nm, b, Occupy(i, work)))
  {
    OccupyRuns(nm, b, i, work);
    OccupiedKeepsContent(nm, b, i, b.launching.value, work);
  }

  /** A stream that moved on keeps its invariant if its frame is still on its way. */
  lemma StreamGoesOn(nm: Numerics, config: Config, poisoned: bool, asks: seq<Ask>, t: Stream)
    requires Sized(t.buffers, config.slotBytes) && (t.running.None? ==> poisoned)
    requires t.running.Some? ==>
               && 1 <= t.running.value.handle <= |asks|
               && BusyInv(nm, config, poisoned, asks[t.running.value.handle - 1], t, t.running.value.work)
    ensures StreamInv(nm, config, poisoned, asks, t)
  {
  }

  lemma ExecuteKeepsStream(nm: Numerics, config: Config, poisoned: bool, asks: seq<Ask>, s: Stream, host: Host, sched: Schedule)
    requires StreamInv(nm, config, poisoned, asks, s) && InputKept(asks, s, host)
    requires s.pending != [] && InBounds(s.pending[0], host, s.buffers) && Scheduled(s.pending[0], sched)
    ensures StreamInv(nm, config, poisoned, asks, ExecuteHead(nm, s, host, sched))
  {
    ExecKeepsSizes(nm, s.pending[0], host, s.buffers, sched, config.slotBytes);
    if s.running.Some? {
      ExecuteKeepsBusy(nm, config, poisoned, asks[s.running.value.handle - 1], s, s.running.value.work, host, sched);
    }
    StreamGoesOn(nm, config, poisoned, asks, ExecuteHead(nm, s, host, sched));
  }

  lemma ExecuteKeepsContent(nm: Numerics, b: Backend, i: nat, host: Host, sched: Schedule)
    requires ContentInv(nm, b) && Enabled(b, Execute(i, host, sched)) && HostKept(b, host)
    ensures ContentInv(nm, Apply(nm, b, Execute(i, host, sched)))
  {
    ExecuteKeepsStream(nm, b.config, b.poisoned, b.asks, b.streams[i], host, sched);
    StreamReplaced(nm, b, i, ExecuteHead(nm, b.streams[i], host, sched), Apply(nm, b, Execute(i, host, sched)));
  }

  lemma PoisonKeepsBusy(nm: Numerics, config: Config, poisoned: bool, ask: Ask, s: Stream, t: Stream, work: Work)
    requires BusyInv(nm, config, poisoned, ask, s, work) && t.pending == s.pending
    ensures BusyInv(nm, config, true, ask, t, work)
  {
  }

  lemma FaultKeepsStream(nm: Numerics, config: Config, poisoned: bool, asks: seq<Ask>, s: Stream, t: Stream)
    requires StreamInv(nm, config, poisoned, asks, s) && Sized(t.buffers, config.slotBytes)
    requires t.running == s.running && t.pending == s.pending
    ensures StreamInv(nm, config, true, asks, t)
  {
    if t.running.Some? {
      PoisonKeepsBusy(nm, config, poisoned, asks[s.running.value.handle - 1], s, t, s.running.value.work);
    }
    StreamGoesOn(nm, config, true, asks, t);
  }

  lemma FaultKeepsContent(nm: Numerics, b: Backend, scratch: seq<Buffers>)
    requires ContentInv(nm, b) && Enabled(b, Fault(scratch))
    ensures ContentInv(nm, Apply(nm, b, Fault(scratch)))
  {
    var e := Apply(nm, b, Fault(scratch));
    forall i | 0 <= i < |e.streams| ensures StreamInv(nm, e.config, e.poisoned, e.asks, e.streams[i]) {
      FaultKeepsStream(nm, b.config, b.poisoned, b.asks, b.streams[i], e.streams[i]);
    }
  }

  lemma RebuildKeepsContent(nm: Numerics, b: Backend, contextBack: bool, made: seq<Buffers>)
    requires ContentInv(nm, b) && Enabled(b, Rebuild(contextBack, made))
    ensures ContentInv(nm, Apply(nm, b, Rebuild(contextBack, made)))
  {
  }

  lemma FetchKeepsContent(nm: Numerics, b: Backend, reply: BuildReply)
    requires ContentInv(nm, b) && Enabled(b, FetchKernels(reply))
    ensures ContentInv(nm, Apply(nm, b, FetchKernels(reply)))
  {
    assert AskInv(b.config, AskedHandle(b, b.launching.value));
    GetIsTransparent(nm, b.cache, LaunchKey(b), reply);
  }

  lemma StepKeepsContent(nm: Numerics, b: Backend, step: BackendStep, host: Host)
    requires ContentInv(nm, b) && HandlesInv(b) && HostKept(b, host) && Sees(step, host) && Enabled(b, step)
    requires BringsCanonical(step)
    ensures ContentInv(nm, Apply(nm, b, step))
  {
    match step
    case Issue(job, h) => AsksGrow(nm, b, Ask(job, if job.slot.Some? then host[job.slot.value] else []));
    case FinishInline(_) => InlineKeepsContent(nm, b, host);
    case FetchKernels(reply) => FetchKeepsContent(nm, b, reply);
    case FailLaunch => OneMoreCompletion(nm, b, b.launching.value, None);
    case Occupy(i, work) => OccupyKeepsContent(nm, b, i, work);
    case Execute(i, _, sched) => ExecuteKeepsContent(nm, b, i, host, sched);
    case RetireStream(i) => RetireKeepsContent(nm, b, i);
    case Fault(scratch) => FaultKeepsContent(nm, b, scratch);
    case FailStream(i) => FreeingKeepsContent(nm, b, i, b.streams[i].running.value.handle, None);
    case Rebuild(contextBack, made) => RebuildKeepsContent(nm, b, contextBack, made);
    case Poll =>
  }

  /** A step that leaves the asks alone and frees, executes or rebuilds streams. */
  lemma StreamsKeepHost(b: Backend, e: Backend, host: Host)
    requires HostKept(b, host) && e.asks == b.asks && (e.launching == b.launching || e.launching.None?)
    requires forall i :: 0 <= i < |e.streams| && e.streams[i].running.Some? ==>
               i < |b.streams| && e.streams[i].running == b.streams[i].running
               && |e.streams[i].pending| <= |b.streams[i].pending|
    ensures HostKept(e, host)
  {
    forall i | 0 <= i < |e.streams| ensures InputKept(e.asks, e.streams[i], host) {
      assert i < |b.streams| ==> InputKept(b.asks, b.streams[i], host);
    }
  }

  lemma IssueKeepsHost(nm: Numerics, b: Backend, step: BackendStep, host: Host)
    requires HandlesInv(b) && HostKept(b, host) && Sees(step, host) && Enabled(b, step) && step.Issue?
    ensures HostKept(Apply(nm, b, step), host)
  {
    var e := Apply(nm, b, step);
    forall i | 0 <= i < |e.streams| ensures InputKept(e.asks, e.streams[i], host) {
      assert InputKept(b.asks, b.streams[i], host);
    }
  }

  lemma OccupyKeepsHost(nm: Numerics, b: Backend, i: nat, h: nat, work: Work, host: Host)
    requires HandlesInv(b) && HostKept(b, host) && b.launching == Some(h) && 1 <= h <= |b.asks|
    requires i < |b.streams| && ArgumentsExist(work)
    ensures HostKept(OccupyStream(nm, b, i, h, work), host)
  {
    var e := OccupyStream(nm, b, i, h, work);
    forall j | 0 <= j < |e.streams| ensures InputKept(e.asks, e.streams[j], host) {
      assert InputKept(b.asks, b.streams[j], host);
    }
  }

  /** No step of the backend makes a kept input stop being kept. */
  lemma StepKeepsHost(nm: Numerics, b: Backend, step: BackendStep, host: Host)
    requires HandlesInv(b) && HostKept(b, host) && Sees(step, host) && Enabled(b, step)
    ensures HostKept(Apply(nm, b, step), host)
  {
    match step
    case Issue(_, _) => IssueKeepsHost(nm, b, step, host);
    case Occupy(i, work) => OccupyKeepsHost(nm, b, i, b.launching.value, work, host);
    case _ => StreamsKeepHost(b, Apply(nm, b, step), host);
  }

  lemma InitialContent(nm: Numerics, b: Backend, host: Host)
    requires Initial(b)
    ensures ContentInv(nm, b) && HandlesInv(b) && HostKept(b, host)
  {
  }

  /** A new backend, but for what prewarm() has put into its cache. */
  ghost predicate Warmed(nm: Numerics, b: Backend) {
    Initial(b.(cache := CacheState([], 0))) && CacheHonest(nm, b.cache.entries)
  }

  /** prewarm(): the lookup a first frame would make; an empty chain has no kernels. */
  function Prewarmed(nm: Numerics, b: Backend, chain: OpChain, channels: int, reply: BuildReply): Backend {
    if chain == [] then b else b.(cache := CacheGet(nm, b.cache, KeyFor(b.config, chain, channels), reply).0)
  }

  lemma PrewarmKeepsWarmed(nm: Numerics, b: Backend, chain: OpChain, channels: int, reply: BuildReply)
    requires Warmed(nm, b) && CanonicalChain(chain)
    ensures Warmed(nm, Prewarmed(nm, b, chain, channels, reply))
  {
    GetIsTransparent(nm, b.cache, KeyFor(b.config, chain, channels), reply);
  }

  lemma WarmedContent(nm: Numerics, b: Backend, host: Host)
    requires Warmed(nm, b)
    ensures ContentInv(nm, b) && HandlesInv(b) && HostKept(b, host)
  {
    InitialContent(nm, b.(cache := CacheState([], 0)), host);
  }
}
