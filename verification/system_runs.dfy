/**
 Every run of the whole system. In any interleaving of readers, writers, the worker,
 stop() and the GPU, an ok response carries its own chain applied to exactly the payload
 received for its own frame.
 */
module SystemRuns {
  import opened Samples
  import opened Chains
  import opened Images
  import opened Oracle
  import opened Device
  import opened Protocol
  import opened Backends
  import opened BackendContent
  import opened Systems
  import S = ServerModel
  import ServerPlaces
  import ServerSlots
  import ServerBytes
  import ServerAnswers
  import ServerRuns

  /** The image a frame carries, as the client declared and sent it. */
  function FrameImage(f: S.Frame): Image {
    Image(f.header.width, f.header.height, f.header.channels, f.payload)
  }

  /** The frame's launches are sure to fit 32-bit arithmetic; an empty chain launches nothing. */
  predicate FrameIndexable(f: S.Frame) {
    f.chain == [] || f.header.payloadLen <= MAX_INDEXED_BYTES
  }

  /** An ok response is the frame's chain, folded over the frame's own image. */
  ghost predicate TrueResponse(nm: Numerics, f: S.Frame, image: Option<Image>) {
    image.Some? ==>
      WellFormed(FrameImage(f)) && (FrameIndexable(f) ==> image.value == ApplyChain(nm, FrameImage(f), f.chain))
  }

  ghost predicate TrueEntry(nm: Numerics, s: S.Server, a: S.Answer) {
    a.origin.OfFrame? && a.origin.ticket < |s.frames| ==> TrueResponse(nm, s.frames[a.origin.ticket], a.response.image)
  }

  ghost predicate TrueAnswers(nm: Numerics, s: S.Server) {
    forall c, p :: 0 <= c < |s.conns| && 0 <= p < |s.conns[c].answers| ==> TrueEntry(nm, s, s.conns[c].answers[p])
  }

  /**
   What the backend was asked about a frame is that frame's image: past validation and
   narrowing, the slot's front is the payload and nothing else.
   */
  lemma FrameIsAsked(f: S.Frame, limits: Limits, payload: seq<Byte>)
    requires Validate(f.header, limits) == Ok && |f.payload| == f.header.payloadLen
    requires ServerBytes.Prefixed(payload, f.payload) && GoodJob(JobOf(f))
    ensures JobBytes(JobOf(f)) == f.header.payloadLen <= |payload|
    ensures InputImage(JobOf(f), payload) == FrameImage(f) && WellFormed(FrameImage(f))
  {
    ServedFrameIsExact(f.header, limits);
  }

  lemma AnswerIsTrue(nm: Numerics, f: S.Frame, limits: Limits, ask: Ask, output: Option<Image>)
    requires Validate(f.header, limits) == Ok && |f.payload| == f.header.payloadLen
    requires ask.job == JobOf(f) && ServerBytes.Prefixed(ask.payload, f.payload) && Answers(nm, ask, output)
    ensures TrueResponse(nm, f, output)
  {
    if output.Some? {
      FrameIsAsked(f, limits, ask.payload);
    }
  }

  /** An ok completion is a true response to the frame behind its handle. */
  lemma CompletionIsTrue(nm: Numerics, s: S.Server, b: Backend, k: nat)
    requires ServerSlots.Shape(s) && Linked(s, b) && k < |b.finished| && CompletionInv(nm, b.asks, b.finished[k])
    ensures var h := b.finished[k].handle;
            h in s.tickets && s.tickets[h] < |s.frames| && TrueResponse(nm, s.frames[s.tickets[h]], b.finished[k].output)
  {
    var h := b.finished[k].handle;
    assert FinishedOk(s, b, k) && AskOk(s, b, h);
    var f := s.frames[s.tickets[h]];
    assert ServerSlots.FrameOk(s, f);
    AnswerIsTrue(nm, f, s.settings.limits, b.asks[h - 1], b.finished[k].output);
  }

  lemma RespondIsTrue(nm: Numerics, s: S.Server, b: Backend)
    requires ServerSlots.Shape(s) && Linked(s, b) && S.WorkerCan(s, S.Respond)
    requires ServerPlaces.HandleInv(s.tickets, s.issued, s.phases) && s.phases[s.worker.ticket] == S.Freed(s.worker.done.handle)
    requires forall k :: 0 <= k < |b.finished| ==> CompletionInv(nm, b.asks, b.finished[k])
    ensures TrueResponse(nm, s.frames[s.worker.ticket], s.worker.done.output)
  {
    CompletionIsTrue(nm, s, b, Retired(s, b) - 1);
    assert s.tickets[s.worker.done.handle] == s.worker.ticket;
  }

  lemma RespondKeepsTrue(nm: Numerics, s: S.Server)
    requires TrueAnswers(nm, s) && S.WorkerCan(s, S.Respond)
    requires TrueResponse(nm, s.frames[s.worker.ticket], s.worker.done.output)
    ensures TrueAnswers(nm, S.WorkerNext(s, S.Respond))
  {
    var e := S.WorkerNext(s, S.Respond);
    forall c, p | 0 <= c < |e.conns| && 0 <= p < |e.conns[c].answers| ensures TrueEntry(nm, e, e.conns[c].answers[p]) {
      assert p < |s.conns[c].answers| ==> TrueEntry(nm, s, s.conns[c].answers[p]);
    }
  }

  /** Steps that add no frame's response: old entries stay, new ones answer headers. */
  predicate NoFrameAnswer(s: S.Server, e: S.Server) {
    && s.frames <= e.frames && |s.conns| <= |e.conns|
    && (forall c :: 0 <= c < |s.conns| ==> s.conns[c].answers <= e.conns[c].answers)
    && (forall c, p :: 0 <= c < |s.conns| && |s.conns[c].answers| <= p < |e.conns[c].answers| ==>
          e.conns[c].answers[p].origin.OfHeader?)
    && (forall c :: |s.conns| <= c < |e.conns| ==> e.conns[c].answers == [])
  }

  lemma QuietKeepsTrue(nm: Numerics, s: S.Server, e: S.Server)
    requires TrueAnswers(nm, s) && NoFrameAnswer(s, e)
    requires forall c, p :: 0 <= c < |s.conns| && 0 <= p < |s.conns[c].answers| && s.conns[c].answers[p].origin.OfFrame? ==>
               s.conns[c].answers[p].origin.ticket < |s.frames|
    ensures TrueAnswers(nm, e)
  {
    forall c, p | 0 <= c < |e.conns| && 0 <= p < |e.conns[c].answers| ensures TrueEntry(nm, e, e.conns[c].answers[p]) {
      if c < |s.conns| && p < |s.conns[c].answers| {
        assert TrueEntry(nm, s, s.conns[c].answers[p]);
      }
    }
  }

  lemma ReaderAddsNoFrameAnswer(s: S.Server, c: nat, step: S.ReaderStep)
    requires S.ReaderCan(s, c, step)
    ensures NoFrameAnswer(s, S.ReaderNext(s, c, step))
  {
  }

  lemma WorkerAddsNoFrameAnswer(s: S.Server, step: S.WorkerStep)
    requires S.WorkerCan(s, step) && step != S.Respond
    ensures NoFrameAnswer(s, S.WorkerNext(s, step))
  {
  }

  lemma StepAddsNoFrameAnswer(s: S.Server, step: S.Step)
    requires S.Can(s, step) && step != S.ByWorker(S.Respond)
    ensures NoFrameAnswer(s, S.Next(s, step))
  {
    match step
    case ByReader(c, reader) => ReaderAddsNoFrameAnswer(s, c, reader);
    case ByWorker(worker) => WorkerAddsNoFrameAnswer(s, worker);
    case _ =>
  }

  lemma ServerKeepsTrue(nm: Numerics, s: S.Server, b: Backend, step: S.Step)
    requires ServerSlots.Shape(s) && ServerPlaces.PlacesInv(s) && ServerAnswers.AnswersInv(s) && Linked(s, b)
    requires TrueAnswers(nm, s) && S.Can(s, step)
    requires forall k :: 0 <= k < |b.finished| ==> CompletionInv(nm, b.asks, b.finished[k])
    ensures TrueAnswers(nm, S.Next(s, step))
  {
    if step == S.ByWorker(S.Respond) {
      RespondIsTrue(nm, s, b);
      RespondKeepsTrue(nm, s);
    } else {
      StepAddsNoFrameAnswer(s, step);
      forall c, p | 0 <= c < |s.conns| && 0 <= p < |s.conns[c].answers| && s.conns[c].answers[p].origin.OfFrame?
        ensures s.conns[c].answers[p].origin.ticket < |s.frames|
      {
        assert ServerAnswers.EntryOwned(s, c, p);
      }
      QuietKeepsTrue(nm, s, S.Next(s, step));
    }
  }

  // ---------------------------------------------------------- the system invariant

  /** All of it, for one state. */
  ghost predicate SystemInv(nm: Numerics, sys: System) {
    && ServerRuns.Inv(sys.server) && Linked(sys.server, sys.backend) && TrueAnswers(nm, sys.server)
    && BackendSound(nm, sys.backend, sys.server.host)
  }

  ghost predicate BackendSound(nm: Numerics, b: Backend, host: Host) {
    HandlesInv(b) && ContentInv(nm, b) && HostKept(b, host)
  }

  lemma SoundStep(nm: Numerics, b: Backend, step: BackendStep, host: Host)
    requires BackendSound(nm, b, host) && Sees(step, host) && Enabled(b, step) && BringsCanonical(step)
    ensures BackendSound(nm, Apply(nm, b, step), host)
  {
    StepKeepsHandles(nm, b, step);
    StepKeepsContent(nm, b, step, host);
    StepKeepsHost(nm, b, step, host);
  }

  lemma SoundFinished(nm: Numerics, b: Backend, host: Host)
    requires BackendSound(nm, b, host)
    ensures FinishedOnce(b) && b.nextHandle == |b.asks| + 1
    ensures forall k :: 0 <= k < |b.finished| ==> CompletionInv(nm, b.asks, b.finished[k])
  {
  }

  lemma WorkerStepKeepsLink(s: S.Server, b: Backend, step: S.WorkerStep)
    requires ServerPlaces.PlacesInv(s) && FinishedOnce(b) && Linked(s, b)
    requires S.WorkerCan(s, step) && Alone(S.ByWorker(step))
    ensures Linked(S.WorkerNext(s, step), b)
  {
    if step == S.ReleaseSlot {
      ReleaseKeepsLink(s, b);
    } else {
      WorkerMovesNoHandle(s, step);
      ServerKeepsLink(s, S.WorkerNext(s, step), b);
    }
  }

  lemma ServerStepKeepsLink(s: S.Server, b: Backend, step: S.Step)
    requires ServerPlaces.PlacesInv(s) && ServerRuns.StopInv(s) && FinishedOnce(b) && Linked(s, b)
    requires S.Can(s, step) && Alone(step)
    ensures Linked(S.Next(s, step), b)
  {
    if step.ByWorker? {
      WorkerStepKeepsLink(s, b, step.worker);
    } else {
      if step.ByReader? {
        ServerRuns.PushNeverFails(s, step.c);
        ReaderMovesNoHandle(s, step.c, step.reader);
      }
      ServerKeepsLink(s, S.Next(s, step), b);
    }
  }

  lemma ServeKeepsInv(nm: Numerics, sys: System, step: S.Step)
    requires SystemInv(nm, sys) && CanDo(sys, Serve(step))
    ensures SystemInv(nm, Do(nm, sys, Serve(step)))
  {
    var s, b := sys.server, sys.backend;
    SoundFinished(nm, b, s.host);
    ServerRuns.StepKeepsInv(s, step);
    ServerStepKeepsLink(s, b, step);
    ServerKeepsTrue(nm, s, b, step);
    ServerKeepsHost(s, b, step);
  }

  /** The worker's own step that goes with a call into the backend keeps the server's side. */
  lemma CallKeepsServer(nm: Numerics, s: S.Server, b: Backend, step: S.WorkerStep)
    requires ServerRuns.Inv(s) && Linked(s, b) && TrueAnswers(nm, s) && S.WorkerCan(s, step) && step != S.Respond
    requires forall k :: 0 <= k < |b.finished| ==> CompletionInv(nm, b.asks, b.finished[k])
    ensures ServerRuns.Inv(S.WorkerNext(s, step)) && TrueAnswers(nm, S.WorkerNext(s, step))
  {
    ServerRuns.WorkerKeepsInv(s, step);
    ServerKeepsTrue(nm, s, b, S.ByWorker(step));
  }

  lemma SubmitKeepsInv(nm: Numerics, sys: System)
    requires SystemInv(nm, sys) && CanDo(sys, SubmitFrame)
    ensures SystemInv(nm, Do(nm, sys, SubmitFrame))
  {
    var s, b := sys.server, sys.backend;
    var t := s.worker.ticket;
    assert ServerSlots.FrameOk(s, s.frames[t]);
    SoundFinished(nm, b, s.host);
    CallKeepsServer(nm, s, b, S.Submit);
    SubmitKeepsLink(nm, s, b, t);
    SoundStep(nm, b, Issue(JobOf(s.frames[t]), s.host), s.host);
  }

  lemma ReturnKeepsInv(nm: Numerics, sys: System)
    requires SystemInv(nm, sys) && CanDo(sys, ReturnFromSubmit)
    ensures SystemInv(nm, Do(nm, sys, ReturnFromSubmit))
  {
    SoundFinished(nm, sys.backend, sys.server.host);
    CallKeepsServer(nm, sys.server, sys.backend, S.SubmitReturns);
    ReturnKeepsLink(sys.server, sys.backend);
  }

  lemma PollKeepsInv(nm: Numerics, sys: System)
    requires SystemInv(nm, sys) && CanDo(sys, PollBackend)
    ensures SystemInv(nm, Do(nm, sys, PollBackend))
  {
    var s, b := sys.server, sys.backend;
    SoundFinished(nm, b, s.host);
    CallKeepsServer(nm, s, b, S.Polled(Dones(b.finished, b.polled, |b.finished|)));
    PollKeepsLink(nm, s, b);
    SoundStep(nm, b, Poll, s.host);
  }

  lemma BackendKeepsInv(nm: Numerics, sys: System, step: BackendStep)
    requires SystemInv(nm, sys) && Enabled(sys.backend, step) && Sees(step, sys.server.host) && !step.Issue? && !step.Poll?
    requires step.Execute? || sys.server.worker.Launching? || sys.server.worker.ToPoll?
    ensures SystemInv(nm, System(sys.server, Apply(nm, sys.backend, step)))
  {
    var e := Apply(nm, sys.backend, step);
    SoundStep(nm, sys.backend, step, sys.server.host);
    InsideProgresses(nm, sys.backend, step);
    assert e.poisoned ==> sys.backend.poisoned || step.Fault?;
    ProgressKeepsLink(sys.server, sys.backend, e);
  }

  /** Every step of the whole system keeps its invariant. */
  lemma SystemStepKeepsInv(nm: Numerics, sys: System, step: SystemStep)
    requires SystemInv(nm, sys) && CanDo(sys, step)
    ensures SystemInv(nm, Do(nm, sys, step))
  {
    match step
    case Serve(step) => ServeKeepsInv(nm, sys, step);
    case SubmitFrame => SubmitKeepsInv(nm, sys);
    case ReturnFromSubmit => ReturnKeepsInv(nm, sys);
    case PollBackend => PollKeepsInv(nm, sys);
    case Within(call) => BackendKeepsInv(nm, sys, call);
    case Gpu(i, sched) => BackendKeepsInv(nm, sys, Execute(i, sys.server.host, sched));
  }

  ghost predicate SystemStarts(nm: Numerics, sys: System) {
    && S.Started(sys.server) && Warmed(nm, sys.backend)
    && sys.backend.config.slotBytes == sys.server.settings.limits.maxPayloadBytes
  }

  ghost function StepOn(nm: Numerics, m: Option<System>, step: SystemStep): Option<System> {
    if m.Some? && CanDo(m.value, step) then Some(Do(nm, m.value, step)) else None
  }

  ghost function RunSystem(nm: Numerics, sys: System, steps: seq<SystemStep>): Option<System> {
    if steps == [] then Some(sys) else StepOn(nm, RunSystem(nm, sys, steps[..|steps| - 1]), steps[|steps| - 1])
  }

  lemma StartIsSound(nm: Numerics, sys: System)
    requires SystemStarts(nm, sys)
    ensures SystemInv(nm, sys)
  {
    ServerRuns.StartedInv(sys.server);
    WarmedContent(nm, sys.backend, sys.server.host);
  }

  lemma {:induction false} SystemRunKeepsInv(nm: Numerics, sys: System, steps: seq<SystemStep>)
    requires SystemStarts(nm, sys) && RunSystem(nm, sys, steps).Some?
    ensures SystemInv(nm, RunSystem(nm, sys, steps).value)
    decreases |steps|
  {
    if steps == [] {
      StartIsSound(nm, sys);
    } else {
      SystemRunKeepsInv(nm, sys, steps[..|steps| - 1]);
      SystemStepKeepsInv(nm, RunSystem(nm, sys, steps[..|steps| - 1]).value, steps[|steps| - 1]);
    }
  }

  /**
   The end-to-end result. In every run, every ok response in every outbox belongs to a frame
   of that connection, under its sequence number, and is the frame's chain folded over the
   payload received for it, as long as the frame's launches fit 32-bit arithmetic.
   */
  lemma OkResponseIsTrue(nm: Numerics, sys: System, steps: seq<SystemStep>, c: nat, p: nat)
    requires SystemStarts(nm, sys) && RunSystem(nm, sys, steps).Some?
    requires var s := RunSystem(nm, sys, steps).value.server;
             c < |s.conns| && p < |s.conns[c].answers| && s.conns[c].answers[p].response.status == Ok
    ensures var s := RunSystem(nm, sys, steps).value.server;
            var a := s.conns[c].answers[p];
            && a.origin.OfFrame? && a.origin.ticket < |s.frames|
            && var f := s.frames[a.origin.ticket];
               && f.conn == c && f.header.seqNum == a.response.seqNum && WellFormed(FrameImage(f))
               && f.header.payloadLen <= s.settings.limits.maxPayloadBytes
               && (FrameIndexable(f) ==> a.response.image == Some(ApplyChain(nm, FrameImage(f), f.chain)))
  {
    SystemRunKeepsInv(nm, sys, steps);
    EntryIsTrue(nm, RunSystem(nm, sys, steps).value.server, c, p);
  }

  /** With a payload limit of at most 2^31 - 31 bytes that is every frame there is. */
  lemma OkResponsesAreTrue(nm: Numerics, sys: System, steps: seq<SystemStep>, c: nat, p: nat)
    requires SystemStarts(nm, sys) && RunSystem(nm, sys, steps).Some?
    requires sys.server.settings.limits.maxPayloadBytes <= MAX_INDEXED_BYTES
    requires var s := RunSystem(nm, sys, steps).value.server;
             c < |s.conns| && p < |s.conns[c].answers| && s.conns[c].answers[p].response.status == Ok
    ensures var s := RunSystem(nm, sys, steps).value.server;
            var a := s.conns[c].answers[p];
            && a.origin.OfFrame? && a.origin.ticket < |s.frames|
            && var f := s.frames[a.origin.ticket];
               && f.conn == c && f.header.seqNum == a.response.seqNum && WellFormed(FrameImage(f))
               && a.response.image == Some(ApplyChain(nm, FrameImage(f), f.chain))
  {
    OkResponseIsTrue(nm, sys, steps, c, p);
    SettingsStay(nm, sys, steps);
  }

  lemma ReaderKeepsSettings(s: S.Server, c: nat, step: S.ReaderStep)
    requires S.ReaderCan(s, c, step)
    ensures S.ReaderNext(s, c, step).settings == s.settings
  {
  }

  lemma WorkerKeepsSettings(s: S.Server, step: S.WorkerStep)
    requires S.WorkerCan(s, step)
    ensures S.WorkerNext(s, step).settings == s.settings
  {
  }

  lemma NextKeepsSettings(s: S.Server, step: S.Step)
    requires S.Can(s, step)
    ensures S.Next(s, step).settings == s.settings
  {
    match step
    case ByReader(c, reader) => ReaderKeepsSettings(s, c, reader);
    case ByWorker(worker) => WorkerKeepsSettings(s, worker);
    case _ =>
  }

  lemma StepKeepsSettings(nm: Numerics, sys: System, step: SystemStep)
    requires CanDo(sys, step)
    ensures Do(nm, sys, step).server.settings == sys.server.settings
    ensures Do(nm, sys, step).backend.config == sys.backend.config
  {
    if step.Serve? {
      NextKeepsSettings(sys.server, step.step);
    }
  }

  lemma {:induction false} SettingsStay(nm: Numerics, sys: System, steps: seq<SystemStep>)
    requires RunSystem(nm, sys, steps).Some?
    ensures RunSystem(nm, sys, steps).value.server.settings == sys.server.settings
    decreases |steps|
  {
    if steps != [] {
      SettingsStay(nm, sys, steps[..|steps| - 1]);
      StepKeepsSettings(nm, RunSystem(nm, sys, steps[..|steps| - 1]).value, steps[|steps| - 1]);
    }
  }

  lemma EntryIsTrue(nm: Numerics, s: S.Server, c: nat, p: nat)
    requires ServerRuns.Inv(s) && TrueAnswers(nm, s)
    requires c < |s.conns| && p < |s.conns[c].answers| && s.conns[c].answers[p].response.status == Ok
    ensures var a := s.conns[c].answers[p];
            && a.origin.OfFrame? && a.origin.ticket < |s.frames|
            && var f := s.frames[a.origin.ticket];
               && f.conn == c && f.header.seqNum == a.response.seqNum && WellFormed(FrameImage(f))
               && f.header.payloadLen <= s.settings.limits.maxPayloadBytes
               && (FrameIndexable(f) ==> a.response.image == Some(ApplyChain(nm, FrameImage(f), f.chain)))
  {
    assert ServerAnswers.EntryOwned(s, c, p) && TrueEntry(nm, s, s.conns[c].answers[p]);
    if s.conns[c].answers[p].origin.OfHeader? {
      HeaderAnswerFails(s, c, p);
      assert false;
    } else {
      var t := s.conns[c].answers[p].origin.ticket;
      assert ServerAnswers.FrameAnswer(s, t) && ServerSlots.FrameOk(s, s.frames[t]);
    }
  }

  lemma HeaderAnswerFails(s: S.Server, c: nat, p: nat)
    requires |s.frames| == |s.phases| && ServerAnswers.AnswersInv(s) && c < |s.conns| && p < |s.conns[c].answers|
    requires s.conns[c].answers[p].origin.OfHeader?
    ensures s.conns[c].answers[p].response.status != Ok
  {
    assert ServerAnswers.EntryOwned(s, c, p);
    assert ServerAnswers.RejectionAnswered(s.conns[c], s.conns[c].answers[p].origin.n);
  }
}
