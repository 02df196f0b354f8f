/**
 The server and its asynchronous backend together. The worker's calls into the backend
 are its steps; the GPU executes queued operations at any time, reading host slots as
 they are then.
 */
module Systems {
  import opened Arith
  import opened Samples
  import opened Chains
  import opened Oracle
  import opened Launches
  import opened Backends
  import opened BackendContent
  import S = ServerModel
  import ServerPlaces
  import ServerSlots
  import ServerBytes
  import ServerRuns

  datatype System = System(server: S.Server, backend: Backend)

  /** The job the worker makes of a frame: narrowed to `int`, rows packed. */
  function JobOf(f: S.Frame): FrameJob {
    var width := ToInt32(f.header.width);
    FrameJob(Some(f.slot), width, ToInt32(f.header.height), f.header.channels,
      if width < 0 then -1 else Times(width, f.header.channels), f.chain)
  }

  function DoneOf(c: Completion): S.Done {
    S.Done(c.handle, c.output)
  }

  /** Completions i to j as the worker receives them. */
  function Dones(finished: seq<Completion>, i: nat, j: nat): (r: seq<S.Done>)
    requires i <= j <= |finished|
    ensures |r| == j - i && forall k :: 0 <= k < j - i ==> r[k] == DoneOf(finished[i + k])
  {
    seq(j - i, k requires 0 <= k < j - i => DoneOf(finished[i + k]))
  }

  datatype SystemStep =
    | Serve(step: S.Step)
    | SubmitFrame
    | ReturnFromSubmit
    | PollBackend
    | Within(call: BackendStep)
    | Gpu(i: nat, sched: Schedule)

  /** Steps the server takes without the backend. */
  predicate Alone(step: S.Step) {
    step.ByWorker? ==> !step.worker.Submit? && !step.worker.SubmitReturns? && !step.worker.Polled?
  }

  /** What submit() and poll_completions() do inside the backend. */
  predicate InsideCall(step: BackendStep) {
    !step.Issue? && !step.Poll? && !step.Execute?
  }

  predicate Batchable(b: Backend) {
    b.polled <= |b.finished|
  }

  ghost predicate CanDo(sys: System, step: SystemStep) {
    var s, b := sys.server, sys.backend;
    match step
    case Serve(step) => S.Can(s, step) && Alone(step)
    case SubmitFrame =>
      && S.WorkerCan(s, S.Submit) && s.worker.ticket < |s.frames|
      && Enabled(b, Issue(JobOf(s.frames[s.worker.ticket]), s.host))
    case ReturnFromSubmit => S.WorkerCan(s, S.SubmitReturns) && b.launching.None? && !b.poisoned
    case PollBackend =>
      Enabled(b, Poll) && Batchable(b) && S.WorkerCan(s, S.Polled(Dones(b.finished, b.polled, |b.finished|)))
    case Within(step) =>
      (s.worker.Launching? || s.worker.ToPoll?) && InsideCall(step) && Sees(step, s.host) && Enabled(b, step)
    case Gpu(i, sched) => Enabled(b, Execute(i, s.host, sched))
  }

  ghost function Do(nm: Numerics, sys: System, step: SystemStep): System
    requires CanDo(sys, step)
  {
    var s, b := sys.server, sys.backend;
    match step
    case Serve(step) => System(S.Next(s, step), b)
    case SubmitFrame =>
      System(S.WorkerNext(s, S.Submit), Apply(nm, b, Issue(JobOf(s.frames[s.worker.ticket]), s.host)))
    case ReturnFromSubmit => System(S.WorkerNext(s, S.SubmitReturns), b)
    case PollBackend =>
      System(S.WorkerNext(s, S.Polled(Dones(b.finished, b.polled, |b.finished|))), Apply(nm, b, Poll))
    case Within(step) => System(s, Apply(nm, b, step))
    case Gpu(i, sched) => System(s, Apply(nm, b, Execute(i, s.host, sched)))
  }

  // ------------------------------------------------- the two sides agree on handles

  /** The completions before this one have been retired by the worker. */
  function Retired(s: S.Server, b: Backend): int {
    b.polled - |ServerPlaces.Batch(s.worker)|
  }

  predicate AskOk(s: S.Server, b: Backend, h: nat)
    requires h in s.tickets && 1 <= h <= |b.asks|
  {
    && s.tickets[h] < |s.frames|
    && b.asks[h - 1].job == JobOf(s.frames[s.tickets[h]])
    && ServerBytes.Prefixed(b.asks[h - 1].payload, s.frames[s.tickets[h]].payload)
  }

  /** Handles not retired are those whose frame is still submitted. */
  predicate HandleOk(s: S.Server, b: Backend, h: nat)
    requires h in s.tickets && 1 <= h <= |b.fates|
  {
    s.tickets[h] < |s.phases| && (!s.phases[s.tickets[h]].Submitted? ==> b.fates[h - 1].Finished?)
  }

  predicate FinishedOk(s: S.Server, b: Backend, k: nat)
    requires k < |b.finished|
  {
    var h := b.finished[k].handle;
    h in s.tickets && s.tickets[h] < |s.phases| && (s.phases[s.tickets[h]].Submitted? <==> k >= Retired(s, b))
  }

  predicate BatchOk(s: S.Server, b: Backend) {
    && 0 <= Retired(s, b) <= b.polled <= |b.finished|
    && ServerPlaces.Batch(s.worker) == Dones(b.finished, Retired(s, b), b.polled)
    && (s.worker.Responding? ==> Retired(s, b) > 0 && s.worker.done == DoneOf(b.finished[Retired(s, b) - 1]))
  }

  ghost predicate Linked(s: S.Server, b: Backend) {
    && s.issued == |b.asks| == |b.fates| && b.config.slotBytes == s.settings.limits.maxPayloadBytes
    && (forall h :: h in s.tickets <==> 1 <= h <= s.issued)
    && (forall h :: h in s.tickets ==> AskOk(s, b, h) && HandleOk(s, b, h))
    && (forall k :: 0 <= k < |b.finished| ==> FinishedOk(s, b, k))
    && BatchOk(s, b)
    && (b.launching.Some? ==> s.worker.Launching? && s.worker.h == b.launching.value)
    && (b.poisoned ==> s.worker.Launching? || s.worker.ToPoll?)
  }

  /** What a step inside the backend may do to its handles. */
  predicate Progresses(b: Backend, e: Backend) {
    && e.config == b.config && e.asks == b.asks && |e.fates| == |b.fates| && e.polled == b.polled
    && (e.launching == b.launching || e.launching.None?)
    && (forall g :: 0 <= g < |b.fates| && b.fates[g].Finished? ==> e.fates[g].Finished?)
    && b.finished <= e.finished && |e.finished| <= |b.finished| + 1
    && (|e.finished| > |b.finished| ==>
          var h := e.finished[|b.finished|].handle; 1 <= h <= |b.fates| && !b.fates[h - 1].Finished?)
  }

  lemma ProgressKeepsLink(s: S.Server, b: Backend, e: Backend)
    requires Linked(s, b) && Progresses(b, e) && (e.poisoned ==> s.worker.Launching? || s.worker.ToPoll?)
    ensures Linked(s, e)
  {
    forall h | h in s.tickets ensures AskOk(s, e, h) && HandleOk(s, e, h) {
      assert AskOk(s, b, h) && HandleOk(s, b, h);
    }
    forall k | 0 <= k < |e.finished| ensures FinishedOk(s, e, k) {
      if k < |b.finished| {
        assert FinishedOk(s, b, k);
      } else {
        assert HandleOk(s, b, e.finished[k].handle);
      }
    }
  }

  lemma InsideProgresses(nm: Numerics, b: Backend, step: BackendStep)
    requires HandlesInv(b) && Enabled(b, step) && !step.Issue? && !step.Poll?
    ensures Progresses(b, Apply(nm, b, step))
  {
    if step.FailLaunch? || step.FinishInline? || step.Occupy? {
      assert b.fates[b.launching.value - 1] == Fate.Launching;
    } else if step.RetireStream? || step.FailStream? {
      assert b.fates[b.streams[step.i].running.value.handle - 1] == OnStream(step.i);
    }
  }

  /** A server step that issues and retires no handle. */
  predicate NoHandleMoves(s: S.Server, e: S.Server) {
    && e.settings == s.settings && e.issued == s.issued && e.tickets == s.tickets && s.frames <= e.frames
    && |s.phases| <= |e.phases|
    && (forall t :: 0 <= t < |s.phases| ==> e.phases[t].Submitted? == s.phases[t].Submitted?)
    && ServerPlaces.Batch(e.worker) == ServerPlaces.Batch(s.worker)
    && (s.worker.Launching? || s.worker.ToPoll? ==> e.worker == s.worker)
    && (e.worker.Responding? ==> e.worker == s.worker)
  }

  lemma ServerKeepsLink(s: S.Server, e: S.Server, b: Backend)
    requires |s.frames| == |s.phases| && Linked(s, b) && NoHandleMoves(s, e)
    ensures Linked(e, b)
  {
    forall h | h in e.tickets ensures AskOk(e, b, h) && HandleOk(e, b, h) {
      assert AskOk(s, b, h) && HandleOk(s, b, h);
    }
    forall k | 0 <= k < |b.finished| ensures FinishedOk(e, b, k) {
      assert FinishedOk(s, b, k);
    }
  }

  lemma ReaderMovesNoHandle(s: S.Server, c: nat, step: S.ReaderStep)
    requires |s.frames| == |s.phases| && ServerPlaces.PushInv(s.conns, s.frames, s.phases)
    requires S.ReaderCan(s, c, step) && step != S.PushFails
    ensures NoHandleMoves(s, S.ReaderNext(s, c, step))
  {
  }

  lemma PopMovesNoHandle(s: S.Server)
    requires ServerPlaces.QueueInv(s.queue, s.phases) && S.WorkerCan(s, S.Pop)
    ensures NoHandleMoves(s, S.WorkerNext(s, S.Pop))
  {
    assert s.phases[s.queue[0]].Queued?;
  }

  lemma AnswerMovesNoHandle(s: S.Server, step: S.WorkerStep)
    requires ServerPlaces.WorkerInv(s.worker, s.phases, s.issued, s.inFlight)
    requires (step == S.Respond || step == S.Settle) && S.WorkerCan(s, step)
    ensures NoHandleMoves(s, S.WorkerNext(s, step))
  {
    assert !s.phases[s.worker.ticket].Submitted?;
  }

  lemma TurnMovesNoHandle(s: S.Server, step: S.WorkerStep)
    requires (step == S.PopNothing || step == S.LeaveLoop || step == S.BatchDone) && S.WorkerCan(s, step)
    ensures NoHandleMoves(s, S.WorkerNext(s, step))
  {
  }

  lemma WorkerMovesNoHandle(s: S.Server, step: S.WorkerStep)
    requires ServerPlaces.PlacesInv(s) && S.WorkerCan(s, step) && Alone(S.ByWorker(step)) && step != S.ReleaseSlot
    ensures NoHandleMoves(s, S.WorkerNext(s, step))
  {
    match step
    case Pop => PopMovesNoHandle(s);
    case Respond | Settle => AnswerMovesNoHandle(s, step);
    case SkipUnknown => ServerPlaces.NeverUnknown(s);
    case _ => TurnMovesNoHandle(s, step);
  }

  lemma DonesTail(finished: seq<Completion>, i: nat, j: nat)
    requires i < j <= |finished|
    ensures Dones(finished, i, j)[0] == DoneOf(finished[i]) && Dones(finished, i, j)[1..] == Dones(finished, i + 1, j)
  {
  }

  /** Each completion is where its handle's fate says, so no two share a handle. */
  predicate FinishedOnce(b: Backend) {
    forall k :: 0 <= k < |b.finished| ==>
      1 <= b.finished[k].handle <= |b.fates| && b.fates[b.finished[k].handle - 1] == Finished(k)
  }

  lemma DifferentTickets(s: S.Server, g: nat, h: nat)
    requires ServerPlaces.HandleInv(s.tickets, s.issued, s.phases) && g in s.tickets && h in s.tickets && g != h
    ensures s.tickets[g] != s.tickets[h]
  {
  }

  lemma ReleasedKeepsHandle(s: S.Server, b: Backend, e: S.Server, h: nat, g: nat)
    requires ServerPlaces.HandleInv(s.tickets, s.issued, s.phases) && s.issued == |b.asks| == |b.fates|
    requires e.tickets == s.tickets && e.frames == s.frames && h in s.tickets && g in s.tickets
    requires e.phases == s.phases[s.tickets[h] := S.Freed(h)] && b.fates[h - 1].Finished?
    requires AskOk(s, b, g) && HandleOk(s, b, g)
    ensures AskOk(e, b, g) && HandleOk(e, b, g)
  {
    if g != h {
      DifferentTickets(s, g, h);
    }
  }

  lemma ReleasedKeepsFinished(s: S.Server, b: Backend, e: S.Server, h: nat, r: nat, k: nat)
    requires ServerPlaces.HandleInv(s.tickets, s.issued, s.phases) && FinishedOnce(b)
    requires k < |b.finished| && FinishedOk(s, b, k) && 0 <= r < |b.finished| && h == b.finished[r].handle && h in s.tickets
    requires e.tickets == s.tickets && e.phases == s.phases[s.tickets[h] := S.Freed(h)]
    requires Retired(s, b) == r && Retired(e, b) == r + 1
    ensures FinishedOk(e, b, k)
  {
    if k != r {
      DifferentTickets(s, b.finished[k].handle, h);
    }
  }

  /** What releasing the head of the batch does, as far as the backend is concerned. */
  predicate Releases(s: S.Server, b: Backend, e: S.Server, h: nat, r: nat) {
    && 0 <= r < b.polled <= |b.finished| && h == b.finished[r].handle && h in s.tickets && s.tickets[h] < |s.phases|
    && e.settings == s.settings && e.issued == s.issued && e.tickets == s.tickets && e.frames == s.frames
    && e.phases == s.phases[s.tickets[h] := S.Freed(h)]
    && e.worker.Responding? && e.worker.done == DoneOf(b.finished[r]) && e.worker.rest == Dones(b.finished, r + 1, b.polled)
  }

  lemma ReleasedBatch(s: S.Server, b: Backend, e: S.Server, h: nat, r: nat)
    requires Releases(s, b, e, h, r)
    ensures BatchOk(e, b) && Retired(e, b) == r + 1
  {
  }

  lemma ReleasedHandles(s: S.Server, b: Backend, e: S.Server, h: nat, r: nat)
    requires ServerPlaces.HandleInv(s.tickets, s.issued, s.phases) && Linked(s, b)
    requires Releases(s, b, e, h, r) && b.fates[h - 1].Finished?
    ensures forall g :: g in e.tickets ==> AskOk(e, b, g) && HandleOk(e, b, g)
  {
    forall g | g in e.tickets ensures AskOk(e, b, g) && HandleOk(e, b, g) {
      ReleasedKeepsHandle(s, b, e, h, g);
    }
  }

  lemma ReleasedFinished(s: S.Server, b: Backend, e: S.Server, h: nat, r: nat)
    requires ServerPlaces.HandleInv(s.tickets, s.issued, s.phases) && FinishedOnce(b)
    requires Releases(s, b, e, h, r) && Retired(s, b) == r
    requires forall k :: 0 <= k < |b.finished| ==> FinishedOk(s, b, k)
    ensures forall k :: 0 <= k < |b.finished| ==> FinishedOk(e, b, k)
  {
    ReleasedBatch(s, b, e, h, r);
    forall k | 0 <= k < |b.finished| ensures FinishedOk(e, b, k) {
      ReleasedKeepsFinished(s, b, e, h, r, k);
    }
  }

  /** Releasing the head of the batch retires exactly one more completion. */
  lemma ReleasedHandle(s: S.Server, b: Backend, e: S.Server, h: nat, r: nat)
    requires ServerPlaces.HandleInv(s.tickets, s.issued, s.phases) && FinishedOnce(b) && Linked(s, b)
    requires Releases(s, b, e, h, r) && Retired(s, b) == r && s.worker.Retiring?
    ensures Linked(e, b)
  {
    ReleasedBatch(s, b, e, h, r);
    ReleasedHandles(s, b, e, h, r);
    ReleasedFinished(s, b, e, h, r);
  }

  lemma BatchHead(s: S.Server, b: Backend)
    requires BatchOk(s, b) && s.worker.Retiring? && s.worker.batch != []
    ensures 0 <= Retired(s, b) < b.polled && s.worker.batch[0] == DoneOf(b.finished[Retired(s, b)])
    ensures s.worker.batch[1..] == Dones(b.finished, Retired(s, b) + 1, b.polled)
  {
    DonesTail(b.finished, Retired(s, b), b.polled);
  }

  lemma ReleaseKeepsLink(s: S.Server, b: Backend)
    requires ServerPlaces.HandleInv(s.tickets, s.issued, s.phases) && FinishedOnce(b) && Linked(s, b)
    requires S.WorkerCan(s, S.ReleaseSlot)
    requires var h := s.worker.batch[0].handle; h in s.tickets && s.inFlight[h] == s.tickets[h]
    ensures Linked(S.WorkerNext(s, S.ReleaseSlot), b)
  {
    BatchHead(s, b);
    ReleasedHandle(s, b, S.WorkerNext(s, S.ReleaseSlot), s.worker.batch[0].handle, Retired(s, b));
  }

  /** Frame t under a new handle, asking for what its slot holds. */
  predicate IssuesFor(s: S.Server, b: Backend, t: nat, e: S.Server, f: Backend)
  {
    && t < |s.frames| && e.settings == s.settings && e.issued == s.issued + 1 && e.tickets == s.tickets[s.issued + 1 := t]
    && t < |s.phases| && e.frames == s.frames && e.phases == s.phases[t := S.Submitted(s.issued + 1)]
    && e.worker == S.Launching(t, s.issued + 1)
    && s.frames[t].slot < |s.host| && f.asks == b.asks + [Ask(JobOf(s.frames[t]), s.host[s.frames[t].slot])]
    && |f.fates| == |b.fates| + 1 && (forall g :: 0 <= g < |b.fates| ==> f.fates[g] == b.fates[g])
    && f.config == b.config && f.finished == b.finished && f.polled == b.polled
    && f.launching == Some(s.issued + 1)
  }

  lemma IssueKeepsHandle(s: S.Server, b: Backend, t: nat, e: S.Server, f: Backend, h: nat)
    requires IssuesFor(s, b, t, e, f) && s.issued == |b.asks| == |b.fates| && s.phases[t].Taken?
    requires |s.frames| == |s.phases| && ServerBytes.PayloadKept(s, t)
    requires 1 <= h <= s.issued ==> h in s.tickets && AskOk(s, b, h) && HandleOk(s, b, h)
    requires 1 <= h <= e.issued && h in e.tickets
    ensures AskOk(e, f, h) && HandleOk(e, f, h)
  {
  }

  lemma IssueKeepsFinished(s: S.Server, b: Backend, t: nat, e: S.Server, f: Backend, k: nat)
    requires IssuesFor(s, b, t, e, f) && s.phases[t].Taken? && s.worker.Holding?
    requires ServerPlaces.HandleInv(s.tickets, s.issued, s.phases)
    requires k < |b.finished| && FinishedOk(s, b, k)
    ensures FinishedOk(e, f, k)
  {
    assert s.issued + 1 !in s.tickets;
  }

  lemma IssuedHandleLinks(s: S.Server, b: Backend, t: nat, e: S.Server, f: Backend)
    requires Linked(s, b) && |s.frames| == |s.phases| && IssuesFor(s, b, t, e, f)
    requires ServerBytes.PayloadKept(s, t) && s.phases[t].Taken?
    requires ServerPlaces.HandleInv(s.tickets, s.issued, s.phases) && s.worker.Holding?
    ensures Linked(e, f)
  {
    forall h | h in e.tickets ensures AskOk(e, f, h) && HandleOk(e, f, h) {
      assert h in s.tickets ==> AskOk(s, b, h) && HandleOk(s, b, h);
      IssueKeepsHandle(s, b, t, e, f, h);
    }
    forall k | 0 <= k < |f.finished| ensures FinishedOk(e, f, k) {
      IssueKeepsFinished(s, b, t, e, f, k);
    }
  }

  lemma SubmitKeepsLink(nm: Numerics, s: S.Server, b: Backend, t: nat)
    requires |s.frames| == |s.phases| && s.worker == S.Holding(t) && t < |s.frames| && s.phases[t].Taken?
    requires ServerPlaces.HandleInv(s.tickets, s.issued, s.phases) && ServerBytes.BytesInv(s) && Linked(s, b)
    requires Enabled(b, Issue(JobOf(s.frames[t]), s.host)) && b.nextHandle == |b.asks| + 1
    ensures Linked(S.WorkerNext(s, S.Submit), Apply(nm, b, Issue(JobOf(s.frames[t]), s.host)))
  {
    assert ServerBytes.PayloadKept(s, t);
    IssuedHandleLinks(s, b, t, S.WorkerNext(s, S.Submit), Apply(nm, b, Issue(JobOf(s.frames[t]), s.host)));
  }

  lemma ReturnKeepsLink(s: S.Server, b: Backend)
    requires Linked(s, b) && s.worker.Launching? && b.launching.None? && !b.poisoned
    ensures Linked(S.WorkerNext(s, S.SubmitReturns), b)
  {
    var e := S.WorkerNext(s, S.SubmitReturns);
    forall h | h in e.tickets ensures AskOk(e, b, h) && HandleOk(e, b, h) {
      assert AskOk(s, b, h) && HandleOk(s, b, h);
    }
    forall k | 0 <= k < |b.finished| ensures FinishedOk(e, b, k) {
      assert FinishedOk(s, b, k);
    }
  }

  lemma UnretiredIsAwaited(s: S.Server, b: Backend, k: nat)
    requires ServerPlaces.HandleInv(s.tickets, s.issued, s.phases) && Linked(s, b) && s.worker == S.ToPoll
    requires ServerPlaces.InFlightInv(s.inFlight, s.tickets, s.phases, s.worker) && b.polled <= k < |b.finished|
    ensures b.finished[k].handle in s.inFlight
  {
    assert FinishedOk(s, b, k);
    assert s.phases[s.tickets[b.finished[k].handle]].h == b.finished[k].handle;
  }

  lemma DonesDistinct(b: Backend, i: nat)
    requires FinishedOnce(b) && i <= |b.finished|
    ensures var batch := Dones(b.finished, i, |b.finished|);
            forall j, k :: 0 <= j < k < |batch| ==> batch[j].handle != batch[k].handle
  {
    var batch := Dones(b.finished, i, |b.finished|);
    forall j, k | 0 <= j < k < |batch| ensures batch[j].handle != batch[k].handle {
      assert b.fates[b.finished[i + j].handle - 1] == Finished(i + j);
    }
  }

  /** What a poll reports is what the worker is waiting for, once each: the contract is met. */
  lemma PollMeetsContract(s: S.Server, b: Backend)
    requires ServerPlaces.HandleInv(s.tickets, s.issued, s.phases) && Linked(s, b) && s.worker == S.ToPoll
    requires ServerPlaces.InFlightInv(s.inFlight, s.tickets, s.phases, s.worker) && FinishedOnce(b)
    ensures S.GoodBatch(Dones(b.finished, b.polled, |b.finished|), s.inFlight)
  {
    DonesDistinct(b, b.polled);
    var batch := Dones(b.finished, b.polled, |b.finished|);
    forall i | 0 <= i < |batch| ensures batch[i].handle in s.inFlight {
      UnretiredIsAwaited(s, b, b.polled + i);
    }
  }

  lemma PolledLinks(s: S.Server, b: Backend, e: S.Server, f: Backend)
    requires Linked(s, b) && s.worker == S.ToPoll && !b.poisoned && b.launching.None?
    requires e == s.(worker := S.Retiring(Dones(b.finished, b.polled, |b.finished|)))
    requires f == b.(polled := |b.finished|)
    ensures Linked(e, f)
  {
    forall h | h in e.tickets ensures AskOk(e, f, h) && HandleOk(e, f, h) {
      assert AskOk(s, b, h) && HandleOk(s, b, h);
    }
    forall k | 0 <= k < |b.finished| ensures FinishedOk(e, f, k) {
      assert FinishedOk(s, b, k);
    }
  }

  lemma PollKeepsLink(nm: Numerics, s: S.Server, b: Backend)
    requires Linked(s, b) && CanDo(System(s, b), PollBackend)
    ensures var sys := Do(nm, System(s, b), PollBackend); Linked(sys.server, sys.backend)
  {
    var sys := Do(nm, System(s, b), PollBackend);
    PolledLinks(s, b, sys.server, sys.backend);
  }

  // -------------------------------------------------- inputs stay as they were asked

  /** A handle the backend has not completed belongs to a frame that still holds its slot. */
  lemma UnfinishedHoldsSlot(s: S.Server, b: Backend, h: nat)
    requires Linked(s, b) && |s.frames| == |s.phases| && 1 <= h <= |b.fates| && !b.fates[h - 1].Finished?
    ensures h in s.tickets && s.tickets[h] < |s.frames| && ServerSlots.HoldsSlot(s.phases[s.tickets[h]])
    ensures b.asks[h - 1].job.slot == Some(s.frames[s.tickets[h]].slot)
  {
    assert HandleOk(s, b, h) && AskOk(s, b, h);
  }

  /** Receiving into one slot changes no input the backend may still read. */
  lemma ReceiveKeepsHost(s: S.Server, b: Backend, c: nat, chunk: seq<Byte>)
    requires ServerSlots.Shape(s) && ServerSlots.SlotsInv(s) && Linked(s, b) && HandlesInv(b) && HostKept(b, s.host)
    requires S.ReaderCan(s, c, S.Receive(chunk))
    ensures HostKept(b, S.ReaderNext(s, c, S.Receive(chunk)).host)
  {
    var host, slot := S.ReaderNext(s, c, S.Receive(chunk)).host, s.conns[c].reader.slot;
    ServerSlots.FilledByOne(s, c);
    if b.launching.Some? {
      UnfinishedHoldsSlot(s, b, b.launching.value);
    }
    forall i | 0 <= i < |b.streams| ensures InputKept(b.asks, b.streams[i], host) {
      assert InputKept(b.asks, b.streams[i], s.host);
      if b.streams[i].running.Some? {
        UnfinishedHoldsSlot(s, b, b.streams[i].running.value.handle);
      }
    }
  }

  lemma ServerKeepsHost(s: S.Server, b: Backend, step: S.Step)
    requires ServerRuns.Inv(s) && Linked(s, b) && HandlesInv(b) && HostKept(b, s.host) && S.Can(s, step)
    ensures HostKept(b, S.Next(s, step).host)
  {
    if step.ByReader? && step.reader.Receive? {
      ReceiveKeepsHost(s, b, step.c, step.reader.chunk);
    } else {
      assert S.Next(s, step).host == s.host;
    }
  }
}
