/**
 The frame pipeline around the backend (src/net/server.cpp), as a step system: reader and
 writer threads of every connection, one worker, and stop(). A step is what one thread
 does between two points where others can interfere. The backend appears only through
 its contract: it issues handles in order and completes those it has been given.
 */
module ServerModel {
  import opened Samples
  import opened Words
  import opened Chains
  import opened Images
  import opened Protocol
  import opened SlotPools

  /** A frame read in full: its payload is what was received for it. */
  datatype Frame = Frame(conn: nat, header: RequestHeader, chain: OpChain, slot: nat, payload: seq<Byte>)

  /** How far a frame has come. `h` is its handle, `at` its response's place in the outbox. */
  datatype Phase =
    | Pushing | Queued | Taken
    | Submitted(h: nat) | Freed(h: nat) | Responded(h: nat, at: nat) | Settled(h: nat, at: nat)
    | Dropped

  datatype SlotUse = Unused | FilledBy(conn: nat) | Carries(ticket: nat)

  datatype Response = Response(seqNum: Word32, status: Status, echo: bool, writeFile: bool, image: Option<Image>)

  /** What an outbox entry answers: a frame, or the n-th rejected header of its connection. */
  datatype Origin = OfFrame(ticket: nat) | OfHeader(n: nat)

  datatype Answer = Answer(response: Response, origin: Origin)

  datatype Rejection = Rejection(seqNum: Word32, status: Status, at: nat)

  datatype ReaderPc =
    | AtHeader
    | Claiming(header: RequestHeader, chain: OpChain)
    | Filling(header: RequestHeader, chain: OpChain, slot: nat, got: seq<Byte>)
    | AtPush(ticket: nat)
    | Leaving
    | Gone

  /** `answers` is everything ever put in the outbox; the writer has taken the first `written`. */
  datatype Conn = Conn(
    reader: ReaderPc, outstanding: int, readerDone: bool,
    answers: seq<Answer>, written: nat, outboxClosed: bool, rejections: seq<Rejection>, writerDone: bool)

  const NEW_CONN := Conn(AtHeader, 0, false, [], 0, false, [], false)

  datatype Done = Done(handle: nat, output: Option<Image>)

  datatype WorkerPc =
    | AtTop
    | Holding(ticket: nat)
    | Launching(ticket: nat, h: nat)
    | ToPoll
    | Retiring(batch: seq<Done>)
    | Responding(ticket: nat, done: Done, rest: seq<Done>)
    | Settling(ticket: nat, rest: seq<Done>)
    | Exited

  datatype StopStage = Serving | AcceptorJoined | SocketsShut | PoolClosed | ConnectionsJoined | QueueClosed | WorkerJoined

  datatype Settings = Settings(limits: Limits, queueCapacity: nat)

  /** `tickets[h]` is the frame behind handle h; handles 1 to `issued` have been issued. */
  datatype Server = Server(
    settings: Settings,
    frames: seq<Frame>, phases: seq<Phase>,
    pool: Pool, uses: seq<SlotUse>, host: seq<seq<Byte>>,
    queue: seq<nat>, queueClosed: bool,
    worker: WorkerPc, inFlight: map<nat, nat>, tickets: map<nat, nat>, issued: nat,
    conns: seq<Conn>, stage: StopStage)

  // --------------------------------------------------------------------- readers

  datatype ReaderStep =
    | RejectHeader(seqNum: Word32, status: Status, leaves: bool)
    | StopReading
    | AcceptHeader(header: RequestHeader, chain: OpChain)
    | Claim
    | ClaimRefused
    | Receive(chunk: seq<Byte>)
    | AbortFill
    | FinishFill
    | Push
    | PushFails
    | Finish

  predicate ReaderCan(s: Server, c: nat, step: ReaderStep)
  {
    c < |s.conns| &&
    var reader := s.conns[c].reader;
    match step
    case RejectHeader(_, status, leaves) =>
      reader == AtHeader && status != Ok && (DispositionFor(status) == Close ==> leaves)
    case StopReading => reader == AtHeader
    case AcceptHeader(header, chain) =>
      reader == AtHeader && Validate(header, s.settings.limits) == Ok && CanonicalChain(chain)
    case Claim => reader.Claiming? && !s.pool.closed && CanClaim(s.pool, c) && NextSlot(s.pool) < |s.pool.owners| == |s.uses|
    case ClaimRefused => reader.Claiming? && s.pool.closed
    case Receive(chunk) =>
      reader.Filling? && |reader.got| + |chunk| <= reader.header.payloadLen
      && reader.slot < |s.host| && reader.header.payloadLen <= |s.host[reader.slot]|
    case AbortFill => reader.Filling? && CanRelease(s.pool, reader.slot) && reader.slot < |s.uses|
    case FinishFill => reader.Filling? && |reader.got| == reader.header.payloadLen && reader.slot < |s.uses|
    case Push => reader.AtPush? && !s.queueClosed && |s.queue| < s.settings.queueCapacity && reader.ticket < |s.phases|
    case PushFails =>
      && reader.AtPush? && s.queueClosed && reader.ticket < |s.frames| == |s.phases|
      && CanRelease(s.pool, s.frames[reader.ticket].slot) && s.frames[reader.ticket].slot < |s.uses|
    case Finish => reader == Leaving
  }

  function SetConn(s: Server, c: nat, conn: Conn): Server
    requires c < |s.conns|
  {
    s.(conns := s.conns[c := conn])
  }

  function SetReader(s: Server, c: nat, reader: ReaderPc): Server
    requires c < |s.conns|
  {
    SetConn(s, c, s.conns[c].(reader := reader))
  }

  /** Outbox::push: a closed outbox drops the response. */
  function PushAnswer(conn: Conn, answer: Answer): Conn {
    if conn.outboxClosed then conn else conn.(answers := conn.answers + [answer])
  }

  /** close_outbox_if_done. */
  function CloseIfDone(conn: Conn): Conn {
    if conn.readerDone && conn.outstanding == 0 then conn.(outboxClosed := true) else conn
  }

  function Rejects(conn: Conn, seqNum: Word32, status: Status, leaves: bool): Conn {
    PushAnswer(conn, Answer(Response(seqNum, status, false, false, None), OfHeader(|conn.rejections|)))
      .(rejections := conn.rejections + [Rejection(seqNum, status, |conn.answers|)],
        reader := if leaves then Leaving else AtHeader)
  }

  function ReaderNext(s: Server, c: nat, step: ReaderStep): Server
    requires ReaderCan(s, c, step)
  {
    var reader := s.conns[c].reader;
    match step
    case RejectHeader(seqNum, status, leaves) => SetConn(s, c, Rejects(s.conns[c], seqNum, status, leaves))
    case StopReading => SetReader(s, c, Leaving)
    case AcceptHeader(header, chain) => SetReader(s, c, Claiming(header, chain))
    case Claim =>
      var slot := NextSlot(s.pool);
      SetReader(s.(pool := Claimed(s.pool, c), uses := s.uses[slot := FilledBy(c)]), c,
        Filling(reader.header, reader.chain, slot, []))
    case ClaimRefused => SetReader(s, c, Leaving)
    case Receive(chunk) =>
      var got := reader.got + chunk;
      SetReader(s.(host := s.host[reader.slot := got + s.host[reader.slot][|got|..]]), c, reader.(got := got))
    case AbortFill =>
      SetReader(s.(pool := Released(s.pool, reader.slot), uses := s.uses[reader.slot := Unused]), c, Leaving)
    case FinishFill =>
      var frame := Frame(c, reader.header, reader.chain, reader.slot, reader.got);
      SetConn(
        s.(frames := s.frames + [frame], phases := s.phases + [Pushing], uses := s.uses[reader.slot := Carries(|s.frames|)]),
        c, s.conns[c].(reader := AtPush(|s.frames|), outstanding := s.conns[c].outstanding + 1))
    case Push =>
      SetReader(s.(queue := s.queue + [reader.ticket], phases := s.phases[reader.ticket := Queued]), c, AtHeader)
    case PushFails =>
      var slot := s.frames[reader.ticket].slot;
      SetConn(
        s.(pool := Released(s.pool, slot), uses := s.uses[slot := Unused], phases := s.phases[reader.ticket := Dropped]),
        c, CloseIfDone(s.conns[c].(reader := Leaving, outstanding := s.conns[c].outstanding - 1)))
    case Finish => SetConn(s, c, CloseIfDone(s.conns[c].(readerDone := true, reader := Gone)))
  }

  // --------------------------------------------------------------------- writers

  datatype WriterStep = TakeResponse | WriterExits

  predicate WriterCan(s: Server, c: nat, step: WriterStep) {
    c < |s.conns| && !s.conns[c].writerDone &&
    match step
    case TakeResponse => s.conns[c].written < |s.conns[c].answers|
    case WriterExits => s.conns[c].outboxClosed && s.conns[c].written == |s.conns[c].answers|
  }

  function WriterNext(s: Server, c: nat, step: WriterStep): Server
    requires WriterCan(s, c, step)
  {
    match step
    case TakeResponse => SetConn(s, c, s.conns[c].(written := s.conns[c].written + 1))
    case WriterExits => SetConn(s, c, s.conns[c].(writerDone := true))
  }

  // ---------------------------------------------------------------------- worker

  datatype WorkerStep =
    | Pop
    | PopNothing
    | LeaveLoop
    | Submit
    | SubmitReturns
    | Polled(batch: seq<Done>)
    | BatchDone
    | SkipUnknown
    | ReleaseSlot
    | Respond
    | Settle

  /** The backend's contract: a poll reports handles it was given and has not reported, once each. */
  predicate GoodBatch(batch: seq<Done>, inFlight: map<nat, nat>) {
    && (forall i :: 0 <= i < |batch| ==> batch[i].handle in inFlight)
    && (forall i, j :: 0 <= i < j < |batch| ==> batch[i].handle != batch[j].handle)
  }

  predicate WorkerCan(s: Server, step: WorkerStep) {
    match step
    case Pop => s.worker == AtTop && s.queue != [] && s.queue[0] < |s.phases|
    case PopNothing => s.worker == AtTop && s.inFlight != map[] && s.queue == []
    case LeaveLoop => s.worker == AtTop && s.inFlight == map[] && s.queue == [] && s.queueClosed
    case Submit => s.worker.Holding? && s.worker.ticket < |s.phases|
    case SubmitReturns => s.worker.Launching?
    case Polled(batch) => s.worker == ToPoll && GoodBatch(batch, s.inFlight)
    case BatchDone => s.worker == Retiring([])
    case SkipUnknown => s.worker.Retiring? && s.worker.batch != [] && s.worker.batch[0].handle !in s.inFlight
    case ReleaseSlot =>
      && s.worker.Retiring? && s.worker.batch != [] && s.worker.batch[0].handle in s.inFlight
      && s.inFlight[s.worker.batch[0].handle] < |s.frames| == |s.phases|
      && var slot := s.frames[s.inFlight[s.worker.batch[0].handle]].slot; CanRelease(s.pool, slot) && slot < |s.uses|
    case Respond =>
      s.worker.Responding? && s.worker.ticket < |s.frames| == |s.phases| && s.frames[s.worker.ticket].conn < |s.conns|
    case Settle =>
      && s.worker.Settling? && s.worker.ticket < |s.frames| == |s.phases| && s.frames[s.worker.ticket].conn < |s.conns|
      && s.phases[s.worker.ticket].Responded?
  }

  /** retire()'s response: the request's own number and flags, and the output if there is one. */
  function ResponseTo(frame: Frame, output: Option<Image>): Response {
    Response(frame.header.seqNum, if output.Some? then Ok else InternalError, frame.header.flags % 2 == 1,
      output.Some? && frame.header.flags / 2 % 2 == 1, output)
  }

  function WorkerNext(s: Server, step: WorkerStep): Server
    requires WorkerCan(s, step)
  {
    match step
    case Pop => s.(queue := s.queue[1..], phases := s.phases[s.queue[0] := Taken], worker := Holding(s.queue[0]))
    case PopNothing => s.(worker := ToPoll)
    case LeaveLoop => s.(worker := Exited)
    case Submit =>
      var t, h := s.worker.ticket, s.issued + 1;
      s.(tickets := s.tickets[h := t], issued := h, phases := s.phases[t := Submitted(h)], worker := Launching(t, h))
    case SubmitReturns => s.(inFlight := s.inFlight[s.worker.h := s.worker.ticket], worker := ToPoll)
    case Polled(batch) => s.(worker := Retiring(batch))
    case BatchDone => s.(worker := AtTop)
    case SkipUnknown => s.(worker := Retiring(s.worker.batch[1..]))
    case ReleaseSlot =>
      var done := s.worker.batch[0];
      var t := s.inFlight[done.handle];
      s.(inFlight := s.inFlight - {done.handle}, pool := Released(s.pool, s.frames[t].slot),
         uses := s.uses[s.frames[t].slot := Unused], phases := s.phases[t := Freed(done.handle)],
         worker := Responding(t, done, s.worker.batch[1..]))
    case Respond =>
      var t := s.worker.ticket;
      var c := s.frames[t].conn;
      var answer := Answer(ResponseTo(s.frames[t], s.worker.done.output), OfFrame(t));
      SetConn(s, c, PushAnswer(s.conns[c], answer))
        .(phases := s.phases[t := Responded(s.worker.done.handle, |s.conns[c].answers|)],
          worker := Settling(t, s.worker.rest))
    case Settle =>
      var t := s.worker.ticket;
      var c := s.frames[t].conn;
      SetConn(s, c, CloseIfDone(s.conns[c].(outstanding := s.conns[c].outstanding - 1)))
        .(phases := s.phases[t := Settled(s.phases[t].h, s.phases[t].at)], worker := Retiring(s.worker.rest))
  }

  // --------------------------------------------------------------- accept and stop

  datatype StopStep = Accept | JoinAcceptor | ShutSockets | ClosePool | JoinConnections | CloseQueue | JoinWorker

  /** A connection's thread has ended: its reader has returned and its writer is joined. */
  predicate ConnOver(conn: Conn) {
    conn.reader == Gone && conn.writerDone
  }

  predicate AllOver(s: Server) {
    forall c :: 0 <= c < |s.conns| ==> ConnOver(s.conns[c])
  }

  predicate StopCan(s: Server, step: StopStep) {
    match step
    case Accept => s.stage == Serving
    case JoinAcceptor => s.stage == Serving
    case ShutSockets => s.stage == AcceptorJoined
    case ClosePool => s.stage == SocketsShut
    case JoinConnections => s.stage == PoolClosed && AllOver(s)
    case CloseQueue => s.stage == ConnectionsJoined
    case JoinWorker => s.stage == QueueClosed && s.worker == Exited
  }

  function StopNext(s: Server, step: StopStep): Server
    requires StopCan(s, step)
  {
    match step
    case Accept => s.(conns := s.conns + [NEW_CONN])
    case JoinAcceptor => s.(stage := AcceptorJoined)
    case ShutSockets => s.(stage := SocketsShut)
    case ClosePool => s.(stage := PoolClosed, pool := s.pool.(closed := true))
    case JoinConnections => s.(stage := ConnectionsJoined)
    case CloseQueue => s.(stage := QueueClosed, queueClosed := true)
    case JoinWorker => s.(stage := WorkerJoined)
  }

  // ------------------------------------------------------------------- everything

  datatype Step =
    | ByReader(c: nat, reader: ReaderStep)
    | ByWriter(c: nat, writer: WriterStep)
    | ByWorker(worker: WorkerStep)
    | ByStop(stop: StopStep)

  predicate Can(s: Server, step: Step) {
    match step
    case ByReader(c, reader) => ReaderCan(s, c, reader)
    case ByWriter(c, writer) => WriterCan(s, c, writer)
    case ByWorker(worker) => WorkerCan(s, worker)
    case ByStop(stop) => StopCan(s, stop)
  }

  function Next(s: Server, step: Step): Server
    requires Can(s, step)
  {
    match step
    case ByReader(c, reader) => ReaderNext(s, c, reader)
    case ByWriter(c, writer) => WriterNext(s, c, writer)
    case ByWorker(worker) => WorkerNext(s, worker)
    case ByStop(stop) => StopNext(s, stop)
  }

  /** The server once start() has returned: all slots free, nobody connected. */
  predicate Started(s: Server) {
    && s.frames == [] && s.phases == [] && s.queue == [] && !s.queueClosed
    && s.worker == AtTop && s.inFlight == map[] && s.tickets == map[] && s.issued == 0 && s.conns == [] && s.stage == Serving
    && PoolStarted(s.pool) && |s.uses| == |s.pool.owners| == |s.host| && s.settings.queueCapacity > 0
    && (forall i :: 0 <= i < |s.uses| ==> s.uses[i] == Unused)
    && (forall i :: 0 <= i < |s.host| ==> |s.host[i]| == s.settings.limits.maxPayloadBytes)
  }

  /** What the pool's constructor leaves. */
  predicate PoolStarted(pool: Pool) {
    && |pool.owners| > 0 && pool.cap > 0 && !pool.closed && pool.held == map[] && |pool.free| == |pool.owners|
    && (forall i :: 0 <= i < |pool.owners| ==> pool.owners[i].None?)
    && (forall k :: 0 <= k < |pool.free| ==> pool.free[k] == |pool.owners| - 1 - k)
  }
}
