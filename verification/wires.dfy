/**
 Each connection's bytes joined to the whole system: what a reader's steps do is what the
 reader makes of the bytes its peer sends, so a client's stream of frames is answered
 frame by frame.
 */
module Wires {
  import opened Samples
  import opened Chains
  import opened Images
  import opened Oracle
  import opened Protocol
  import opened OpChainText
  import opened Framing
  import opened Device
  import SlotPools
  import opened Systems
  import opened SystemRuns
  import S = ServerModel
  import ServerSlots
  import ServerBytes
  import ServerAnswers
  import ServerRuns

  /**
   All the bytes a peer sends, those not read yet, and what the reader has made of the rest:
   its verdicts, each with the frame or the rejection it became. A wire is cut when its
   reader leaves before the bytes say so, over a dead connection or a closed pool.
   */
  datatype Wire = Wire(input: seq<Byte>, rest: seq<Byte>, verdicts: seq<Verdict>, origins: seq<S.Origin>, cut: bool)

  function NewWire(input: seq<Byte>): Wire {
    Wire(input, input, [], [], false)
  }

  /** The bytes start with this header and a chain's text that parses to this chain. */
  predicate HeaderRead(bytes: seq<Byte>, header: RequestHeader, chain: OpChain) {
    && REQUEST_HEADER_BYTES <= |bytes| && DecodeRequest(bytes[..REQUEST_HEADER_BYTES]) == Some(header)
    && var after := bytes[REQUEST_HEADER_BYTES..];
       header.chainLen <= |after| && Parse(TextOf(after[..header.chainLen])) == Some(chain)
  }

  /** The reader's step is one these bytes allow. */
  predicate WireCan(limits: Limits, wire: Wire, step: S.ReaderStep) {
    match step
    case RejectHeader(seqNum, status, leaves) =>
      var turn := TurnOn(wire.rest, limits);
      TurnVerdicts(turn) == [Rejected(seqNum, status)] && (turn.Stops? ==> leaves)
    case AcceptHeader(header, chain) => HeaderRead(wire.rest, header, chain)
    case Receive(chunk) => chunk <= wire.rest
    case _ => true
  }

  function Logged(wire: Wire, verdict: Verdict, origin: S.Origin): Wire {
    wire.(verdicts := wire.verdicts + [verdict], origins := wire.origins + [origin])
  }

  /** A step of the reader of `conn`, when `frames` frames have been read in all. */
  function WireNext(limits: Limits, conn: S.Conn, frames: nat, wire: Wire, step: S.ReaderStep): Wire
    requires WireCan(limits, wire, step)
  {
    match step
    case RejectHeader(seqNum, status, leaves) =>
      var turn := TurnOn(wire.rest, limits);
      Logged(wire, Rejected(seqNum, status), S.OfHeader(|conn.rejections|))
        .(rest := if turn.Goes? then turn.rest else [], cut := leaves && turn.Goes?)
    case StopReading => wire.(cut := TurnOn(wire.rest, limits) != Stops([]))
    case AcceptHeader(header, _) => wire.(rest := wire.rest[REQUEST_HEADER_BYTES..][header.chainLen..])
    case ClaimRefused => wire.(cut := conn.reader.Claiming? && conn.reader.header.payloadLen <= |wire.rest|)
    case Receive(chunk) => wire.(rest := wire.rest[|chunk|..])
    case AbortFill =>
      wire.(cut := conn.reader.Filling? && conn.reader.header.payloadLen <= |conn.reader.got + wire.rest|)
    case FinishFill =>
      if conn.reader.Filling? then
        Logged(wire, Accepted(conn.reader.header, conn.reader.chain, conn.reader.got), S.OfFrame(frames))
      else wire
    case PushFails => wire.(cut := true)
    case _ => wire
  }

  // --------------------------------------------------- the reader follows its bytes

  /** The verdicts of a turn and of all that comes after it. */
  function Outcome(turn: Turn, limits: Limits): seq<Verdict> {
    match turn
    case Stops(verdicts) => verdicts
    case Goes(verdict, rest) => [verdict] + ReaderRun(rest, limits)
  }

  lemma RunIsOutcome(input: seq<Byte>, limits: Limits)
    ensures ReaderRun(input, limits) == Outcome(TurnOn(input, limits), limits)
  {
  }

  /** The verdicts so far and those the unread bytes will get are the verdicts of all the bytes. */
  predicate Follows(limits: Limits, reader: S.ReaderPc, wire: Wire) {
    var full := ReaderRun(wire.input, limits);
    match reader
    case AtHeader | AtPush(_) => full == wire.verdicts + ReaderRun(wire.rest, limits)
    case Claiming(h, chain) => full == wire.verdicts + Outcome(PayloadTurn(h, Some(chain), wire.rest), limits)
    case Filling(h, chain, _, got) => full == wire.verdicts + Outcome(PayloadTurn(h, Some(chain), got + wire.rest), limits)
    case Leaving | Gone => wire.verdicts <= full && (!wire.cut ==> wire.verdicts == full)
  }

  lemma AcceptedTurn(bytes: seq<Byte>, limits: Limits, h: RequestHeader, chain: OpChain)
    requires HeaderRead(bytes, h, chain) && Validate(h, limits) == Ok
    ensures TurnOn(bytes, limits) == PayloadTurn(h, Some(chain), bytes[REQUEST_HEADER_BYTES..][h.chainLen..])
  {
  }

  lemma OneByOne(front: seq<Verdict>, v: Verdict, back: seq<Verdict>)
    ensures front + ([v] + back) == front + [v] + back
    ensures front + [v] <= front + ([v] + back)
  {
  }

  lemma FullTurn(h: RequestHeader, chain: OpChain, got: seq<Byte>, rest: seq<Byte>)
    requires |got| == h.payloadLen
    ensures PayloadTurn(h, Some(chain), got + rest) == Goes(Accepted(h, chain, got), rest)
  {
    assert (got + rest)[..h.payloadLen] == got && (got + rest)[h.payloadLen..] == rest;
  }

  lemma FullOutcome(limits: Limits, full: seq<Verdict>, verdicts: seq<Verdict>, h: RequestHeader, chain: OpChain, got: seq<Byte>, rest: seq<Byte>)
    requires |got| == h.payloadLen && full == verdicts + Outcome(PayloadTurn(h, Some(chain), got + rest), limits)
    ensures full == verdicts + [Accepted(h, chain, got)] + ReaderRun(rest, limits)
  {
    FullTurn(h, chain, got, rest);
    OneByOne(verdicts, Accepted(h, chain, got), ReaderRun(rest, limits));
  }

  lemma RejectFollows(limits: Limits, conn: S.Conn, frames: nat, wire: Wire, step: S.ReaderStep)
    requires step.RejectHeader? && WireCan(limits, wire, step) && conn.reader.AtHeader? && Follows(limits, conn.reader, wire)
    ensures Follows(limits, if step.leaves then S.Leaving else S.AtHeader, WireNext(limits, conn, frames, wire, step))
  {
    var turn := TurnOn(wire.rest, limits);
    RunIsOutcome(wire.rest, limits);
    if turn.Goes? {
      OneByOne(wire.verdicts, turn.verdict, ReaderRun(turn.rest, limits));
    }
  }

  lemma StopFollows(limits: Limits, conn: S.Conn, frames: nat, wire: Wire)
    requires conn.reader.AtHeader? && Follows(limits, conn.reader, wire)
    ensures Follows(limits, S.Leaving, WireNext(limits, conn, frames, wire, S.StopReading))
  {
    RunIsOutcome(wire.rest, limits);
  }

  lemma AcceptFollows(limits: Limits, conn: S.Conn, frames: nat, wire: Wire, h: RequestHeader, chain: OpChain)
    requires WireCan(limits, wire, S.AcceptHeader(h, chain)) && Validate(h, limits) == Ok
    requires conn.reader.AtHeader? && Follows(limits, conn.reader, wire)
    ensures Follows(limits, S.Claiming(h, chain), WireNext(limits, conn, frames, wire, S.AcceptHeader(h, chain)))
  {
    RunIsOutcome(wire.rest, limits);
    AcceptedTurn(wire.rest, limits, h, chain);
  }

  lemma ClaimFollows(limits: Limits, h: RequestHeader, chain: OpChain, slot: nat, wire: Wire)
    requires Follows(limits, S.Claiming(h, chain), wire)
    ensures Follows(limits, S.Filling(h, chain, slot, []), wire)
  {
    assert [] + wire.rest == wire.rest;
  }

  lemma ReceiveFollows(limits: Limits, reader: S.ReaderPc, wire: Wire, chunk: seq<Byte>)
    requires reader.Filling? && chunk <= wire.rest && Follows(limits, reader, wire)
    ensures Follows(limits, reader.(got := reader.got + chunk), wire.(rest := wire.rest[|chunk|..]))
  {
    assert reader.got + chunk + wire.rest[|chunk|..] == reader.got + wire.rest;
  }

  lemma FinishFollows(limits: Limits, reader: S.ReaderPc, frames: nat, wire: Wire)
    requires reader.Filling? && |reader.got| == reader.header.payloadLen && Follows(limits, reader, wire)
    ensures Follows(limits, S.AtPush(frames), Logged(wire, Accepted(reader.header, reader.chain, reader.got), S.OfFrame(frames)))
  {
    FullOutcome(limits, ReaderRun(wire.input, limits), wire.verdicts, reader.header, reader.chain, reader.got, wire.rest);
  }

  lemma LeaveFollows(limits: Limits, conn: S.Conn, frames: nat, wire: Wire, step: S.ReaderStep)
    requires Follows(limits, conn.reader, wire)
    requires (step == S.ClaimRefused && conn.reader.Claiming?) || (step == S.AbortFill && conn.reader.Filling?)
             || (step == S.PushFails && conn.reader.AtPush?)
    ensures Follows(limits, S.Leaving, WireNext(limits, conn, frames, wire, step))
  {
  }

  /** Whatever the reader does next, its verdicts stay those of its bytes. */
  lemma ReaderFollows(s: S.Server, c: nat, wire: Wire, step: S.ReaderStep)
    requires S.ReaderCan(s, c, step) && WireCan(s.settings.limits, wire, step)
    requires Follows(s.settings.limits, s.conns[c].reader, wire)
    ensures Follows(s.settings.limits, S.ReaderNext(s, c, step).conns[c].reader,
              WireNext(s.settings.limits, s.conns[c], |s.frames|, wire, step))
  {
    var limits, conn, frames := s.settings.limits, s.conns[c], |s.frames|;
    match step
    case RejectHeader(_, _, _) => RejectFollows(limits, conn, frames, wire, step);
    case StopReading => StopFollows(limits, conn, frames, wire);
    case AcceptHeader(h, chain) => AcceptFollows(limits, conn, frames, wire, h, chain);
    case Claim => ClaimFollows(limits, conn.reader.header, conn.reader.chain, SlotPools.NextSlot(s.pool), wire);
    case Receive(chunk) => ReceiveFollows(limits, conn.reader, wire, chunk);
    case FinishFill => FinishFollows(limits, conn.reader, frames, wire);
    case ClaimRefused | AbortFill | PushFails => LeaveFollows(limits, conn, frames, wire, step);
    case Push | Finish =>
  }

  /** At a header, whatever bytes come, the reader has a step that follows them. */
  lemma HeaderNeedsNoCut(s: S.Server, c: nat, wire: Wire) returns (step: S.ReaderStep)
    requires c < |s.conns| && s.conns[c].reader.AtHeader? && !wire.cut
    ensures S.ReaderCan(s, c, step) && WireCan(s.settings.limits, wire, step)
    ensures !WireNext(s.settings.limits, s.conns[c], |s.frames|, wire, step).cut
  {
    var limits := s.settings.limits;
    match TurnOn(wire.rest, limits)
    case Goes(Rejected(seqNum, status), _) => step := S.RejectHeader(seqNum, status, false);
    case Goes(Accepted(h, chain, _), _) =>
      ParseIsCanonical(TextOf(wire.rest[REQUEST_HEADER_BYTES..][..h.chainLen]));
      step := S.AcceptHeader(h, chain);
    case Stops(verdicts) =>
      step := if verdicts == [] then S.StopReading else S.RejectHeader(verdicts[0].seqNum, verdicts[0].status, true);
  }

  lemma ClaimNeedsNoCut(s: S.Server, c: nat, wire: Wire)
    requires SlotPools.PoolInv(s.pool) && |s.uses| == |s.pool.owners| && c < |s.conns| && s.conns[c].reader.Claiming?
    requires !s.pool.closed && SlotPools.CanClaim(s.pool, c) && !wire.cut
    ensures S.ReaderCan(s, c, S.Claim) && !WireNext(s.settings.limits, s.conns[c], |s.frames|, wire, S.Claim).cut
  {
  }

  /** Filling a slot: receive the bytes that are there, finish, or give up where they end. */
  lemma FillNeedsNoCut(s: S.Server, c: nat, wire: Wire) returns (step: S.ReaderStep)
    requires ServerSlots.Shape(s) && ServerSlots.SlotsInv(s) && ServerBytes.BytesInv(s)
    requires c < |s.conns| && s.conns[c].reader.Filling? && !wire.cut
    ensures S.ReaderCan(s, c, step) && WireCan(s.settings.limits, wire, step)
    ensures !WireNext(s.settings.limits, s.conns[c], |s.frames|, wire, step).cut
  {
    var reader := s.conns[c].reader;
    assert ServerBytes.ReaderOk(s, reader);
    ServerSlots.FilledByOne(s, c);
    var missing := reader.header.payloadLen - |reader.got|;
    if missing == 0 {
      step := S.FinishFill;
    } else if missing <= |wire.rest| {
      step := S.Receive(wire.rest[..missing]);
    } else {
      step := S.AbortFill;
    }
  }

  /**
   Nothing but a closed pool forces a reader to leave its bytes: in every sound state it has a
   step that follows them, or waits for a slot or for room in the queue.
   */
  lemma ReaderNeedsNoCut(s: S.Server, c: nat, wire: Wire) returns (step: S.ReaderStep)
    requires ServerRuns.Inv(s) && c < |s.conns| && !wire.cut && s.conns[c].reader != S.Gone
    requires s.conns[c].reader.Claiming? ==> !s.pool.closed && SlotPools.CanClaim(s.pool, c)
    requires s.conns[c].reader.AtPush? ==> |s.queue| < s.settings.queueCapacity
    ensures S.ReaderCan(s, c, step) && WireCan(s.settings.limits, wire, step)
    ensures !WireNext(s.settings.limits, s.conns[c], |s.frames|, wire, step).cut
  {
    match s.conns[c].reader
    case AtHeader => step := HeaderNeedsNoCut(s, c, wire);
    case Claiming(_, _) =>
      ClaimNeedsNoCut(s, c, wire);
      step := S.Claim;
    case Filling(_, _, _, _) => step := FillNeedsNoCut(s, c, wire);
    case AtPush(t) => step := S.Push;
    case _ => step := S.Finish;
  }

  // ------------------------------------------ verdicts become frames and rejections

  predicate Became(frames: seq<S.Frame>, rejections: seq<S.Rejection>, c: nat, verdict: Verdict, origin: S.Origin) {
    match origin
    case OfFrame(t) =>
      t < |frames| && frames[t].conn == c && verdict == Accepted(frames[t].header, frames[t].chain, frames[t].payload)
    case OfHeader(n) =>
      n < |rejections| && verdict == Rejected(rejections[n].seqNum, rejections[n].status)
  }

  /** Of two frames, or of two rejections, the first in the log came first. */
  predicate Earlier(a: S.Origin, b: S.Origin) {
    match a
    case OfFrame(t) => b.OfFrame? ==> t < b.ticket
    case OfHeader(n) => b.OfHeader? ==> n < b.n
  }

  predicate Ordered(origins: seq<S.Origin>) {
    forall i, j :: 0 <= i < j < |origins| ==> Earlier(origins[i], origins[j])
  }

  /** A connection's frames and rejections are its verdicts, all of them, in order. */
  predicate Log(frames: seq<S.Frame>, rejections: seq<S.Rejection>, c: nat, wire: Wire) {
    && |wire.verdicts| == |wire.origins| && Ordered(wire.origins)
    && (forall i :: 0 <= i < |wire.origins| ==> Became(frames, rejections, c, wire.verdicts[i], wire.origins[i]))
    && (forall t :: 0 <= t < |frames| && frames[t].conn == c ==> S.OfFrame(t) in wire.origins)
    && (forall n :: 0 <= n < |rejections| ==> S.OfHeader(n) in wire.origins)
  }

  lemma OtherFrameKeepsLog(frames: seq<S.Frame>, more: seq<S.Frame>, rejections: seq<S.Rejection>, c: nat, wire: Wire)
    requires Log(frames, rejections, c, wire) && frames <= more
    requires forall t :: |frames| <= t < |more| ==> more[t].conn != c
    ensures Log(more, rejections, c, wire)
  {
  }

  lemma FrameKeepsLog(frames: seq<S.Frame>, f: S.Frame, rejections: seq<S.Rejection>, c: nat, wire: Wire)
    requires Log(frames, rejections, c, wire) && f.conn == c
    ensures Log(frames + [f], rejections, c, Logged(wire, Accepted(f.header, f.chain, f.payload), S.OfFrame(|frames|)))
  {
    var e := Logged(wire, Accepted(f.header, f.chain, f.payload), S.OfFrame(|frames|));
    assert e.origins[|wire.origins|] == S.OfFrame(|frames|);
    forall i, j | 0 <= i < j < |e.origins| ensures Earlier(e.origins[i], e.origins[j]) {
      assert Became(frames, rejections, c, wire.verdicts[i], wire.origins[i]);
    }
  }

  lemma RejectionKeepsLog(frames: seq<S.Frame>, rejections: seq<S.Rejection>, r: S.Rejection, c: nat, wire: Wire)
    requires Log(frames, rejections, c, wire)
    ensures Log(frames, rejections + [r], c, Logged(wire, Rejected(r.seqNum, r.status), S.OfHeader(|rejections|)))
  {
    var e := Logged(wire, Rejected(r.seqNum, r.status), S.OfHeader(|rejections|));
    assert e.origins[|wire.origins|] == S.OfHeader(|rejections|);
    forall i, j | 0 <= i < j < |e.origins| ensures Earlier(e.origins[i], e.origins[j]) {
      assert Became(frames, rejections, c, wire.verdicts[i], wire.origins[i]);
    }
  }

  lemma ReaderKeepsLog(s: S.Server, c: nat, wire: Wire, step: S.ReaderStep)
    requires S.ReaderCan(s, c, step) && WireCan(s.settings.limits, wire, step)
    requires Log(s.frames, s.conns[c].rejections, c, wire)
    ensures var e := S.ReaderNext(s, c, step);
            Log(e.frames, e.conns[c].rejections, c, WireNext(s.settings.limits, s.conns[c], |s.frames|, wire, step))
  {
    var reader := s.conns[c].reader;
    match step
    case RejectHeader(seqNum, status, _) =>
      RejectionKeepsLog(s.frames, s.conns[c].rejections, S.Rejection(seqNum, status, |s.conns[c].answers|), c, wire);
    case FinishFill =>
      FrameKeepsLog(s.frames, S.Frame(c, reader.header, reader.chain, reader.slot, reader.got), s.conns[c].rejections, c, wire);
    case _ =>
  }

  // -------------------------------------------------------------- wires in the system

  datatype Wired = Wired(sys: System, wires: seq<Wire>)

  /** A step of the system; a connection it accepts brings the bytes of its peer. */
  datatype WiredStep = WiredStep(step: SystemStep, peer: seq<Byte>)

  predicate Allowed(s: S.Server, wires: seq<Wire>, step: SystemStep) {
    step.Serve? && step.step.ByReader? ==>
      step.step.c < |wires| && WireCan(s.settings.limits, wires[step.step.c], step.step.reader)
  }

  function WiresNext(s: S.Server, wires: seq<Wire>, step: WiredStep): seq<Wire>
    requires Allowed(s, wires, step.step)
  {
    if step.step == Serve(S.ByStop(S.Accept)) then wires + [NewWire(step.peer)]
    else if step.step.Serve? && step.step.step.ByReader? && step.step.step.c < |s.conns| then
      var c := step.step.step.c;
      wires[c := WireNext(s.settings.limits, s.conns[c], |s.frames|, wires[c], step.step.step.reader)]
    else wires
  }

  ghost function WiredOn(nm: Numerics, m: Option<Wired>, step: WiredStep): Option<Wired> {
    if m.Some? && CanDo(m.value.sys, step.step) && Allowed(m.value.sys.server, m.value.wires, step.step) then
      Some(Wired(Do(nm, m.value.sys, step.step), WiresNext(m.value.sys.server, m.value.wires, step)))
    else None
  }

  ghost function RunWired(nm: Numerics, sys: System, steps: seq<WiredStep>): Option<Wired> {
    if steps == [] then Some(Wired(sys, [])) else WiredOn(nm, RunWired(nm, sys, steps[..|steps| - 1]), steps[|steps| - 1])
  }

  predicate ConnWired(s: S.Server, c: nat, wire: Wire)
    requires c < |s.conns|
  {
    Follows(s.settings.limits, s.conns[c].reader, wire) && Log(s.frames, s.conns[c].rejections, c, wire)
  }

  predicate WiresInv(s: S.Server, wires: seq<Wire>) {
    |wires| == |s.conns| && forall c :: 0 <= c < |s.conns| ==> ConnWired(s, c, wires[c])
  }

  /** The step reads nothing: no frame is made, no reader moves and no header is rejected. */
  predicate ReadsNothing(s: S.Server, e: S.Server) {
    && e.settings == s.settings && e.frames == s.frames && |e.conns| == |s.conns|
    && forall c :: 0 <= c < |s.conns| ==>
         e.conns[c].reader == s.conns[c].reader && e.conns[c].rejections == s.conns[c].rejections
  }

  lemma NothingReadKeepsWires(s: S.Server, e: S.Server, wires: seq<Wire>)
    requires WiresInv(s, wires) && ReadsNothing(s, e)
    ensures WiresInv(e, wires)
  {
    forall c | 0 <= c < |e.conns| ensures ConnWired(e, c, wires[c]) {
      assert ConnWired(s, c, wires[c]);
    }
  }

  lemma WorkerReadsNothing(s: S.Server, step: S.WorkerStep)
    requires S.WorkerCan(s, step)
    ensures ReadsNothing(s, S.WorkerNext(s, step))
  {
  }

  lemma WriterReadsNothing(s: S.Server, c: nat, step: S.WriterStep)
    requires S.WriterCan(s, c, step)
    ensures ReadsNothing(s, S.WriterNext(s, c, step))
  {
  }

  lemma StopReadsNothing(s: S.Server, step: S.StopStep)
    requires S.StopCan(s, step) && step != S.Accept
    ensures ReadsNothing(s, S.StopNext(s, step))
  {
  }

  lemma AcceptKeepsWires(s: S.Server, wires: seq<Wire>, peer: seq<Byte>)
    requires WiresInv(s, wires) && ServerAnswers.Connected(s) && S.StopCan(s, S.Accept)
    ensures WiresInv(S.StopNext(s, S.Accept), wires + [NewWire(peer)])
  {
    var e := S.StopNext(s, S.Accept);
    forall c | 0 <= c < |e.conns| ensures ConnWired(e, c, (wires + [NewWire(peer)])[c]) {
      if c < |s.conns| {
        assert ConnWired(s, c, wires[c]);
      } else {
        assert [] + ReaderRun(peer, s.settings.limits) == ReaderRun(peer, s.settings.limits);
      }
    }
  }

  /** A reader leaves the other connections' readers and rejections alone; a frame it makes is its own. */
  predicate ReadsFor(s: S.Server, e: S.Server, c: nat) {
    && e.settings == s.settings && s.frames <= e.frames && |e.conns| == |s.conns|
    && (forall t :: |s.frames| <= t < |e.frames| ==> e.frames[t].conn == c)
    && forall d :: 0 <= d < |s.conns| && d != c ==> e.conns[d] == s.conns[d]
  }

  lemma ReaderReadsFor(s: S.Server, c: nat, step: S.ReaderStep)
    requires S.ReaderCan(s, c, step)
    ensures ReadsFor(s, S.ReaderNext(s, c, step), c)
  {
  }

  lemma OthersKeepWires(s: S.Server, e: S.Server, c: nat, d: nat, wire: Wire)
    requires ReadsFor(s, e, c) && d < |s.conns| && d != c && ConnWired(s, d, wire)
    ensures ConnWired(e, d, wire)
  {
    OtherFrameKeepsLog(s.frames, e.frames, s.conns[d].rejections, d, wire);
  }

  lemma ReaderKeepsWires(s: S.Server, wires: seq<Wire>, c: nat, step: S.ReaderStep)
    requires WiresInv(s, wires) && S.ReaderCan(s, c, step) && WireCan(s.settings.limits, wires[c], step)
    ensures WiresInv(S.ReaderNext(s, c, step),
              wires[c := WireNext(s.settings.limits, s.conns[c], |s.frames|, wires[c], step)])
  {
    var e := S.ReaderNext(s, c, step);
    var after := wires[c := WireNext(s.settings.limits, s.conns[c], |s.frames|, wires[c], step)];
    ReaderReadsFor(s, c, step);
    forall d | 0 <= d < |e.conns| ensures ConnWired(e, d, after[d]) {
      assert ConnWired(s, d, wires[d]);
      if d == c {
        ReaderFollows(s, c, wires[c], step);
        ReaderKeepsLog(s, c, wires[c], step);
      } else {
        OthersKeepWires(s, e, c, d, wires[d]);
      }
    }
  }

  lemma ServeKeepsWires(s: S.Server, wires: seq<Wire>, step: S.Step, peer: seq<Byte>)
    requires WiresInv(s, wires) && ServerAnswers.Connected(s) && S.Can(s, step) && Allowed(s, wires, Serve(step))
    ensures WiresInv(S.Next(s, step), WiresNext(s, wires, WiredStep(Serve(step), peer)))
  {
    match step
    case ByReader(c, reader) => ReaderKeepsWires(s, wires, c, reader);
    case ByWriter(c, writer) =>
      WriterReadsNothing(s, c, writer);
      NothingReadKeepsWires(s, S.Next(s, step), wires);
    case ByWorker(worker) =>
      WorkerReadsNothing(s, worker);
      NothingReadKeepsWires(s, S.Next(s, step), wires);
    case ByStop(stop) =>
      if stop == S.Accept {
        AcceptKeepsWires(s, wires, peer);
      } else {
        StopReadsNothing(s, stop);
        NothingReadKeepsWires(s, S.Next(s, step), wires);
      }
  }

  lemma CallReadsNothing(nm: Numerics, sys: System, step: SystemStep)
    requires CanDo(sys, step) && !step.Serve?
    ensures ReadsNothing(sys.server, Do(nm, sys, step).server)
  {
  }

  lemma StepKeepsWires(nm: Numerics, sys: System, wires: seq<Wire>, step: WiredStep)
    requires WiresInv(sys.server, wires) && ServerAnswers.Connected(sys.server)
    requires CanDo(sys, step.step) && Allowed(sys.server, wires, step.step)
    ensures WiresInv(Do(nm, sys, step.step).server, WiresNext(sys.server, wires, step))
  {
    if step.step.Serve? {
      ServeKeepsWires(sys.server, wires, step.step.step, step.peer);
    } else {
      CallReadsNothing(nm, sys, step.step);
      NothingReadKeepsWires(sys.server, Do(nm, sys, step.step).server, wires);
    }
  }

  lemma {:induction false} WiredRunKeepsInv(nm: Numerics, sys: System, steps: seq<WiredStep>)
    requires SystemStarts(nm, sys) && RunWired(nm, sys, steps).Some?
    ensures var w := RunWired(nm, sys, steps).value;
            SystemInv(nm, w.sys) && WiresInv(w.sys.server, w.wires) && w.sys.server.settings == sys.server.settings
    decreases |steps|
  {
    if steps == [] {
      StartIsSound(nm, sys);
    } else {
      var m, step := RunWired(nm, sys, steps[..|steps| - 1]).value, steps[|steps| - 1];
      WiredRunKeepsInv(nm, sys, steps[..|steps| - 1]);
      ServerRuns.ConnectedFrames(m.sys.server);
      SystemStepKeepsInv(nm, m.sys, step.step);
      StepKeepsSettings(nm, m.sys, step.step);
      StepKeepsWires(nm, m.sys, m.wires, step);
    }
  }

  /**
   In every run, a connection's frames and rejections are, in order, a start of the verdicts
   its peer's bytes get, and all of them once its reader has left without being cut short.
   */
  lemma ReadersFollowBytes(nm: Numerics, sys: System, steps: seq<WiredStep>, c: nat)
    requires SystemStarts(nm, sys) && RunWired(nm, sys, steps).Some?
    requires c < |RunWired(nm, sys, steps).value.sys.server.conns|
    ensures var w := RunWired(nm, sys, steps).value;
            var s, conn := w.sys.server, w.sys.server.conns[c];
            && c < |w.wires| && Log(s.frames, conn.rejections, c, w.wires[c])
            && w.wires[c].verdicts <= ReaderRun(w.wires[c].input, sys.server.settings.limits)
            && (conn.reader.Gone? && !w.wires[c].cut ==>
                  w.wires[c].verdicts == ReaderRun(w.wires[c].input, sys.server.settings.limits))
  {
    WiredRunKeepsInv(nm, sys, steps);
    var w := RunWired(nm, sys, steps).value;
    assert ConnWired(w.sys.server, c, w.wires[c]);
  }

  // ------------------------------------------------------------- a client's frames

  /** The one response a frame may get: its verdict's error, or the chain folded over its image. */
  ghost predicate RightResponse(nm: Numerics, verdict: Verdict, r: S.Response) {
    match verdict
    case Rejected(seqNum, status) => r == S.Response(seqNum, status, false, false, None)
    case Accepted(h, chain, payload) =>
      var image := Image(h.width, h.height, h.channels, payload);
      && r.seqNum == h.seqNum && r.echo == (h.flags % 2 == 1) && r.writeFile == (r.status == Ok && h.flags / 2 % 2 == 1)
      && (r.status == Ok || (r.status == InternalError && r.image == None))
      && (r.status == Ok && (chain == [] || h.payloadLen <= MAX_INDEXED_BYTES) ==>
            WellFormed(image) && r.image == Some(ApplyChain(nm, image, chain)))
  }

  /** Entry p of an outbox answers this frame or rejection, as its verdict requires. */
  ghost predicate AnswersAt(nm: Numerics, answers: seq<S.Answer>, p: nat, verdict: Verdict, origin: S.Origin) {
    p < |answers| && answers[p].origin == origin && RightResponse(nm, verdict, answers[p].response)
  }

  lemma FrameResponse(nm: Numerics, s: S.Server, t: nat) returns (p: nat)
    requires ServerRuns.Inv(s) && TrueAnswers(nm, s) && t < |s.frames| && s.phases[t].Settled?
    ensures s.frames[t].conn < |s.conns|
    ensures AnswersAt(nm, s.conns[s.frames[t].conn].answers, p,
              Accepted(s.frames[t].header, s.frames[t].chain, s.frames[t].payload), S.OfFrame(t))
  {
    assert ServerAnswers.FrameAnswer(s, t);
    p := s.phases[t].at;
    assert TrueEntry(nm, s, s.conns[s.frames[t].conn].answers[p]);
  }

  /** Every logged verdict has its right response, once all frames are settled. */
  lemma EntryResponse(nm: Numerics, s: S.Server, c: nat, wire: Wire, i: nat) returns (p: nat)
    requires ServerRuns.Inv(s) && TrueAnswers(nm, s) && c < |s.conns| && Log(s.frames, s.conns[c].rejections, c, wire)
    requires i < |wire.origins| && forall t :: 0 <= t < |s.frames| ==> s.phases[t].Settled?
    ensures AnswersAt(nm, s.conns[c].answers, p, wire.verdicts[i], wire.origins[i])
  {
    assert Became(s.frames, s.conns[c].rejections, c, wire.verdicts[i], wire.origins[i]);
    match wire.origins[i]
    case OfFrame(t) => p := FrameResponse(nm, s, t);
    case OfHeader(n) =>
      assert ServerAnswers.RejectionAnswered(s.conns[c], n);
      p := s.conns[c].rejections[n].at;
  }

  predicate Distinct(positions: seq<nat>) {
    forall i, j :: 0 <= i < j < |positions| ==> positions[i] != positions[j]
  }

  /** Response at[i] is the right one for verdict i, and no response answers twice. */
  ghost predicate Assigned(nm: Numerics, verdicts: seq<Verdict>, answers: seq<S.Answer>, at: seq<nat>) {
    && |at| == |verdicts| && Distinct(at)
    && forall i :: 0 <= i < |at| ==> at[i] < |answers| && RightResponse(nm, verdicts[i], answers[at[i]].response)
  }

  ghost predicate Answerable(nm: Numerics, answers: seq<S.Answer>, verdict: Verdict, origin: S.Origin) {
    exists p: nat :: AnswersAt(nm, answers, p, verdict, origin)
  }

  ghost predicate AllAnswered(nm: Numerics, answers: seq<S.Answer>, wire: Wire)
    requires |wire.verdicts| == |wire.origins|
  {
    forall i :: 0 <= i < |wire.origins| ==> Answerable(nm, answers, wire.verdicts[i], wire.origins[i])
  }

  /** The first k verdicts find their responses, which differ as what they answer does. */
  lemma {:induction false} Assignment(nm: Numerics, answers: seq<S.Answer>, wire: Wire, k: nat) returns (at: seq<nat>)
    requires |wire.verdicts| == |wire.origins| && Ordered(wire.origins) && AllAnswered(nm, answers, wire) && k <= |wire.origins|
    ensures |at| == k && forall i :: 0 <= i < k ==> AnswersAt(nm, answers, at[i], wire.verdicts[i], wire.origins[i])
    ensures Distinct(at)
    decreases k
  {
    at := [];
    if k > 0 {
      var front := Assignment(nm, answers, wire, k - 1);
      assert Answerable(nm, answers, wire.verdicts[k - 1], wire.origins[k - 1]);
      var p: nat :| AnswersAt(nm, answers, p, wire.verdicts[k - 1], wire.origins[k - 1]);
      forall i | 0 <= i < k - 1 ensures front[i] != p {
        assert Earlier(wire.origins[i], wire.origins[k - 1]);
      }
      at := front + [p];
    }
  }

  /** Every response is some verdict's: the frames and headers answered are all in the log. */
  lemma EntryLogged(s: S.Server, c: nat, wire: Wire, at: seq<nat>, p: nat)
    requires ServerRuns.Inv(s) && c < |s.conns| && p < |s.conns[c].answers|
    requires Log(s.frames, s.conns[c].rejections, c, wire) && |at| == |wire.origins|
    requires forall i :: 0 <= i < |at| ==> at[i] < |s.conns[c].answers| && s.conns[c].answers[at[i]].origin == wire.origins[i]
    ensures p in at
  {
    assert ServerAnswers.EntryOwned(s, c, p);
    assert s.conns[c].answers[p].origin in wire.origins;
    var i :| 0 <= i < |wire.origins| && wire.origins[i] == s.conns[c].answers[p].origin;
    ServerRuns.OneResponseEach(s, c, at[i], c, p);
  }

  predicate AllBelow(at: seq<nat>, n: nat) {
    forall i :: 0 <= i < |at| ==> at[i] < n
  }

  lemma BelowIsPositive(at: seq<nat>, n: nat)
    requires AllBelow(at, n) && at != []
    ensures n > 0
  {
    assert at[0] < n;
  }

  lemma {:induction false} AsManyAsCovered(at: seq<nat>, n: nat)
    requires Distinct(at) && AllBelow(at, n) && forall p :: 0 <= p < n ==> p in at
    ensures |at| == n
    decreases n
  {
    if at != [] {
      BelowIsPositive(at, n);
    }
    if n > 0 {
      assert n - 1 in at;
      var k :| 0 <= k < |at| && at[k] == n - 1;
      var rest := at[..k] + at[k + 1..];
      forall p | 0 <= p < n - 1 ensures p in rest {
        assert p in at;
        var i :| 0 <= i < |at| && at[i] == p;
        assert rest[if i < k then i else i - 1] == p;
      }
      AsManyAsCovered(rest, n - 1);
    }
  }

  /** Once stop() has joined a connection, its responses are one for each of its verdicts. */
  lemma VerdictsAnswered(nm: Numerics, s: S.Server, c: nat, wire: Wire) returns (at: seq<nat>)
    requires ServerRuns.Inv(s) && TrueAnswers(nm, s) && c < |s.conns| && ServerRuns.Joined(s.stage)
    requires Log(s.frames, s.conns[c].rejections, c, wire)
    ensures |at| == |s.conns[c].answers| && Assigned(nm, wire.verdicts, s.conns[c].answers, at)
    ensures s.conns[c].reader.Gone? && s.conns[c].written == |s.conns[c].answers|
  {
    ServerRuns.JoinedMeansDone(s);
    assert S.ConnOver(s.conns[c]);
    forall i | 0 <= i < |wire.origins| ensures Answerable(nm, s.conns[c].answers, wire.verdicts[i], wire.origins[i]) {
      var p := EntryResponse(nm, s, c, wire, i);
    }
    at := Assignment(nm, s.conns[c].answers, wire, |wire.origins|);
    forall p | 0 <= p < |s.conns[c].answers| ensures p in at {
      EntryLogged(s, c, wire, at, p);
    }
    AsManyAsCovered(at, |s.conns[c].answers|);
  }

  lemma SentAnswered(nm: Numerics, s: S.Server, c: nat, wire: Wire, sent: seq<RequestFrame>) returns (at: seq<nat>)
    requires ServerRuns.Inv(s) && TrueAnswers(nm, s) && c < |s.conns| && ServerRuns.Joined(s.stage)
    requires ConnWired(s, c, wire) && !wire.cut && wire.input == Stream(sent) && AllWellFramed(sent)
    ensures var conn, n := s.conns[c], Answered(sent, s.settings.limits);
            && |at| == n == |conn.answers| == conn.written
            && Assigned(nm, Verdicts(sent, s.settings.limits)[..n], conn.answers, at)
  {
    at := VerdictsAnswered(nm, s, c, wire);
    FramesAnsweredOneForOne(sent, s.settings.limits);
  }

  /**
   What a client gets. When it has sent well-framed requests and stop() has joined its
   connection, not cut short, the responses written to it are one for each request up to
   the first that closes, and each is the right one for its request.
   */
  lemma ClientIsServed(nm: Numerics, sys: System, steps: seq<WiredStep>, c: nat, sent: seq<RequestFrame>) returns (at: seq<nat>)
    requires SystemStarts(nm, sys) && RunWired(nm, sys, steps).Some? && AllWellFramed(sent)
    requires var w := RunWired(nm, sys, steps).value;
             c < |w.sys.server.conns| == |w.wires| && ServerRuns.Joined(w.sys.server.stage)
             && w.wires[c].input == Stream(sent) && !w.wires[c].cut
    ensures var conn, limits := RunWired(nm, sys, steps).value.sys.server.conns[c], sys.server.settings.limits;
            && |at| == Answered(sent, limits) == |conn.answers| == conn.written
            && Assigned(nm, Verdicts(sent, limits)[..Answered(sent, limits)], conn.answers, at)
  {
    var w := RunWired(nm, sys, steps).value;
    WiredRunKeepsInv(nm, sys, steps);
    assert ConnWired(w.sys.server, c, w.wires[c]);
    at := SentAnswered(nm, w.sys.server, c, w.wires[c], sent);
  }
}
