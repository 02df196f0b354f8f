/**
 Reading frames off a byte stream (src/net/socket.cpp, read_exact and drain_exactly;
 src/net/server.cpp, reader_loop): exact reads over short ones, and the reader finding
 the next frame after every frame it served or drained.
 */
module Framing {
  import opened Samples
  import opened Words
  import opened Chains
  import opened Protocol
  import opened OpChainText

  /** How one recv() goes: some bytes, an interrupted call, or a dead connection. */
  datatype RecvOutcome = Delivers(most: nat) | Interrupted | Failed

  datatype IoResult = IoOk | IoEof | IoError

  predicate NeverFails(script: seq<RecvOutcome>) {
    forall i :: 0 <= i < |script| ==> !script[i].Failed?
  }

  const SCRATCH_BYTES: nat := 4096

  /** A connected socket: the bytes still to come, and how the next calls will go. */
  class Socket {
    var input: seq<Byte>
    var script: seq<RecvOutcome>

    constructor (input: seq<Byte>, script: seq<RecvOutcome>)
      ensures this.input == input && this.script == script
    {
      this.input, this.script := input, script;
    }

    /** One recv() of at most `want` bytes; nothing received means the peer has closed. */
    method Recv(want: nat) returns (outcome: RecvOutcome, data: seq<Byte>)
      requires want > 0
      modifies this
      ensures old(input) == data + input && |data| <= want
      ensures outcome.Delivers? ==> (data == [] <==> old(input) == [])
      ensures !outcome.Delivers? ==> data == [] && |script| < |old(script)|
      ensures outcome.Failed? ==> !NeverFails(old(script))
      ensures NeverFails(old(script)) ==> NeverFails(script)
      ensures |script| <= |old(script)|
    {
      outcome := Delivers(want);
      if script != [] {
        outcome := script[0];
        script := script[1..];
      }
      data := [];
      if outcome.Delivers? && input != [] {
        var n := if outcome.most < 1 then 1 else outcome.most;
        n := if n > want then want else n;
        n := if n > |input| then |input| else n;
        data, input := input[..n], input[n..];
      }
    }

    /** read_exact: loops over short reads and interrupted calls until all bytes are in. */
    method ReadExact(bytes: nat) returns (result: IoResult, buffer: seq<Byte>)
      modifies this
      ensures old(input) == buffer + input && |buffer| <= bytes
      ensures result == IoOk <==> |buffer| == bytes
      ensures result == IoEof ==> input == []
      ensures result == IoError ==> !NeverFails(old(script))
      ensures NeverFails(old(script)) ==> NeverFails(script) && (result == IoOk <==> bytes <= |old(input)|)
    {
      buffer := [];
      var remaining := bytes;
      while remaining > 0
        invariant remaining >= 0 && old(input) == buffer + input && |buffer| + remaining == bytes
        invariant NeverFails(old(script)) ==> NeverFails(script)
        decreases |input| + |script|
      {
        ghost var before := input;
        var outcome, data := Recv(remaining);
        if outcome.Delivers? {
          if data == [] {
            assert before == [] && |before| == |data| + |input|;
            return IoEof, buffer;
          }
          buffer := buffer + data;
          remaining := remaining - |data|;
        } else if outcome.Failed? {
          return IoError, buffer;
        }
      }
      result := IoOk;
    }

    /** drain_exactly: discards in scratch-sized pieces. */
    method DrainExactly(bytes: nat) returns (result: IoResult)
      modifies this
      ensures result == IoOk ==> bytes <= |old(input)| && input == old(input)[bytes..]
      ensures NeverFails(old(script)) ==> NeverFails(script) && (result == IoOk <==> bytes <= |old(input)|)
    {
      var left := bytes;
      while left > 0
        invariant 0 <= left <= bytes && bytes - left <= |old(input)| && input == old(input)[bytes - left..]
        invariant NeverFails(old(script)) ==> NeverFails(script)
        decreases left
      {
        var chunk := if left < SCRATCH_BYTES then left else SCRATCH_BYTES;
        ghost var before := input;
        var r, data := ReadExact(chunk);
        if r != IoOk {
          assert NeverFails(old(script)) ==> |before| < chunk;
          return r;
        }
        assert input == before[chunk..];
        left := left - chunk;
      }
      result := IoOk;
    }
  }

  // ---------------------------------------------------------------------- frames

  /** What the reader makes of a frame: a rejection it answers, or a frame it passes on. */
  datatype Verdict = Rejected(seqNum: Word32, status: Status) | Accepted(header: RequestHeader, chain: OpChain, payload: seq<Byte>)

  function TextOf(bytes: seq<Byte>): string {
    seq(|bytes|, i requires 0 <= i < |bytes| => bytes[i] as char)
  }

  /** A frame as a client sends it: a header, then as many bytes as the header declares. */
  datatype RequestFrame = RequestFrame(header: RequestHeader, chain: seq<Byte>, payload: seq<Byte>)

  predicate WellFramed(f: RequestFrame) {
    |f.chain| == f.header.chainLen && |f.payload| == f.header.payloadLen
  }

  function FrameBytes(f: RequestFrame): seq<Byte> {
    RequestBytes(f.header) + f.chain + f.payload
  }

  /** The answer docs/PROTOCOL.md gives a frame: the header's checks, then the chain's. */
  function Judge(f: RequestFrame, limits: Limits): Verdict {
    var status := Validate(f.header, limits);
    if status != Ok then Rejected(f.header.seqNum, status)
    else
      var chain := Parse(TextOf(f.chain));
      if chain.None? then Rejected(f.header.seqNum, BadChain) else Accepted(f.header, chain.value, f.payload)
  }

  predicate Closes(v: Verdict) {
    v.Rejected? && DispositionFor(v.status) == Close
  }

  /** One turn of the reader: it goes on at `rest`, or it stops, perhaps after an answer. */
  datatype Turn = Goes(verdict: Verdict, rest: seq<Byte>) | Stops(verdicts: seq<Verdict>)

  /** After the header and the chain, `after` is the payload and what follows. */
  function PayloadTurn(h: RequestHeader, chain: Option<OpChain>, after: seq<Byte>): Turn {
    if chain.None? then
      if h.payloadLen <= |after| then Goes(Rejected(h.seqNum, BadChain), after[h.payloadLen..])
      else Stops([Rejected(h.seqNum, BadChain)])
    else if h.payloadLen <= |after| then Goes(Accepted(h, chain.value, after[..h.payloadLen]), after[h.payloadLen..])
    else Stops([])
  }

  function BodyTurn(h: RequestHeader, status: Status, after: seq<Byte>): Turn {
    if status == Ok then
      if h.chainLen <= |after| then PayloadTurn(h, Parse(TextOf(after[..h.chainLen])), after[h.chainLen..])
      else Stops([])
    else if DispositionFor(status) == Close || |after| < h.chainLen + h.payloadLen then Stops([Rejected(h.seqNum, status)])
    else Goes(Rejected(h.seqNum, status), after[h.chainLen + h.payloadLen..])
  }

  /** A turn on whatever bytes come, well framed or not. */
  function TurnOn(input: seq<Byte>, limits: Limits): (t: Turn)
    ensures t.Goes? ==> |t.rest| < |input|
  {
    if |input| < REQUEST_HEADER_BYTES then Stops([])
    else
      var h := DecodeRequest(input[..REQUEST_HEADER_BYTES]).value;
      BodyTurn(h, Validate(h, limits), input[REQUEST_HEADER_BYTES..])
  }

  function ReaderRun(input: seq<Byte>, limits: Limits): seq<Verdict>
    decreases |input|
  {
    match TurnOn(input, limits)
    case Stops(verdicts) => verdicts
    case Goes(verdict, rest) => [verdict] + ReaderRun(rest, limits)
  }

  function TurnVerdicts(t: Turn): seq<Verdict> {
    if t.Goes? then [t.verdict] else t.verdicts
  }

  /** The turn as the bytes would have it, or cut short by a dead connection. */
  predicate CutShort(t: Turn, full: Turn) {
    t == full || (t.Stops? && t.verdicts <= TurnVerdicts(full))
  }

  /** One turn of reader_loop, over any pattern of short reads. */
  method ReadFrame(socket: Socket, limits: Limits) returns (turn: Turn)
    modifies socket
    ensures NeverFails(old(socket.script)) ==> NeverFails(socket.script) && turn == TurnOn(old(socket.input), limits)
    ensures CutShort(turn, TurnOn(old(socket.input), limits))
    ensures turn.Goes? ==> socket.input == turn.rest
  {
    var r, headerBytes := socket.ReadExact(REQUEST_HEADER_BYTES);
    if r != IoOk {
      return Stops([]);
    }
    assert headerBytes == old(socket.input)[..REQUEST_HEADER_BYTES];
    assert socket.input == old(socket.input)[REQUEST_HEADER_BYTES..];
    var h := DecodeRequest(headerBytes).value;
    turn := ReadBody(socket, h, Validate(h, limits));
  }

  method ReadBody(socket: Socket, h: RequestHeader, headerStatus: Status) returns (turn: Turn)
    modifies socket
    ensures NeverFails(old(socket.script)) ==>
              NeverFails(socket.script) && turn == BodyTurn(h, headerStatus, old(socket.input))
    ensures CutShort(turn, BodyTurn(h, headerStatus, old(socket.input)))
    ensures turn.Goes? ==> socket.input == turn.rest
  {
    var unread := h.chainLen + h.payloadLen;
    var status := headerStatus;
    var chain: Option<OpChain> := None;
    ghost var after := socket.input;
    if status == Ok {
      var r, chainBytes := socket.ReadExact(h.chainLen);
      if r != IoOk {
        return Stops([]);
      }
      assert chainBytes == after[..h.chainLen] && socket.input == after[h.chainLen..];
      unread := unread - h.chainLen;
      chain := ParseOpChain(TextOf(chainBytes));
      if chain.None? {
        status := BadChain;
      }
    }
    ghost var left := socket.input;
    if status != Ok {
      if DispositionFor(status) == Close {
        return Stops([Rejected(h.seqNum, status)]);
      }
      var r := socket.DrainExactly(unread);
      if r != IoOk {
        return Stops([Rejected(h.seqNum, status)]);
      }
      return Goes(Rejected(h.seqNum, status), socket.input);
    }
    var r, payload := socket.ReadExact(h.payloadLen);
    if r != IoOk {
      return Stops([]);
    }
    assert payload == left[..h.payloadLen] && socket.input == left[h.payloadLen..];
    return Goes(Accepted(h, chain.value, payload), socket.input);
  }

  /** reader_loop: a dead connection loses verdicts at the end, and changes none. */
  method ReaderLoop(socket: Socket, limits: Limits) returns (verdicts: seq<Verdict>)
    modifies socket
    ensures verdicts <= ReaderRun(old(socket.input), limits)
    ensures NeverFails(old(socket.script)) ==> verdicts == ReaderRun(old(socket.input), limits)
  {
    verdicts := [];
    ghost var full := ReaderRun(socket.input, limits);
    while true
      invariant NeverFails(old(socket.script)) ==> NeverFails(socket.script)
      invariant full == verdicts + ReaderRun(socket.input, limits)
      decreases |socket.input|
    {
      ghost var before := socket.input;
      var turn := ReadFrame(socket, limits);
      TurnLeads(before, limits);
      match turn {
        case Stops(last) => return verdicts + last;
        case Goes(verdict, rest) =>
          assert verdicts + ([verdict] + ReaderRun(rest, limits)) == verdicts + [verdict] + ReaderRun(rest, limits);
          verdicts := verdicts + [verdict];
      }
    }
  }

  lemma TurnLeads(input: seq<Byte>, limits: Limits)
    ensures TurnVerdicts(TurnOn(input, limits)) <= ReaderRun(input, limits)
  {
  }

  // ------------------------------------------------------------ resynchronization

  lemma FrameParts(f: RequestFrame, tail: seq<Byte>)
    requires WellFramed(f)
    ensures var input := FrameBytes(f) + tail;
            && |input| >= REQUEST_HEADER_BYTES && input[..REQUEST_HEADER_BYTES] == RequestBytes(f.header)
            && input[REQUEST_HEADER_BYTES..] == f.chain + f.payload + tail
  {
  }

  lemma BodyParts(f: RequestFrame, tail: seq<Byte>)
    requires WellFramed(f)
    ensures var after := f.chain + f.payload + tail;
            && after[..f.header.chainLen] == f.chain && after[f.header.chainLen..] == f.payload + tail
            && after[f.header.chainLen + f.header.payloadLen..] == tail
            && (f.payload + tail)[..f.header.payloadLen] == f.payload
            && (f.payload + tail)[f.header.payloadLen..] == tail
  {
  }

  /**
   On a well-framed request the reader gives its verdict and stands at the first byte
   of what follows, whether or not it had consumed the chain before rejecting, unless
   the verdict closes the connection.
   */
  lemma ReaderFindsNextFrame(f: RequestFrame, tail: seq<Byte>, limits: Limits)
    requires WellFramed(f)
    ensures TurnOn(FrameBytes(f) + tail, limits)
            == if Closes(Judge(f, limits)) then Stops([Judge(f, limits)]) else Goes(Judge(f, limits), tail)
  {
    FrameParts(f, tail);
    BodyParts(f, tail);
    RequestDecodes(f.header);
  }

  function Stream(frames: seq<RequestFrame>): seq<Byte> {
    if frames == [] then [] else FrameBytes(frames[0]) + Stream(frames[1..])
  }

  predicate AllWellFramed(frames: seq<RequestFrame>) {
    forall i :: 0 <= i < |frames| ==> WellFramed(frames[i])
  }

  /** How many frames are answered: all, or up to and including the first that closes. */
  function Answered(frames: seq<RequestFrame>, limits: Limits): (n: nat)
    ensures n <= |frames|
  {
    if frames == [] then 0
    else if Closes(Judge(frames[0], limits)) then 1
    else 1 + Answered(frames[1..], limits)
  }

  function Verdicts(frames: seq<RequestFrame>, limits: Limits): (r: seq<Verdict>)
    ensures |r| == |frames|
    ensures forall i :: 0 <= i < |frames| ==> r[i] == Judge(frames[i], limits)
  {
    seq(|frames|, i requires 0 <= i < |frames| => Judge(frames[i], limits))
  }

  lemma ReaderGoesOn(input: seq<Byte>, limits: Limits, verdict: Verdict, rest: seq<Byte>)
    requires TurnOn(input, limits) == Goes(verdict, rest)
    ensures ReaderRun(input, limits) == [verdict] + ReaderRun(rest, limits)
  {
  }

  lemma VerdictsStart(frames: seq<RequestFrame>, limits: Limits, n: nat)
    requires frames != [] && n < |frames|
    ensures Verdicts(frames, limits)[..n + 1] == [Judge(frames[0], limits)] + Verdicts(frames[1..], limits)[..n]
  {
  }

  /** Frames are answered one for one, in order, up to the first closing error. */
  lemma {:induction false} FramesAnsweredOneForOne(frames: seq<RequestFrame>, limits: Limits)
    requires AllWellFramed(frames)
    ensures ReaderRun(Stream(frames), limits) == Verdicts(frames, limits)[..Answered(frames, limits)]
    decreases |frames|
  {
    if frames != [] {
      var rest, verdict := frames[1..], Judge(frames[0], limits);
      ReaderFindsNextFrame(frames[0], Stream(rest), limits);
      if Closes(verdict) {
        VerdictsStart(frames, limits, 0);
      } else {
        FramesAnsweredOneForOne(rest, limits);
        ReaderGoesOn(Stream(frames), limits, verdict, Stream(rest));
        VerdictsStart(frames, limits, Answered(rest, limits));
      }
    }
  }

  /** Before the closing frame nothing closes; the last answered frame is that one or the last sent. */
  lemma {:induction false} AnsweredIsFirstClose(frames: seq<RequestFrame>, limits: Limits)
    ensures forall i :: 0 <= i < Answered(frames, limits) - 1 ==> !Closes(Judge(frames[i], limits))
    ensures Answered(frames, limits) < |frames| ==> Closes(Judge(frames[Answered(frames, limits) - 1], limits))
    decreases |frames|
  {
    if frames != [] && !Closes(Judge(frames[0], limits)) {
      AnsweredIsFirstClose(frames[1..], limits);
      assert Answered(frames, limits) > 1 ==> frames[Answered(frames, limits) - 1] == frames[1..][Answered(frames, limits) - 2];
    }
  }
}
