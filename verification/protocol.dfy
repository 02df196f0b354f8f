/**
 The wire headers (src/net/protocol.cpp): packed field by field, low byte first, and
 validated in read order before anything is sized by a declared length.
 */
module Protocol {
  import opened Samples
  import opened Words
  import opened Chains
  import opened Images

  const MAGIC: Word32 := 0xDEADBEEF
  const VERSION: Byte := 1
  const REQUEST_HEADER_BYTES := 25
  const RESPONSE_HEADER_BYTES := 23

  datatype Status = Ok | BadMagic | UnsupportedVersion | PayloadTooLarge | BadChain | LengthMismatch | InternalError

  datatype Disposition = Continue | Drain | Close

  datatype RequestHeader = RequestHeader(
    magic: Word32, version: Byte, flags: Byte, seqNum: Word32, width: Word32, height: Word32,
    channels: Byte, payloadLen: Word32, chainLen: Word16)

  /** The status travels as a byte; an unknown one still decodes. */
  datatype ResponseHeader = ResponseHeader(
    magic: Word32, version: Byte, status: Byte, seqNum: Word32, width: Word32, height: Word32,
    channels: Byte, payloadLen: Word32)

  datatype Limits = Limits(maxPayloadBytes: Word32, maxChainLen: Word16)

  // -------------------------------------------------------------------- the codec

  /** The fields both headers share after their first ten bytes: offsets 10, 14, 18, 19. */
  function ShapeBytes(width: Word32, height: Word32, channels: Byte, payloadLen: Word32): (r: seq<Byte>)
    ensures |r| == 13
  {
    PutWord32(width) + PutWord32(height) + [channels] + PutWord32(payloadLen)
  }

  /** The first ten bytes: magic, version, flags or status, sequence number. */
  function LeadBytes(magic: Word32, version: Byte, third: Byte, seqNum: Word32): (r: seq<Byte>)
    ensures |r| == 10
  {
    PutWord32(magic) + [version, third] + PutWord32(seqNum)
  }

  function RequestBytes(h: RequestHeader): (r: seq<Byte>)
    ensures |r| == REQUEST_HEADER_BYTES
  {
    LeadBytes(h.magic, h.version, h.flags, h.seqNum)
    + ShapeBytes(h.width, h.height, h.channels, h.payloadLen) + PutWord16(h.chainLen)
  }

  function ResponseBytes(h: ResponseHeader): (r: seq<Byte>)
    ensures |r| == RESPONSE_HEADER_BYTES
  {
    LeadBytes(h.magic, h.version, h.status, h.seqNum)
    + ShapeBytes(h.width, h.height, h.channels, h.payloadLen)
  }

  function DecodeRequest(bytes: seq<Byte>): Option<RequestHeader> {
    if |bytes| != REQUEST_HEADER_BYTES then None
    else Some(RequestHeader(
      GetWord32(bytes[0..4]), bytes[4], bytes[5], GetWord32(bytes[6..10]), GetWord32(bytes[10..14]),
      GetWord32(bytes[14..18]), bytes[18], GetWord32(bytes[19..23]), GetWord16(bytes[23..25])))
  }

  function DecodeResponse(bytes: seq<Byte>): Option<ResponseHeader> {
    if |bytes| != RESPONSE_HEADER_BYTES then None
    else Some(ResponseHeader(
      GetWord32(bytes[0..4]), bytes[4], bytes[5], GetWord32(bytes[6..10]), GetWord32(bytes[10..14]),
      GetWord32(bytes[14..18]), bytes[18], GetWord32(bytes[19..23])))
  }

  method PutByte(out: array<Byte>, at: nat, value: Byte)
    requires at < out.Length
    modifies out
    ensures out[..at + 1] == old(out[..at]) + [value]
  {
    out[at] := value;
  }

  method PutU16(out: array<Byte>, at: nat, value: Word16)
    requires at + 2 <= out.Length
    modifies out
    ensures out[..at + 2] == old(out[..at]) + PutWord16(value)
  {
    out[at] := value % 256;
    out[at + 1] := value / 256;
  }

  method PutU32(out: array<Byte>, at: nat, value: Word32)
    requires at + 4 <= out.Length
    modifies out
    ensures out[..at + 4] == old(out[..at]) + PutWord32(value)
  {
    var v1 := value / 256;
    var v2 := v1 / 256;
    out[at] := value % 256;
    out[at + 1] := v1 % 256;
    out[at + 2] := v2 % 256;
    out[at + 3] := v2 / 256;
  }

  method EncodeRequest(h: RequestHeader) returns (out: array<Byte>)
    ensures fresh(out) && out[..] == RequestBytes(h)
  {
    out := new Byte[25](_ => 0);
    PutU32(out, 0, h.magic);
    PutByte(out, 4, h.version);
    PutByte(out, 5, h.flags);
    PutU32(out, 6, h.seqNum);
    assert out[..10] == LeadBytes(h.magic, h.version, h.flags, h.seqNum);
    PutU32(out, 10, h.width);
    PutU32(out, 14, h.height);
    PutByte(out, 18, h.channels);
    PutU32(out, 19, h.payloadLen);
    assert out[..23] == LeadBytes(h.magic, h.version, h.flags, h.seqNum)
                        + ShapeBytes(h.width, h.height, h.channels, h.payloadLen);
    PutU16(out, 23, h.chainLen);
    assert out[..25] == out[..];
  }

  method EncodeResponse(h: ResponseHeader) returns (out: array<Byte>)
    ensures fresh(out) && out[..] == ResponseBytes(h)
  {
    out := new Byte[23](_ => 0);
    PutU32(out, 0, h.magic);
    PutByte(out, 4, h.version);
    PutByte(out, 5, h.status);
    PutU32(out, 6, h.seqNum);
    assert out[..10] == LeadBytes(h.magic, h.version, h.status, h.seqNum);
    PutU32(out, 10, h.width);
    PutU32(out, 14, h.height);
    PutByte(out, 18, h.channels);
    PutU32(out, 19, h.payloadLen);
    assert out[..23] == out[..];
  }

  lemma LeadFields(magic: Word32, version: Byte, third: Byte, seqNum: Word32, rest: seq<Byte>)
    ensures var b := LeadBytes(magic, version, third, seqNum) + rest;
            GetWord32(b[0..4]) == magic && b[4] == version && b[5] == third && GetWord32(b[6..10]) == seqNum
  {
    var b := LeadBytes(magic, version, third, seqNum) + rest;
    assert b[0..4] == PutWord32(magic) && b[6..10] == PutWord32(seqNum);
    Word32RoundTrip(magic, b[0..4]);
    Word32RoundTrip(seqNum, b[6..10]);
  }

  lemma ShapeFields(lead: seq<Byte>, width: Word32, height: Word32, channels: Byte, payloadLen: Word32, rest: seq<Byte>)
    requires |lead| == 10
    ensures var b := lead + ShapeBytes(width, height, channels, payloadLen) + rest;
            GetWord32(b[10..14]) == width && GetWord32(b[14..18]) == height && b[18] == channels
            && GetWord32(b[19..23]) == payloadLen
  {
    var b := lead + ShapeBytes(width, height, channels, payloadLen) + rest;
    assert b[10..14] == PutWord32(width) && b[14..18] == PutWord32(height) && b[19..23] == PutWord32(payloadLen);
    Word32RoundTrip(width, b[10..14]);
    Word32RoundTrip(height, b[14..18]);
    Word32RoundTrip(payloadLen, b[19..23]);
  }

  /** Decoding an encoded request header gives it back. */
  lemma RequestDecodes(h: RequestHeader)
    ensures DecodeRequest(RequestBytes(h)) == Some(h)
  {
    var lead, tail := LeadBytes(h.magic, h.version, h.flags, h.seqNum), PutWord16(h.chainLen);
    var shape := ShapeBytes(h.width, h.height, h.channels, h.payloadLen);
    var b := RequestBytes(h);
    assert b == lead + (shape + tail);
    LeadFields(h.magic, h.version, h.flags, h.seqNum, shape + tail);
    ShapeFields(lead, h.width, h.height, h.channels, h.payloadLen, tail);
    assert b[23..25] == tail;
    Word16RoundTrip(h.chainLen, tail);
  }

  lemma ResponseDecodes(h: ResponseHeader)
    ensures DecodeResponse(ResponseBytes(h)) == Some(h)
  {
    var lead, shape := LeadBytes(h.magic, h.version, h.status, h.seqNum), ShapeBytes(h.width, h.height, h.channels, h.payloadLen);
    LeadFields(h.magic, h.version, h.status, h.seqNum, shape);
    ShapeFields(lead, h.width, h.height, h.channels, h.payloadLen, []);
    assert ResponseBytes(h) + [] == ResponseBytes(h);
  }

  lemma LeadRebuilds(b: seq<Byte>)
    requires |b| >= 10
    ensures LeadBytes(GetWord32(b[0..4]), b[4], b[5], GetWord32(b[6..10])) == b[..10]
  {
    Word32RoundTrip(0, b[0..4]);
    Word32RoundTrip(0, b[6..10]);
    assert b[..10] == b[0..4] + [b[4], b[5]] + b[6..10];
  }

  lemma ShapeRebuilds(b: seq<Byte>)
    requires |b| >= 23
    ensures ShapeBytes(GetWord32(b[10..14]), GetWord32(b[14..18]), b[18], GetWord32(b[19..23])) == b[10..23]
  {
    Word32RoundTrip(0, b[10..14]);
    Word32RoundTrip(0, b[14..18]);
    Word32RoundTrip(0, b[19..23]);
    assert b[10..23] == b[10..14] + b[14..18] + [b[18]] + b[19..23];
  }

  /** Every 25-byte string is the encoding of what it decodes to. */
  lemma RequestEncodes(b: seq<Byte>)
    ensures DecodeRequest(b).Some? <==> |b| == REQUEST_HEADER_BYTES
    ensures DecodeRequest(b).Some? ==> RequestBytes(DecodeRequest(b).value) == b
  {
    if |b| == REQUEST_HEADER_BYTES {
      LeadRebuilds(b);
      ShapeRebuilds(b);
      Word16RoundTrip(0, b[23..25]);
      assert b == b[..10] + b[10..23] + b[23..25];
    }
  }

  lemma ResponseEncodes(b: seq<Byte>)
    ensures DecodeResponse(b).Some? <==> |b| == RESPONSE_HEADER_BYTES
    ensures DecodeResponse(b).Some? ==> ResponseBytes(DecodeResponse(b).value) == b
  {
    if |b| == RESPONSE_HEADER_BYTES {
      LeadRebuilds(b);
      ShapeRebuilds(b);
      assert b == b[..10] + b[10..23];
    }
  }

  // ------------------------------------------------------------------- validation

  /** The dimension product as the code computes it, in 64 bits. */
  function WrappedProduct(h: RequestHeader): nat {
    (h.width * h.height % UINT64_LIMIT) * h.channels % UINT64_LIMIT
  }

  function Validate(h: RequestHeader, limits: Limits): Status {
    if h.magic != MAGIC then BadMagic
    else if h.version != VERSION then UnsupportedVersion
    else if h.payloadLen > limits.maxPayloadBytes then PayloadTooLarge
    else if h.chainLen > limits.maxChainLen then BadChain
    else if !SupportedChannels(h.channels) || h.width == 0 || h.height == 0 then LengthMismatch
    else if WrappedProduct(h) != h.payloadLen then LengthMismatch
    else Ok
  }

  function DispositionFor(status: Status): Disposition {
    match status
    case Ok | InternalError => Continue
    case BadChain | LengthMismatch => Drain
    case BadMagic | UnsupportedVersion | PayloadTooLarge => Close
  }

  /** The checks in the order the protocol fixes them, each with the status it fails with. */
  function Checks(h: RequestHeader, limits: Limits): (r: seq<(bool, Status)>)
    ensures |r| == 5
  {
    [(h.magic == MAGIC, BadMagic),
     (h.version == VERSION, UnsupportedVersion),
     (h.payloadLen <= limits.maxPayloadBytes, PayloadTooLarge),
     (h.chainLen <= limits.maxChainLen, BadChain),
     (SupportedChannels(h.channels) && h.width > 0 && h.height > 0 && WrappedProduct(h) == h.payloadLen, LengthMismatch)]
  }

  /** A header is accepted when it passes every check, and otherwise gets its first failure's status. */
  lemma ValidateIsFirstFailure(h: RequestHeader, limits: Limits)
    ensures Validate(h, limits) == Ok <==> forall i :: 0 <= i < 5 ==> Checks(h, limits)[i].0
    ensures Validate(h, limits) != Ok ==>
              exists i :: 0 <= i < 5 && !Checks(h, limits)[i].0 && Validate(h, limits) == Checks(h, limits)[i].1
                          && forall j :: 0 <= j < i ==> Checks(h, limits)[j].0
  {
    var checks := Checks(h, limits);
    if !checks[0].0 {
      assert Validate(h, limits) == checks[0].1;
    } else if !checks[1].0 {
      assert Validate(h, limits) == checks[1].1;
    } else if !checks[2].0 {
      assert Validate(h, limits) == checks[2].1;
    } else if !checks[3].0 {
      assert Validate(h, limits) == checks[3].1;
    } else if !checks[4].0 {
      assert Validate(h, limits) == checks[4].1;
    }
  }

  /** The connection is closed exactly when the declared payload length cannot be trusted or is too large. */
  lemma DrainIsBounded(h: RequestHeader, limits: Limits)
    ensures DispositionFor(Validate(h, limits)) == Close <==>
              h.magic != MAGIC || h.version != VERSION || h.payloadLen > limits.maxPayloadBytes
    ensures Validate(h, limits) != InternalError
  {
  }

  function TrueProduct(h: RequestHeader): nat {
    h.width * h.height * h.channels
  }

  /** The width, height and channels the frame carries after narrowing to `int`. */
  predicate NarrowsWell(h: RequestHeader) {
    GoodDimensions(ToInt32(h.width), ToInt32(h.height), h.channels)
  }

  lemma ProductMono(a: nat, b: nat, c: nat, d: nat)
    requires a <= c && b <= d
    ensures a * b <= c * d
  {
    assert a * b <= c * b;
    assert c * b <= c * d;
  }

  lemma ThreeFactors(area: nat, channels: nat)
    requires area <= INT32_MAX * INT32_MAX && channels <= 4
    ensures (area % UINT64_LIMIT) * channels % UINT64_LIMIT == area * channels
  {
    ProductMono(area, channels, INT32_MAX * INT32_MAX, 4);
    assert area % UINT64_LIMIT == area;
  }

  lemma ProductFits(h: RequestHeader)
    requires h.width <= INT32_MAX && h.height <= INT32_MAX && h.channels <= 4
    ensures WrappedProduct(h) == TrueProduct(h)
  {
    ProductMono(h.width, h.height, INT32_MAX, INT32_MAX);
    ThreeFactors(h.width * h.height, h.channels);
  }

  /**
   A frame that passes validation, narrowing and the dimension check has exactly
   width * height * channels payload bytes, with no wrap, within the slot size.
   */
  lemma ServedFrameIsExact(h: RequestHeader, limits: Limits)
    requires Validate(h, limits) == Ok && NarrowsWell(h)
    ensures ToInt32(h.width) == h.width && ToInt32(h.height) == h.height
    ensures TrueProduct(h) == h.payloadLen <= limits.maxPayloadBytes
    ensures ByteCount(ToInt32(h.width), ToInt32(h.height), h.channels) == h.payloadLen
  {
    ProductFits(h);
    ByteCountIsProduct(h.width, h.height, h.channels);
  }

  /** Two dimensions of 2^31 wrap to an empty payload, and validation lets them through. */
  lemma WrapPasses(limits: Limits)
    ensures var h := RequestHeader(MAGIC, VERSION, 0, 0, 0x8000_0000, 0x8000_0000, 4, 0, 0);
            Validate(h, limits) == Ok && TrueProduct(h) != h.payloadLen && !NarrowsWell(h)
  {
  }

  /** A frame of 50000 x 50000 samples passes validation and narrowing under a limit of its size. */
  lemma LargeFramePasses(limits: Limits)
    requires limits.maxPayloadBytes >= 2_500_000_000
    ensures var h := RequestHeader(MAGIC, VERSION, 0, 0, 50000, 50000, 1, 2_500_000_000, 0);
            Validate(h, limits) == Ok && NarrowsWell(h) && TrueProduct(h) == h.payloadLen
  {
  }

  lemma NoWrapIffSmallArea(area: nat, channels: nat)
    requires SupportedChannels(channels)
    ensures area * channels < UINT64_LIMIT <==> area <= (UINT64_LIMIT - 1) / channels
    ensures area * channels < UINT64_LIMIT ==> (area % UINT64_LIMIT) * channels % UINT64_LIMIT == area * channels
  {
    if area * channels < UINT64_LIMIT {
      ProductMono(area, 1, area, channels);
      assert area % UINT64_LIMIT == area;
    }
  }

  /** Under any limit, a validated product is exact just when it does not wrap. */
  lemma ExactIffNoWrap(h: RequestHeader, limits: Limits)
    requires Validate(h, limits) == Ok
    ensures TrueProduct(h) == h.payloadLen <==> h.width * h.height <= (UINT64_LIMIT - 1) / h.channels
  {
    NoWrapIffSmallArea(h.width * h.height, h.channels);
  }

  /** With a payload limit an `int` can hold, the product is exact just when it narrows well. */
  lemma ExactIffNarrow(h: RequestHeader, limits: Limits)
    requires Validate(h, limits) == Ok && limits.maxPayloadBytes <= INT32_MAX
    ensures TrueProduct(h) == h.payloadLen <==> NarrowsWell(h)
  {
    if NarrowsWell(h) {
      ServedFrameIsExact(h, limits);
    } else {
      ProductMono(1, 1, h.height, h.channels);
      if h.width > INT32_MAX {
        ProductMono(h.width, 1, h.width, h.height);
      } else {
        ProductMono(1, h.height, h.width, h.height);
      }
      ProductMono(h.width * h.height, 1, h.width * h.height, h.channels);
    }
  }
}
