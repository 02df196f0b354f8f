/**
 The kernel key: every input of code generation (src/core/kernel_key.cpp,
 include/imgjit/core/kernel_key.h), its equality, the byte string its hash reads, and
 the program it generates.
 */
module KernelKeys {
  import opened Samples
  import opened Words
  import opened Chains
  import opened Oracle
  import opened FusionPlan
  import opened Kernels

  datatype TileVariant = Naive | Tiled
  datatype ConstantsMode = Baked | Parameterized

  datatype KernelKey = KernelKey(
    chain: OpChain, channels: int, tile: TileVariant, tileSize: int, constants: ConstantsMode)

  predicate IsInt32(n: int) {
    INT32_MIN <= n <= INT32_MAX
  }

  /** A key whose two integer fields are 32-bit integers, as the program's fields are. */
  predicate KeyFits(key: KernelKey) {
    IsInt32(key.channels) && IsInt32(key.tileSize)
  }

  predicate SameOp(a: Op, b: Op, byParam: bool) {
    a.kind == b.kind && (byParam ==> ParamHundredths(a.param) == ParamHundredths(b.param))
  }

  /** operator==: parameters count in baked keys only, and are compared in hundredths. */
  predicate KeyEq(a: KernelKey, b: KernelKey) {
    && a.channels == b.channels && a.tile == b.tile && a.tileSize == b.tileSize && a.constants == b.constants
    && |a.chain| == |b.chain|
    && forall i :: 0 <= i < |a.chain| ==> SameOp(a.chain[i], b.chain[i], a.constants == Baked)
  }

  method KeysEqual(a: KernelKey, b: KernelKey) returns (equal: bool)
    ensures equal <==> KeyEq(a, b)
  {
    if a.channels != b.channels || a.tile != b.tile || a.tileSize != b.tileSize
       || a.constants != b.constants || |a.chain| != |b.chain| {
      return false;
    }
    for i := 0 to |a.chain|
      invariant forall j :: 0 <= j < i ==> SameOp(a.chain[j], b.chain[j], a.constants == Baked)
    {
      if !SameOp(a.chain[i], b.chain[i], a.constants == Baked) {
        return false;
      }
    }
    return true;
  }

  lemma KeyEqIsEquivalence(a: KernelKey, b: KernelKey, c: KernelKey)
    ensures KeyEq(a, a)
    ensures KeyEq(a, b) ==> KeyEq(b, a)
    ensures KeyEq(a, b) && KeyEq(b, c) ==> KeyEq(a, c)
  {
    if KeyEq(a, b) && KeyEq(b, c) {
      forall i | 0 <= i < |a.chain| ensures SameOp(a.chain[i], c.chain[i], a.constants == Baked) {
        assert SameOp(a.chain[i], b.chain[i], a.constants == Baked) && SameOp(b.chain[i], c.chain[i], b.constants == Baked);
      }
    }
    if KeyEq(a, b) {
      forall i | 0 <= i < |a.chain| ensures SameOp(b.chain[i], a.chain[i], b.constants == Baked) {
        assert SameOp(a.chain[i], b.chain[i], a.constants == Baked);
      }
    }
  }

  // ------------------------------------------------------------ bytes and hash

  /** The four bytes of a 32-bit integer, low byte first. */
  function Int32Bytes(value: int): (r: seq<Byte>)
    ensures |r| == 4
  {
    PutWord32(value % UINT32_LIMIT)
  }

  lemma Int32BytesInjective(a: int, b: int)
    requires IsInt32(a) && IsInt32(b) && Int32Bytes(a) == Int32Bytes(b)
    ensures a == b
  {
    Word32RoundTrip(a % UINT32_LIMIT, Int32Bytes(a));
    Word32RoundTrip(b % UINT32_LIMIT, Int32Bytes(b));
  }

  function KindByte(kind: OpKind): Byte {
    match kind
    case Grayscale => 0
    case Invert => 1
    case Brightness => 2
    case Threshold => 3
    case Gaussian => 4
    case Sobel => 5
  }

  function OpBytes(op: Op, byParam: bool): (r: seq<Byte>)
    ensures |r| == if byParam then 5 else 1
  {
    [KindByte(op.kind)] + if byParam then Int32Bytes(ParamHundredths(op.param)) else []
  }

  function ChainBytes(chain: OpChain, byParam: bool): (r: seq<Byte>)
    ensures |r| == if byParam then 5 * |chain| else |chain|
  {
    if chain == [] then []
    else ChainBytes(chain[..|chain| - 1], byParam) + OpBytes(chain[|chain| - 1], byParam)
  }

  function TailBytes(key: KernelKey): (r: seq<Byte>)
    ensures |r| == 10
  {
    Int32Bytes(key.channels) + [if key.tile == Naive then 0 else 1]
    + Int32Bytes(key.tileSize) + [if key.constants == Baked then 0 else 1]
  }

  /** The byte string hash_kernel_key reads, in order. */
  function KeyBytes(key: KernelKey): seq<Byte> {
    Int32Bytes(ToInt32(|key.chain|)) + ChainBytes(key.chain, key.constants == Baked) + TailBytes(key)
  }

  lemma OpBytesInjective(a: Op, b: Op, byParam: bool)
    ensures OpBytes(a, byParam) == OpBytes(b, byParam) <==> SameOp(a, b, byParam)
  {
    if OpBytes(a, byParam) == OpBytes(b, byParam) {
      assert OpBytes(a, byParam)[0] == OpBytes(b, byParam)[0];
      if byParam {
        assert OpBytes(a, byParam)[1..] == OpBytes(b, byParam)[1..];
        Int32BytesInjective(ParamHundredths(a.param), ParamHundredths(b.param));
      }
    }
  }

  /** Chains of one length spell the same bytes exactly when they match op by op. */
  lemma {:induction false} ChainBytesInjective(a: OpChain, b: OpChain, byParam: bool)
    requires |a| == |b|
    ensures ChainBytes(a, byParam) == ChainBytes(b, byParam)
            <==> forall i :: 0 <= i < |a| ==> SameOp(a[i], b[i], byParam)
    decreases |a|
  {
    if a != [] {
      var a', b', last := a[..|a| - 1], b[..|b| - 1], |a| - 1;
      ChainBytesInjective(a', b', byParam);
      OpBytesInjective(a[last], b[last], byParam);
      var x, y := ChainBytes(a, byParam), ChainBytes(b, byParam);
      var cut := |ChainBytes(a', byParam)|;
      assert x[..cut] == ChainBytes(a', byParam) && x[cut..] == OpBytes(a[last], byParam);
      assert y[..cut] == ChainBytes(b', byParam) && y[cut..] == OpBytes(b[last], byParam);
      assert x == y <==> x[..cut] == y[..cut] && x[cut..] == y[cut..] by {
        assert x == x[..cut] + x[cut..] && y == y[..cut] + y[cut..];
      }
      assert (forall i :: 0 <= i < |a| ==> SameOp(a[i], b[i], byParam))
        <==> (forall i :: 0 <= i < |a'| ==> SameOp(a'[i], b'[i], byParam)) && SameOp(a[last], b[last], byParam) by {
        assert forall i :: 0 <= i < |a'| ==> a[i] == a'[i] && b[i] == b'[i];
      }
    }
  }

  lemma TailBytesInjective(a: KernelKey, b: KernelKey)
    requires KeyFits(a) && KeyFits(b)
    ensures TailBytes(a) == TailBytes(b) <==>
              a.channels == b.channels && a.tile == b.tile && a.tileSize == b.tileSize && a.constants == b.constants
  {
    var x, y := TailBytes(a), TailBytes(b);
    if x == y {
      assert x[..4] == Int32Bytes(a.channels) && y[..4] == Int32Bytes(b.channels);
      assert x[5..9] == Int32Bytes(a.tileSize) && y[5..9] == Int32Bytes(b.tileSize);
      Int32BytesInjective(a.channels, b.channels);
      Int32BytesInjective(a.tileSize, b.tileSize);
      assert x[4] == y[4] && x[9] == y[9];
    }
  }

  lemma KeyBytesParts(key: KernelKey)
    ensures |KeyBytes(key)| == 14 + (if key.constants == Baked then 5 * |key.chain| else |key.chain|)
    ensures var bytes := KeyBytes(key);
            bytes[4..|bytes| - 10] == ChainBytes(key.chain, key.constants == Baked)
            && bytes[|bytes| - 10..] == TailBytes(key)
  {
  }

  /**
   The byte string is uniquely decodable: two keys spell the same bytes exactly when
   they are equal, in both modes and at every chain length, even one whose length
   wraps in the 32-bit prefix.
   */
  lemma KeyBytesDecodable(a: KernelKey, b: KernelKey)
    requires KeyFits(a) && KeyFits(b)
    ensures KeyBytes(a) == KeyBytes(b) <==> KeyEq(a, b)
  {
    KeyBytesParts(a);
    KeyBytesParts(b);
    TailBytesInjective(a, b);
    if |a.chain| == |b.chain| && a.constants == b.constants {
      ChainBytesInjective(a.chain, b.chain, a.constants == Baked);
    }
    if KeyBytes(a) == KeyBytes(b) {
      assert TailBytes(a) == TailBytes(b);
      assert ChainBytes(a.chain, a.constants == Baked) == ChainBytes(b.chain, b.constants == Baked);
    }
  }

  const FNV_OFFSET_BASIS: bv64 := 1469598103934665603
  const FNV_PRIME: bv64 := 1099511628211

  function HashByte(state: bv64, byte: Byte): bv64 {
    (state ^ (byte as bv64)) * FNV_PRIME
  }

  function HashBytes(state: bv64, bytes: seq<Byte>): bv64 {
    if bytes == [] then state else HashByte(HashBytes(state, bytes[..|bytes| - 1]), bytes[|bytes| - 1])
  }

  lemma {:induction false} HashBytesConcat(state: bv64, a: seq<Byte>, b: seq<Byte>)
    ensures HashBytes(state, a + b) == HashBytes(HashBytes(state, a), b)
    decreases |b|
  {
    if b == [] {
      assert a + b == a;
    } else {
      HashBytesConcat(state, a, b[..|b| - 1]);
      assert (a + b)[..|a + b| - 1] == a + b[..|b| - 1];
    }
  }

  /** hash_i32: one byte per shift of the running state. */
  method HashInt32(start: bv64, value: int) returns (state: bv64)
    ensures state == HashBytes(start, Int32Bytes(value))
  {
    state := start;
    var bytes := Int32Bytes(value);
    for i := 0 to 4
      invariant state == HashBytes(start, bytes[..i])
    {
      state := HashByte(state, bytes[i]);
      assert bytes[..i + 1][..i] == bytes[..i];
    }
    assert bytes[..4] == bytes;
  }

  method HashOp(start: bv64, op: Op, byParam: bool) returns (state: bv64)
    ensures state == HashBytes(start, OpBytes(op, byParam))
  {
    var kind := [KindByte(op.kind)];
    state := HashByte(start, KindByte(op.kind));
    assert kind[..0] == [];
    assert state == HashBytes(start, kind);
    if byParam {
      state := HashInt32(state, ParamHundredths(op.param));
      HashBytesConcat(start, kind, Int32Bytes(ParamHundredths(op.param)));
    } else {
      assert kind + [] == kind;
    }
  }

  lemma ChainBytesNext(chain: OpChain, i: nat, byParam: bool)
    requires i < |chain|
    ensures ChainBytes(chain[..i + 1], byParam) == ChainBytes(chain[..i], byParam) + OpBytes(chain[i], byParam)
  {
    assert chain[..i + 1][..i] == chain[..i];
  }

  /** The loop over the chain. */
  method HashChain(start: bv64, chain: OpChain, byParam: bool) returns (state: bv64)
    ensures state == HashBytes(start, ChainBytes(chain, byParam))
  {
    state := start;
    for i := 0 to |chain|
      invariant state == HashBytes(start, ChainBytes(chain[..i], byParam))
    {
      ChainBytesNext(chain, i, byParam);
      HashBytesConcat(start, ChainBytes(chain[..i], byParam), OpBytes(chain[i], byParam));
      state := HashOp(state, chain[i], byParam);
    }
    assert chain[..|chain|] == chain;
  }

  /** hash_kernel_key: the running state folds in the key's byte string, left to right. */
  method HashKernelKey(key: KernelKey) returns (state: bv64)
    ensures state == HashBytes(FNV_OFFSET_BASIS, KeyBytes(key))
  {
    var length, ops := Int32Bytes(ToInt32(|key.chain|)), ChainBytes(key.chain, key.constants == Baked);
    state := HashInt32(FNV_OFFSET_BASIS, ToInt32(|key.chain|));
    state := HashChain(state, key.chain, key.constants == Baked);
    HashBytesConcat(FNV_OFFSET_BASIS, length, ops);
    state := HashTail(state, key);
    HashBytesConcat(FNV_OFFSET_BASIS, length + ops, TailBytes(key));
  }

  method HashTail(start: bv64, key: KernelKey) returns (state: bv64)
    ensures state == HashBytes(start, TailBytes(key))
  {
    var channels, tile := Int32Bytes(key.channels), [if key.tile == Naive then 0 else 1];
    var size, constants := Int32Bytes(key.tileSize), [if key.constants == Baked then 0 else 1];
    state := HashInt32(start, key.channels);
    HashBytesConcat(start, channels, tile);
    assert tile[..0] == [] && constants[..0] == [];
    state := HashByte(state, tile[0]);
    HashBytesConcat(start, channels + tile, size);
    state := HashInt32(state, key.tileSize);
    HashBytesConcat(start, channels + tile + size, constants);
    state := HashByte(state, constants[0]);
  }

  /** Equal keys always hash alike, so a bucket never hides an entry. */
  lemma EqualKeysHashAlike(a: KernelKey, b: KernelKey)
    requires KeyFits(a) && KeyFits(b) && KeyEq(a, b)
    ensures HashBytes(FNV_OFFSET_BASIS, KeyBytes(a)) == HashBytes(FNV_OFFSET_BASIS, KeyBytes(b))
  {
    KeyBytesDecodable(a, b);
  }

  // ---------------------------------------------------------- generated programs

  predicate SupportedTile(tile: TileVariant, tileSize: int) {
    if tile == Naive then tileSize == 0 else 1 <= tileSize <= MAX_TILE_SIZE
  }

  predicate SupportedConstants(constants: ConstantsMode, tile: TileVariant) {
    constants == Baked || tile == Naive
  }

  predicate SupportedKey(key: KernelKey) {
    SupportedChannels(key.channels) && SupportedTile(key.tile, key.tileSize) && SupportedConstants(key.constants, key.tile)
  }

  /** emit_cuda_source: None is any of its refusals. */
  function EmitProgram(nm: Numerics, key: KernelKey): (r: Option<seq<Kernel>>)
    ensures r.Some? ==> SupportedKey(key) && |r.value| == |Plan(key.chain)|
  {
    if !SupportedKey(key) then None
    else EmitStages(nm, Plan(key.chain), key.channels, if key.tile == Tiled then key.tileSize else 0,
           key.constants == Parameterized)
  }
}
