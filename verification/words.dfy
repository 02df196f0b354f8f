/** Unsigned words as bytes, low byte first, one shift of eight bits per byte. */
module Words {
  import opened Samples

  const UINT32_LIMIT := 0x1_0000_0000
  const UINT64_LIMIT := 0x1_0000_0000_0000_0000

  type Word16 = n: int | 0 <= n < 0x1_0000
  type Word32 = n: int | 0 <= n < 0x1_0000_0000

  function PutWord16(n: Word16): (r: seq<Byte>)
    ensures |r| == 2
  {
    [n % 256, n / 256]
  }

  function PutWord32(n: Word32): (r: seq<Byte>)
    ensures |r| == 4
  {
    var n1 := n / 256;
    var n2 := n1 / 256;
    [n % 256, n1 % 256, n2 % 256, n2 / 256]
  }

  function GetWord16(bytes: seq<Byte>): Word16
    requires |bytes| == 2
  {
    bytes[0] + 256 * (bytes[1] as int)
  }

  function GetWord32(bytes: seq<Byte>): Word32
    requires |bytes| == 4
  {
    bytes[0] + 256 * (bytes[1] as int + 256 * (bytes[2] as int + 256 * (bytes[3] as int)))
  }

  lemma Word16RoundTrip(n: Word16, bytes: seq<Byte>)
    requires |bytes| == 2
    ensures GetWord16(PutWord16(n)) == n
    ensures PutWord16(GetWord16(bytes)) == bytes
  {
  }

  lemma Word32RoundTrip(n: Word32, bytes: seq<Byte>)
    requires |bytes| == 4
    ensures GetWord32(PutWord32(n)) == n
    ensures PutWord32(GetWord32(bytes)) == bytes
  {
    var m := GetWord32(bytes);
    assert m % 256 == bytes[0] && m / 256 == bytes[1] as int + 256 * (bytes[2] as int + 256 * (bytes[3] as int));
    assert m / 256 / 256 == bytes[2] as int + 256 * (bytes[3] as int);
  }
}
