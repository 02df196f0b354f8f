/**
 The one image representation: 8-bit samples, interleaved channels, packed rows
 (include/imgjit/core/image.h, src/core/image.cpp).
 */
module Images {
  import opened Arith
  import opened Samples
  import opened Chains

  datatype Image = Image(width: nat, height: nat, channels: nat, pixels: seq<Byte>)

  function ByteCount(width: nat, height: nat, channels: nat): nat {
    Times(Times(height, width), channels)
  }

  lemma ByteCountIsProduct(width: nat, height: nat, channels: nat)
    ensures ByteCount(width, height, channels) == width * height * channels
  {
    TimesIsProduct(height, width);
    TimesIsProduct(height * width, channels);
  }

  predicate WellFormed(img: Image) {
    && img.width > 0 && img.height > 0 && SupportedChannels(img.channels)
    && |img.pixels| == ByteCount(img.width, img.height, img.channels)
  }

  /** The position of channel `c` of the pixel at column `x`, row `y`. */
  function Index(width: nat, channels: nat, x: nat, y: nat, c: nat): nat {
    Times(Times(y, width) + x, channels) + c
  }

  lemma PixelBounds(width: nat, height: nat, x: nat, y: nat)
    requires x < width && y < height
    ensures Times(y, width) + x < Times(height, width)
  {
    TimesStep(y, height, width);
  }

  lemma IndexBounds(width: nat, height: nat, channels: nat, x: nat, y: nat)
    requires x < width && y < height
    ensures Index(width, channels, x, y, 0) + channels <= ByteCount(width, height, channels)
  {
    PixelBounds(width, height, x, y);
    TimesStep(Times(y, width) + x, Times(height, width), channels);
  }

  function ColumnOf(width: nat, channels: nat, i: nat): nat
    requires width > 0 && channels > 0
  {
    Rem(Quot(i, channels), width)
  }

  function RowOf(width: nat, channels: nat, i: nat): nat
    requires width > 0 && channels > 0
  {
    Quot(Quot(i, channels), width)
  }

  /** Column, row and channel are recovered from the position. */
  lemma IndexDecodes(width: nat, channels: nat, x: nat, y: nat, c: nat)
    requires x < width && c < channels
    ensures var i := Index(width, channels, x, y, c);
            Rem(i, channels) == c && ColumnOf(width, channels, i) == x && RowOf(width, channels, i) == y
  {
    QuotUnique(Times(y, width) + x, channels, c);
    QuotUnique(y, width, x);
  }

  /** Every position below the byte count is the position of one sample. */
  lemma PositionIsIndex(width: nat, height: nat, channels: nat, i: nat)
    requires width > 0 && channels > 0 && i < ByteCount(width, height, channels)
    ensures ColumnOf(width, channels, i) < width && RowOf(width, channels, i) < height
    ensures Index(width, channels, ColumnOf(width, channels, i), RowOf(width, channels, i), Rem(i, channels)) == i
  {
    QuotRem(i, channels);
    QuotBound(i, channels, Times(height, width));
    QuotRem(Quot(i, channels), width);
    QuotBound(Quot(i, channels), width, height);
  }

  function At(img: Image, x: nat, y: nat, c: nat): Byte
    requires WellFormed(img) && x < img.width && y < img.height && c < img.channels
  {
    IndexBounds(img.width, img.height, img.channels, x, y);
    img.pixels[Index(img.width, img.channels, x, y, c)]
  }

  /** Two images of one shape with the same samples are the same image. */
  lemma SameSamples(a: Image, b: Image)
    requires WellFormed(a) && WellFormed(b)
    requires a.width == b.width && a.height == b.height && a.channels == b.channels
    requires forall x: nat, y: nat, c: nat {:trigger At(a, x, y, c)} {:trigger At(b, x, y, c)} ::
               x < a.width && y < a.height && c < a.channels ==> At(a, x, y, c) == At(b, x, y, c)
    ensures a == b
  {
    forall i | 0 <= i < |a.pixels| ensures a.pixels[i] == b.pixels[i] {
      PositionIsIndex(a.width, a.height, a.channels, i);
      var x, y, c := ColumnOf(a.width, a.channels, i), RowOf(a.width, a.channels, i), Rem(i, a.channels);
      assert At(a, x, y, c) == At(b, x, y, c);
    }
  }

  function ClampCoordinate(v: int, limit: nat): (r: nat)
    requires limit > 0
    ensures r < limit
    ensures 0 <= v < limit ==> r == v
  {
    if v < 0 then 0 else if v > limit - 1 then limit - 1 else v
  }

  /** The bytes a copy of `rows` rows reads out of a source with rows `stride` apart. */
  function SpanBytes(rows: nat, rowBytes: nat, stride: nat): nat {
    if rows == 0 then 0 else Times(rows - 1, stride) + rowBytes
  }

  /** The rows of a padded source, packed: row y comes from byte y * stride on. */
  function PackedRows(source: seq<Byte>, rows: nat, rowBytes: nat, stride: nat): (r: seq<Byte>)
    requires rowBytes <= stride && SpanBytes(rows, rowBytes, stride) <= |source|
    ensures |r| == Times(rows, rowBytes)
  {
    if rows == 0 then []
    else
      PackedRows(source, rows - 1, rowBytes, stride)
      + source[Times(rows - 1, stride)..Times(rows - 1, stride) + rowBytes]
  }

  /** With packed rows the copy is the front of the source, unchanged. */
  lemma {:induction false} PackedRowsArePrefix(source: seq<Byte>, rows: nat, rowBytes: nat)
    requires Times(rows, rowBytes) <= |source|
    ensures SpanBytes(rows, rowBytes, rowBytes) <= |source|
    ensures PackedRows(source, rows, rowBytes, rowBytes) == source[..Times(rows, rowBytes)]
  {
    if rows > 0 {
      PackedRowsArePrefix(source, rows - 1, rowBytes);
    }
  }

  /** Height rows of width * channels bytes are the byte count. */
  lemma {:induction false} RowsAreByteCount(width: nat, height: nat, channels: nat)
    ensures Times(height, Times(width, channels)) == ByteCount(width, height, channels)
  {
    if height > 0 {
      RowsAreByteCount(width, height - 1, channels);
      TimesAdd(Times(height - 1, width), width, channels);
    }
  }

  datatype ImageResult = ImageOk(image: Image) | BadDimensions | NarrowStride

  predicate GoodDimensions(width: int, height: int, channels: int) {
    width > 0 && height > 0 && SupportedChannels(channels)
  }

  /** Image::from_bytes: the dimension check, the stride check, then one row at a time. */
  method FromBytes(width: int, height: int, channels: int, source: seq<Byte>, stride: nat)
    returns (r: ImageResult)
    requires GoodDimensions(width, height, channels) && Times(width, channels) <= stride
             ==> SpanBytes(height, Times(width, channels), stride) <= |source|
    ensures r.BadDimensions? <==> !GoodDimensions(width, height, channels)
    ensures r.NarrowStride? <==> GoodDimensions(width, height, channels) && stride < Times(width, channels)
    ensures r.ImageOk? ==>
              && WellFormed(r.image)
              && r.image.width == width && r.image.height == height && r.image.channels == channels
              && r.image.pixels == PackedRows(source, height, Times(width, channels), stride)
  {
    if !GoodDimensions(width, height, channels) {
      return BadDimensions;
    }
    var rowBytes := Times(width, channels);
    if stride < rowBytes {
      return NarrowStride;
    }
    var pixels: seq<Byte> := [];
    for y := 0 to height
      invariant SpanBytes(y, rowBytes, stride) <= |source|
      invariant pixels == PackedRows(source, y, rowBytes, stride)
    {
      TimesMono(y, height - 1, stride);
      pixels := pixels + source[Times(y, stride)..Times(y, stride) + rowBytes];
    }
    RowsAreByteCount(width, height, channels);
    r := ImageOk(Image(width, height, channels, pixels));
  }

  /** A sample's position is at least its column and at least its row. */
  lemma IndexAtLeast(width: nat, channels: nat, x: nat, y: nat)
    requires width > 0 && channels > 0
    ensures Index(width, channels, x, y, 0) >= x && Index(width, channels, x, y, 0) >= y
  {
    TimesAtLeast(y, width);
    TimesAtLeast(Times(y, width) + x, channels);
  }

  /** Neither extent is more than the byte count. */
  lemma ExtentsWithin(width: nat, height: nat, channels: nat)
    requires GoodDimensions(width, height, channels)
    ensures width <= ByteCount(width, height, channels) && height <= ByteCount(width, height, channels)
  {
    IndexBounds(width, height, channels, width - 1, 0);
    IndexBounds(width, height, channels, 0, height - 1);
    IndexAtLeast(width, channels, width - 1, 0);
    IndexAtLeast(width, channels, 0, height - 1);
  }
}
