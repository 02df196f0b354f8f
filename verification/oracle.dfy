/**
 The scalar implementation of the six operations (src/backend/cpu/ops.cpp): the
 meaning every other way of running a chain is measured against. Each operation has
 a sample-by-sample specification and the loop nest that computes it.
 */
module Oracle {
  import opened Arith
  import opened Samples
  import opened Chains
  import opened Images

  /**
   Square root, the normalized one-dimensional weights and the product of two register
   values, as arbitrary functions: every result holds whatever they are, so in particular
   for the exact product.
   */
  datatype Numerics = Numerics(
    root: real -> real, weight: (real, int) -> real, mul: (real, real) -> real)

  function Weights(nm: Numerics, sigma: real): (w: seq<real>)
    ensures |w| == 2 * GaussianRadius(sigma) + 1
  {
    var r := GaussianRadius(sigma);
    seq(2 * r + 1, i => nm.weight(sigma, i - r))
  }

  function WeightAt(weights: seq<real>, i: int): real {
    if 0 <= i < |weights| then weights[i] else 0.0
  }

  /** The first `n` terms of row `dy`, in the order dx = -r, -r+1, ... */
  function RowSum(f: (int, int) -> real, r: nat, dy: int, n: nat): real {
    if n == 0 then 0.0 else RowSum(f, r, dy, n - 1) + f(dy, n - 1 - r)
  }

  /** The first `m` rows, in the order dy = -r, -r+1, ... */
  function RowsSum(f: (int, int) -> real, r: nat, m: nat): real {
    if m == 0 then 0.0 else RowsSum(f, r, m - 1) + RowSum(f, r, m - 1 - r, 2 * r + 1)
  }

  /** All (2r+1)^2 taps. */
  function TapSum(f: (int, int) -> real, r: nat): real {
    RowsSum(f, r, 2 * r + 1)
  }

  lemma {:induction false} RowSumAgrees(f: (int, int) -> real, g: (int, int) -> real, r: nat, dy: int, n: nat)
    requires forall dx: int :: 0 - r <= dx < n - r ==> f(dy, dx) == g(dy, dx)
    ensures RowSum(f, r, dy, n) == RowSum(g, r, dy, n)
  {
    if n > 0 {
      RowSumAgrees(f, g, r, dy, n - 1);
      assert f(dy, n - 1 - r) == g(dy, n - 1 - r);
    }
  }

  lemma {:induction false} RowsSumAgrees(f: (int, int) -> real, g: (int, int) -> real, r: nat, m: nat)
    requires forall dy: int, dx: int :: 0 - r <= dy < m - r && 0 - r <= dx <= r ==> f(dy, dx) == g(dy, dx)
    ensures RowsSum(f, r, m) == RowsSum(g, r, m)
  {
    if m > 0 {
      RowsSumAgrees(f, g, r, m - 1);
      RowSumAgrees(f, g, r, m - 1 - r, 2 * r + 1);
    }
  }

  /** Taps that agree everywhere sum to the same number. */
  lemma TapSumAgrees(f: (int, int) -> real, g: (int, int) -> real, r: nat)
    requires forall dy: int, dx: int :: 0 - r <= dy <= r && 0 - r <= dx <= r ==> f(dy, dx) == g(dy, dx)
    ensures TapSum(f, r) == TapSum(g, r)
  {
    RowsSumAgrees(f, g, r, 2 * r + 1);
  }

  datatype Axis = Horizontal | Vertical

  /** The 3x3 coefficients, row by row. */
  function Coefficient(axis: Axis, dy: int, dx: int): real {
    match axis
    case Horizontal => if dy == 0 then 2.0 * dx as real else dx as real
    case Vertical => if dx == 0 then 2.0 * dy as real else dy as real
  }

  /** A neighbour with its coordinates clamped to the image, as a register value. */
  function ClampedLoad(img: Image, x: int, y: int, c: nat): real
    requires WellFormed(img) && c < img.channels
  {
    Load(At(img, ClampCoordinate(x, img.width), ClampCoordinate(y, img.height), c))
  }

  /** The blur's summand at offset (dy, dx): the product weight times the neighbour. */
  function GaussianTerm(nm: Numerics, img: Image, sigma: real, x: nat, y: nat, c: nat, dy: int, dx: int): real
    requires WellFormed(img) && c < img.channels
  {
    var r, w := GaussianRadius(sigma), Weights(nm, sigma);
    nm.mul(nm.mul(WeightAt(w, dy + r), WeightAt(w, dx + r)), ClampedLoad(img, x + dx, y + dy, c))
  }

  function GaussianTerms(nm: Numerics, img: Image, sigma: real, x: nat, y: nat, c: nat): (int, int) -> real
    requires WellFormed(img) && c < img.channels
  {
    (dy, dx) => GaussianTerm(nm, img, sigma, x, y, c, dy, dx)
  }

  function GaussianSum(nm: Numerics, img: Image, sigma: real, x: nat, y: nat, c: nat): real
    requires WellFormed(img) && c < img.channels
  {
    TapSum(GaussianTerms(nm, img, sigma, x, y, c), GaussianRadius(sigma))
  }

  function SobelTerm(nm: Numerics, img: Image, axis: Axis, x: nat, y: nat, c: nat, dy: int, dx: int): real
    requires WellFormed(img) && c < img.channels
  {
    nm.mul(Coefficient(axis, dy, dx), ClampedLoad(img, x + dx, y + dy, c))
  }

  function SobelTerms(nm: Numerics, img: Image, axis: Axis, x: nat, y: nat, c: nat): (int, int) -> real
    requires WellFormed(img) && c < img.channels
  {
    (dy, dx) => SobelTerm(nm, img, axis, x, y, c, dy, dx)
  }

  function SobelSum(nm: Numerics, img: Image, axis: Axis, x: nat, y: nat, c: nat): real
    requires WellFormed(img) && c < img.channels
  {
    TapSum(SobelTerms(nm, img, axis, x, y, c), 1)
  }

  function Magnitude(nm: Numerics, gx: real, gy: real): real {
    nm.root(nm.mul(gx, gx) + nm.mul(gy, gy))
  }

  /** One output sample of one operation. Alpha is copied through every operation. */
  function OpSample(nm: Numerics, img: Image, op: Op, x: nat, y: nat, c: nat): Byte
    requires WellFormed(img) && x < img.width && y < img.height && c < img.channels
  {
    var colors := ColorChannels(img.channels);
    if c >= colors then At(img, x, y, c)
    else
      match op.kind
      case Grayscale =>
        if colors == 1 then At(img, x, y, 0)
        else Store(Luma(Load(At(img, x, y, 0)), Load(At(img, x, y, 1)), Load(At(img, x, y, 2))))
      case Invert => 255 - At(img, x, y, c)
      case Brightness => Store(Load(At(img, x, y, c)) + op.param)
      case Threshold => if Load(At(img, x, y, c)) >= op.param then 255 else 0
      case Gaussian => Store(GaussianSum(nm, img, op.param, x, y, c))
      case Sobel =>
        Store(Magnitude(nm, SobelSum(nm, img, Horizontal, x, y, c), SobelSum(nm, img, Vertical, x, y, c)))
  }

  function SampleAtPosition(nm: Numerics, img: Image, op: Op, i: nat): Byte
    requires WellFormed(img) && i < |img.pixels|
  {
    PositionIsIndex(img.width, img.height, img.channels, i);
    OpSample(nm, img, op, ColumnOf(img.width, img.channels, i), RowOf(img.width, img.channels, i),
      Rem(i, img.channels))
  }

  function ApplyOp(nm: Numerics, img: Image, op: Op): (r: Image)
    requires WellFormed(img)
    ensures WellFormed(r) && r.width == img.width && r.height == img.height && r.channels == img.channels
  {
    Image(img.width, img.height, img.channels,
      seq(|img.pixels|, i requires 0 <= i < |img.pixels| => SampleAtPosition(nm, img, op, i)))
  }

  /** The sample of the new image at (x, y, c) is the operation's sample there. */
  lemma ApplyOpAt(nm: Numerics, img: Image, op: Op, x: nat, y: nat, c: nat)
    requires WellFormed(img) && x < img.width && y < img.height && c < img.channels
    ensures At(ApplyOp(nm, img, op), x, y, c) == OpSample(nm, img, op, x, y, c)
  {
    IndexBounds(img.width, img.height, img.channels, x, y);
    IndexDecodes(img.width, img.channels, x, y, c);
  }

  /** The left-to-right fold: `apply_chain`. */
  function ApplyChain(nm: Numerics, img: Image, chain: OpChain): (r: Image)
    requires WellFormed(img)
    ensures WellFormed(r) && r.width == img.width && r.height == img.height && r.channels == img.channels
    decreases |chain|
  {
    if chain == [] then img
    else ApplyOp(nm, ApplyChain(nm, img, chain[..|chain| - 1]), chain[|chain| - 1])
  }

  /** Folding two chains one after the other folds their concatenation. */
  lemma {:induction false} ApplyChainConcat(nm: Numerics, img: Image, first: OpChain, second: OpChain)
    requires WellFormed(img)
    ensures ApplyChain(nm, ApplyChain(nm, img, first), second) == ApplyChain(nm, img, first + second)
    decreases |second|
  {
    if second == [] {
      assert first + second == first;
    } else {
      var init := second[..|second| - 1];
      ApplyChainConcat(nm, img, first, init);
      assert (first + second)[..|first + second| - 1] == first + init;
    }
  }

  /** Alpha survives every chain. */
  lemma {:induction false} ChainKeepsAlpha(nm: Numerics, img: Image, chain: OpChain, x: nat, y: nat)
    requires WellFormed(img) && img.channels == 4 && x < img.width && y < img.height
    ensures At(ApplyChain(nm, img, chain), x, y, 3) == At(img, x, y, 3)
    decreases |chain|
  {
    if chain != [] {
      var init := chain[..|chain| - 1];
      ChainKeepsAlpha(nm, img, init, x, y);
      ApplyOpAt(nm, ApplyChain(nm, img, init), chain[|chain| - 1], x, y, 3);
    }
  }

  // ------------------------------------------------------------------ the loops

  /**
   The colour samples of the first `n` pixels of `out` are those of `goal`, the pixels
   the operation is to produce; nothing is claimed about the other samples.
   */
  ghost predicate ColorsDone(goal: seq<Byte>, channels: nat, out: seq<Byte>, n: nat)
    requires SupportedChannels(channels)
  {
    && |out| == |goal|
    && forall i :: 0 <= i < Times(n, channels) && i < |out| && Rem(i, channels) < ColorChannels(channels)
         ==> out[i] == goal[i]
  }

  /** The colour samples below channel `c` of pixel number `p` are in place as well. */
  ghost predicate PixelDone(goal: seq<Byte>, channels: nat, out: seq<Byte>, p: nat, c: nat)
    requires SupportedChannels(channels)
  {
    && ColorsDone(goal, channels, out, p)
    && Times(p, channels) + c <= |out|
    && forall k :: Times(p, channels) <= k < Times(p, channels) + c ==> out[k] == goal[k]
  }

  /** A pixel whose colours are all in place joins the finished ones. */
  lemma PixelFinished(goal: seq<Byte>, channels: nat, out: seq<Byte>, p: nat)
    requires SupportedChannels(channels)
    requires PixelDone(goal, channels, out, p, ColorChannels(channels))
    ensures ColorsDone(goal, channels, out, p + 1)
  {
    forall i | Times(p, channels) <= i < Times(p + 1, channels) && i < |out| && Rem(i, channels) < ColorChannels(channels)
      ensures out[i] == goal[i]
    {
      QuotUnique(p, channels, i - Times(p, channels));
    }
  }

  /** The alpha samples of the first `n` pixels are in place, and every colour sample. */
  ghost predicate AlphaDone(goal: seq<Byte>, pixels: nat, out: seq<Byte>, n: nat) {
    && ColorsDone(goal, 4, out, pixels)
    && forall i :: 0 <= i < Times(n, 4) && i < |out| && Rem(i, 4) == 3 ==> out[i] == goal[i]
  }

  lemma AlphaWritten(goal: seq<Byte>, pixels: nat, out: seq<Byte>, p: nat, v: Byte)
    requires AlphaDone(goal, pixels, out, p) && Times(p, 4) + 3 < |out| && v == goal[Times(p, 4) + 3]
    ensures AlphaDone(goal, pixels, out[Times(p, 4) + 3 := v], p + 1)
  {
    forall i | Times(p, 4) <= i < Times(p + 1, 4) && Rem(i, 4) == 3
      ensures i == Times(p, 4) + 3
    {
      QuotUnique(p, 4, i - Times(p, 4));
    }
  }

  /** `goal` holds the operation's sample at every position. */
  ghost predicate IsGoal(nm: Numerics, img: Image, op: Op, goal: seq<Byte>)
    requires WellFormed(img)
  {
    && |goal| == |img.pixels|
    && forall x: nat, y: nat, c: nat {:trigger OpSample(nm, img, op, x, y, c)} ::
         x < img.width && y < img.height && c < img.channels ==>
           && Index(img.width, img.channels, x, y, c) < |goal|
           && goal[Index(img.width, img.channels, x, y, c)] == OpSample(nm, img, op, x, y, c)
  }

  lemma GoalOfOp(nm: Numerics, img: Image, op: Op)
    requires WellFormed(img)
    ensures IsGoal(nm, img, op, ApplyOp(nm, img, op).pixels)
  {
    forall x: nat, y: nat, c: nat | x < img.width && y < img.height && c < img.channels
      ensures Index(img.width, img.channels, x, y, c) < |img.pixels|
      ensures ApplyOp(nm, img, op).pixels[Index(img.width, img.channels, x, y, c)] == OpSample(nm, img, op, x, y, c)
    {
      IndexBounds(img.width, img.height, img.channels, x, y);
      ApplyOpAt(nm, img, op, x, y, c);
    }
  }

  /** All colours and all alphas in place: nothing is left. */
  lemma AllDone(goal: seq<Byte>, channels: nat, out: seq<Byte>, pixels: nat)
    requires SupportedChannels(channels) && |goal| == Times(pixels, channels)
    requires ColorsDone(goal, channels, out, pixels)
    requires channels == 4 ==> AlphaDone(goal, pixels, out, pixels)
    ensures out == goal
  {
  }

  /** copy_alpha: nothing to do below four channels, one write per pixel otherwise. */
  method CopyAlpha(nm: Numerics, img: Image, op: Op, colored: seq<Byte>, ghost goal: seq<Byte>)
    returns (a: seq<Byte>)
    requires WellFormed(img) && IsGoal(nm, img, op, goal)
    requires ColorsDone(goal, img.channels, colored, Times(img.height, img.width))
    ensures a == goal
  {
    ghost var all := Times(img.height, img.width);
    a := colored;
    if img.channels == 4 {
      for y := 0 to img.height
        invariant AlphaDone(goal, all, a, Times(y, img.width))
      {
        a := CopyAlphaRow(nm, img, op, y, a, goal);
      }
    }
    AllDone(goal, img.channels, a, all);
  }

  method CopyAlphaRow(nm: Numerics, img: Image, op: Op, y: nat, before: seq<Byte>, ghost goal: seq<Byte>)
    returns (a: seq<Byte>)
    requires WellFormed(img) && img.channels == 4 && y < img.height && IsGoal(nm, img, op, goal)
    requires AlphaDone(goal, Times(img.height, img.width), before, Times(y, img.width))
    ensures AlphaDone(goal, Times(img.height, img.width), a, Times(y, img.width) + img.width)
  {
    ghost var all := Times(img.height, img.width);
    a := before;
    for x := 0 to img.width
      invariant AlphaDone(goal, all, a, Times(y, img.width) + x)
    {
      var p := Times(y, img.width) + x;
      assert OpSample(nm, img, op, x, y, 3) == At(img, x, y, 3);
      AlphaWritten(goal, all, a, p, At(img, x, y, 3));
      a := a[Times(p, 4) + 3 := At(img, x, y, 3)];
    }
  }

  /** `f` gives the blur's summands at one sample. */
  ghost predicate TermsAre(nm: Numerics, img: Image, sigma: real, x: nat, y: nat, c: nat, f: (int, int) -> real)
    requires WellFormed(img) && c < img.channels
  {
    forall dy: int, dx: int {:trigger GaussianTerm(nm, img, sigma, x, y, c, dy, dx)} ::
      f(dy, dx) == GaussianTerm(nm, img, sigma, x, y, c, dy, dx)
  }

  /** The innermost loop of the blur: the taps of one row, added to the running sum. */
  method ConvolveRow(nm: Numerics, img: Image, sigma: real, x: nat, y: nat, c: nat, i: nat, start: real,
                     ghost f: (int, int) -> real)
    returns (sum: real)
    requires WellFormed(img) && c < img.channels && i <= 2 * GaussianRadius(sigma)
    requires TermsAre(nm, img, sigma, x, y, c, f)
    ensures var r := GaussianRadius(sigma); sum == start + RowSum(f, r, i - r, 2 * r + 1)
  {
    var w, radius := Weights(nm, sigma), GaussianRadius(sigma);
    sum := start;
    for j := 0 to 2 * radius + 1
      invariant sum == start + RowSum(f, radius, i - radius, j)
    {
      var term := nm.mul(nm.mul(w[i], w[j]), ClampedLoad(img, x + (j - radius), y + (i - radius), c));
      assert term == GaussianTerm(nm, img, sigma, x, y, c, i - radius, j - radius) by {
        assert w[i] == WeightAt(w, i - radius + radius) && w[j] == WeightAt(w, j - radius + radius);
      }
      sum := sum + term;
    }
  }

  /** The outer loop of the blur at one sample: one row of taps after another. */
  method ConvolveAt(nm: Numerics, img: Image, sigma: real, x: nat, y: nat, c: nat, ghost f: (int, int) -> real)
    returns (sum: real)
    requires WellFormed(img) && c < img.channels && TermsAre(nm, img, sigma, x, y, c, f)
    ensures sum == TapSum(f, GaussianRadius(sigma))
  {
    var radius := GaussianRadius(sigma);
    sum := 0.0;
    for i := 0 to 2 * radius + 1
      invariant sum == RowsSum(f, radius, i)
    {
      sum := ConvolveRow(nm, img, sigma, x, y, c, i, sum, f);
    }
  }

  /** The 3x3 loops of the edge filter at one sample, along one axis. */
  method GradientAt(nm: Numerics, img: Image, axis: Axis, x: nat, y: nat, c: nat, ghost f: (int, int) -> real)
    returns (g: real)
    requires WellFormed(img) && c < img.channels
    requires forall dy: int, dx: int {:trigger SobelTerm(nm, img, axis, x, y, c, dy, dx)} ::
               f(dy, dx) == SobelTerm(nm, img, axis, x, y, c, dy, dx)
    ensures g == TapSum(f, 1)
  {
    g := 0.0;
    for i := 0 to 3
      invariant g == RowsSum(f, 1, i)
    {
      for j := 0 to 3
        invariant g == RowsSum(f, 1, i) + RowSum(f, 1, i - 1, j)
      {
        var term := nm.mul(Coefficient(axis, i - 1, j - 1), ClampedLoad(img, x + (j - 1), y + (i - 1), c));
        assert term == SobelTerm(nm, img, axis, x, y, c, i - 1, j - 1);
        g := g + term;
      }
    }
  }

  /** One colour sample, computed as the six loop bodies compute it. */
  method ColorSample(nm: Numerics, img: Image, op: Op, x: nat, y: nat, c: nat) returns (v: Byte)
    requires WellFormed(img) && x < img.width && y < img.height && c < ColorChannels(img.channels)
    ensures v == OpSample(nm, img, op, x, y, c)
  {
    match op.kind {
      case Grayscale =>
        if ColorChannels(img.channels) == 1 {
          v := At(img, x, y, 0);
        } else {
          v := Store(Luma(Load(At(img, x, y, 0)), Load(At(img, x, y, 1)), Load(At(img, x, y, 2))));
        }
      case Invert => v := 255 - At(img, x, y, c);
      case Brightness => v := Store(Load(At(img, x, y, c)) + op.param);
      case Threshold => v := if Load(At(img, x, y, c)) >= op.param then 255 else 0;
      case Gaussian =>
        var sum := ConvolveAt(nm, img, op.param, x, y, c, GaussianTerms(nm, img, op.param, x, y, c));
        v := Store(sum);
      case Sobel =>
        var gx := GradientAt(nm, img, Horizontal, x, y, c, SobelTerms(nm, img, Horizontal, x, y, c));
        var gy := GradientAt(nm, img, Vertical, x, y, c, SobelTerms(nm, img, Vertical, x, y, c));
        v := Store(Magnitude(nm, gx, gy));
    }
  }

  /** The colour channels of one pixel. */
  method RunPixel(nm: Numerics, img: Image, op: Op, x: nat, y: nat, before: seq<Byte>, ghost goal: seq<Byte>)
    returns (a: seq<Byte>)
    requires WellFormed(img) && x < img.width && y < img.height && IsGoal(nm, img, op, goal)
    requires ColorsDone(goal, img.channels, before, Times(y, img.width) + x)
    ensures ColorsDone(goal, img.channels, a, Times(y, img.width) + x + 1)
  {
    var p := Times(y, img.width) + x;
    IndexBounds(img.width, img.height, img.channels, x, y);
    a := before;
    for c := 0 to ColorChannels(img.channels)
      invariant PixelDone(goal, img.channels, a, p, c)
    {
      var v := ColorSample(nm, img, op, x, y, c);
      a := a[Times(p, img.channels) + c := v];
    }
    PixelFinished(goal, img.channels, a, p);
  }

  /** One row of pixels. */
  method RunRow(nm: Numerics, img: Image, op: Op, y: nat, before: seq<Byte>, ghost goal: seq<Byte>)
    returns (a: seq<Byte>)
    requires WellFormed(img) && y < img.height && IsGoal(nm, img, op, goal)
    requires ColorsDone(goal, img.channels, before, Times(y, img.width))
    ensures ColorsDone(goal, img.channels, a, Times(y, img.width) + img.width)
  {
    a := before;
    for x := 0 to img.width
      invariant ColorsDone(goal, img.channels, a, Times(y, img.width) + x)
    {
      a := RunPixel(nm, img, op, x, y, a, goal);
    }
  }

  /** Rows, columns, colour channels, then the alpha copy. */
  method RunSamples(nm: Numerics, img: Image, op: Op, ghost goal: seq<Byte>) returns (a: seq<Byte>)
    requires WellFormed(img) && IsGoal(nm, img, op, goal)
    ensures a == goal
  {
    a := seq(|img.pixels|, i => 0);
    for y := 0 to img.height
      invariant ColorsDone(goal, img.channels, a, Times(y, img.width))
    {
      a := RunRow(nm, img, op, y, a, goal);
    }
    a := CopyAlpha(nm, img, op, a, goal);
  }

  /** apply_op: a new image, sample by sample. */
  method RunOp(nm: Numerics, img: Image, op: Op) returns (out: Image)
    requires WellFormed(img)
    ensures out == ApplyOp(nm, img, op)
  {
    GoalOfOp(nm, img, op);
    var a := RunSamples(nm, img, op, ApplyOp(nm, img, op).pixels);
    out := Image(img.width, img.height, img.channels, a);
  }

  /** apply_chain: the image is replaced once per operation, left to right. */
  method RunChain(nm: Numerics, img: Image, chain: OpChain) returns (current: Image)
    requires WellFormed(img)
    ensures current == ApplyChain(nm, img, chain)
  {
    current := img;
    for i := 0 to |chain|
      invariant WellFormed(current)
      invariant current == ApplyChain(nm, img, chain[..i])
    {
      current := RunOp(nm, current, chain[i]);
      assert chain[..i + 1][..i] == chain[..i];
    }
    assert chain[..|chain|] == chain;
  }
}
