/**
 What the emitted kernels do (src/backend/cuda/codegen.cpp, kernel_prelude.h).

 A kernel is a value holding exactly what its text fixes: channel count, block edge,
 register instructions, stencil code and argument list. Its evaluator says what the text
 does at one pixel. Parameters are literals in a baked kernel and named arguments in a
 parameterized one.
 */
module Kernels {
  import opened Arith
  import opened Samples
  import opened Chains
  import opened Images
  import opened Oracle
  import opened FusionPlan

  datatype Operand = Literal(value: real) | Argument(index: nat)

  datatype Instr = LumaInstr | InvertInstr | AddInstr(delta: Operand) | CompareInstr(threshold: Operand)

  datatype StencilCode =
    | NoStencil
    | SobelCode
    | GaussianLiteral(radius: nat, weights: seq<real>)
    | GaussianArguments

  /** What a launch passes besides the two buffers and the two extents. */
  datatype Formal = RadiusFormal | TapsFormal | ScalarFormal(index: nat)

  datatype Kernel = Kernel(
    channels: nat, blockDim: nat, tiled: bool,
    prologue: seq<Instr>, stencil: StencilCode, epilogue: seq<Instr>,
    formals: seq<Formal>, paramOps: seq<nat>)

  const NAIVE_BLOCK_DIM := 16
  const MAX_TILE_SIZE := 32
  const MAX_GAUSSIAN_TAPS := 25
  const MAX_STATIC_SHARED_BYTES := 49152

  // ------------------------------------------------------------------ emission

  function OperandFor(planned: PlannedOp, parameterized: bool): Operand {
    if parameterized then Argument(planned.index) else Literal(planned.op.param)
  }

  /** The instructions of one pointwise operation; one-channel grayscale emits none. */
  function EmitOp(planned: PlannedOp, colors: nat, parameterized: bool): seq<Instr> {
    match planned.op.kind
    case Grayscale => if colors == 1 then [] else [LumaInstr]
    case Invert => [InvertInstr]
    case Brightness => [AddInstr(OperandFor(planned, parameterized))]
    case Threshold => [CompareInstr(OperandFor(planned, parameterized))]
    case Gaussian => []
    case Sobel => []
  }

  function EmitRun(ops: seq<PlannedOp>, colors: nat, parameterized: bool): seq<Instr> {
    if ops == [] then []
    else EmitRun(ops[..|ops| - 1], colors, parameterized) + EmitOp(ops[|ops| - 1], colors, parameterized)
  }

  /** emit_pointwise: the run grows one operation at a time. */
  method EmitPointwise(ops: seq<PlannedOp>, colors: nat, parameterized: bool) returns (out: seq<Instr>)
    ensures out == EmitRun(ops, colors, parameterized)
  {
    out := [];
    for i := 0 to |ops|
      invariant out == EmitRun(ops[..i], colors, parameterized)
    {
      out := out + EmitOp(ops[i], colors, parameterized);
      assert ops[..i + 1][..i] == ops[..i];
    }
    assert ops[..|ops|] == ops;
  }

  function ParamOps(ops: seq<PlannedOp>): seq<nat> {
    if ops == [] then []
    else ParamOps(ops[..|ops| - 1])
         + (if Spec(ops[|ops| - 1].op.kind).takesParam then [ops[|ops| - 1].index] else [])
  }

  /** param_indices: the chain positions whose parameters become arguments. */
  method ParamIndices(ops: seq<PlannedOp>, parameterized: bool) returns (indices: seq<nat>)
    ensures indices == if parameterized then ParamOps(ops) else []
  {
    indices := [];
    if parameterized {
      for i := 0 to |ops|
        invariant indices == ParamOps(ops[..i])
      {
        if Spec(ops[i].op.kind).takesParam {
          indices := indices + [ops[i].index];
        }
        assert ops[..i + 1][..i] == ops[..i];
      }
      assert ops[..|ops|] == ops;
    }
  }

  function EmitStencil(nm: Numerics, stencil: Option<PlannedOp>, parameterized: bool): StencilCode {
    if stencil.None? then NoStencil
    else if stencil.value.op.kind != Gaussian then SobelCode
    else if parameterized then GaussianArguments
    else GaussianLiteral(GaussianRadius(stencil.value.op.param), Weights(nm, stencil.value.op.param))
  }

  function Scalars(indices: seq<nat>): (r: seq<Formal>)
    ensures |r| == |indices|
  {
    seq(|indices|, i requires 0 <= i < |indices| => ScalarFormal(indices[i]))
  }

  /** The radius a stencil's text fixes; a runtime radius is not fixed, and reads 0. */
  function BakedRadius(code: StencilCode): nat {
    match code
    case SobelCode => 1
    case GaussianLiteral(radius, _) => radius
    case _ => 0
  }

  function SharedBytes(colors: nat, tileSize: nat, radius: nat): nat {
    Times(Times(colors, tileSize + 2 * radius), tileSize + 2 * radius) * 4
  }

  /** A gaussian whose radius and weights are arguments. */
  predicate RuntimeRadius(stage: Stage, parameterized: bool) {
    parameterized && stage.stencil.Some? && stage.stencil.value.op.kind == Gaussian
  }

  /** The positions a stage takes arguments for: the stencil's, then prologue, then epilogue. */
  function StageParamOps(stage: Stage, parameterized: bool): seq<nat> {
    if !parameterized then []
    else if RuntimeRadius(stage, true)
    then [stage.stencil.value.index] + ParamOps(stage.prologue) + ParamOps(stage.epilogue)
    else ParamOps(stage.prologue) + ParamOps(stage.epilogue)
  }

  /** The extra parameters a stage's kernel takes, as its text names them one by one. */
  function StageFormals(stage: Stage, parameterized: bool): seq<Formal> {
    if !parameterized then []
    else if RuntimeRadius(stage, true)
    then [RadiusFormal, TapsFormal] + Scalars(ParamOps(stage.prologue)) + Scalars(ParamOps(stage.epilogue))
    else Scalars(ParamOps(stage.prologue)) + Scalars(ParamOps(stage.epilogue))
  }

  /** emit_stage. None is the refusal of a tile that does not fit static shared memory. */
  function EmitStage(nm: Numerics, stage: Stage, channels: nat, tileSize: nat, parameterized: bool): Option<Kernel> {
    var colors: nat := ColorChannels(channels);
    var code := EmitStencil(nm, stage.stencil, parameterized);
    var tiled := stage.stencil.Some? && tileSize > 0;
    if tiled && SharedBytes(colors, tileSize, BakedRadius(code)) > MAX_STATIC_SHARED_BYTES then None
    else Some(Kernel(
      channels, if tiled then tileSize else NAIVE_BLOCK_DIM, tiled,
      EmitRun(stage.prologue, colors, parameterized), code, EmitRun(stage.epilogue, colors, parameterized),
      StageFormals(stage, parameterized), StageParamOps(stage, parameterized)))
  }

  /** The kernels of a list of stages, or None as soon as one is refused. */
  function EmitStages(nm: Numerics, stages: seq<Stage>, channels: nat, tileSize: nat, parameterized: bool)
    : (r: Option<seq<Kernel>>)
    ensures r.Some? ==> |r.value| == |stages|
  {
    if stages == [] then Some([])
    else
      var init := EmitStages(nm, stages[..|stages| - 1], channels, tileSize, parameterized);
      var last := EmitStage(nm, stages[|stages| - 1], channels, tileSize, parameterized);
      if init.None? || last.None? then None else Some(init.value + [last.value])
  }

  // ---------------------------------------------------------------- evaluation

  /** The values those parameters have in one launch. */
  datatype Env = Env(radius: nat, taps: seq<real>, scalars: map<nat, real>)

  function Value(operand: Operand, env: Env): real {
    match operand
    case Literal(value) => value
    case Argument(index) => if index in env.scalars then env.scalars[index] else 0.0
  }

  function Exec(instr: Instr, env: Env, v: seq<real>): (r: seq<real>)
    ensures |r| == |v|
  {
    match instr
    case LumaInstr =>
      if |v| < 3 then v else var g := Quantize(Luma(v[0], v[1], v[2])); seq(|v|, c => g)
    case InvertInstr => seq(|v|, c requires 0 <= c < |v| => Quantize(1.0 - v[c]))
    case AddInstr(delta) => seq(|v|, c requires 0 <= c < |v| => Quantize(v[c] + Value(delta, env)))
    case CompareInstr(t) =>
      seq(|v|, c requires 0 <= c < |v| => Quantize(if v[c] >= Value(t, env) then 1.0 else 0.0))
  }

  function ExecRun(code: seq<Instr>, env: Env, v: seq<real>): (r: seq<real>)
    ensures |r| == |v|
  {
    if code == [] then v else Exec(code[|code| - 1], env, ExecRun(code[..|code| - 1], env, v))
  }

  /** The colour registers of the pixel at (x, y). */
  function LoadPixel(img: Image, x: nat, y: nat): (v: seq<real>)
    requires WellFormed(img) && x < img.width && y < img.height
    ensures |v| == ColorChannels(img.channels)
  {
    seq(ColorChannels(img.channels), c requires 0 <= c < ColorChannels(img.channels) => Load(At(img, x, y, c)))
  }

  /** A product whose first factor may be negative. */
  function SignedTimes(a: int, b: nat): int {
    if a >= 0 then Times(a, b) else 0 - Times(0 - a, b)
  }

  /** The position the text computes for channel c at (x, y): all of it in 32-bit integers. */
  function KernelIndex(width: nat, channels: nat, x: int, y: int, c: nat): int {
    ToInt32(SignedTimes(SignedTimes(y, width) + x, channels) + c)
  }

  /** A read of the source. A position outside it has no value; launches in bounds read none. */
  function ReadSample(img: Image, i: int): Byte {
    if 0 <= i < |img.pixels| then img.pixels[i] else 0
  }

  /** The colour registers the text loads for column x and row y. */
  function ReadPixel(img: Image, x: int, y: int): (v: seq<real>)
    requires WellFormed(img)
    ensures |v| == ColorChannels(img.channels)
  {
    seq(ColorChannels(img.channels), c requires 0 <= c < ColorChannels(img.channels) =>
      Load(ReadSample(img, KernelIndex(img.width, img.channels, x, y, c))))
  }

  /** The tap helper: one clamped load with the prologue folded in. */
  function Tap(kernel: Kernel, env: Env, img: Image, x: int, y: int): (v: seq<real>)
    requires WellFormed(img)
    ensures |v| == ColorChannels(img.channels)
  {
    ExecRun(kernel.prologue, env, ReadPixel(img, ClampCoordinate(x, img.width), ClampCoordinate(y, img.height)))
  }

  function Register(v: seq<real>, c: nat): real {
    if c < |v| then v[c] else 0.0
  }

  /** A neighbour's registers, by offset (dy, dx): from memory, or from a staged tile. */
  type Fetch = (int, int) -> seq<real>

  function KernelRadius(code: StencilCode, env: Env): nat {
    if code.GaussianArguments? then env.radius else BakedRadius(code)
  }

  function KernelWeights(code: StencilCode, env: Env): seq<real> {
    match code
    case GaussianLiteral(_, weights) => weights
    case GaussianArguments => env.taps
    case _ => []
  }

  /** The weighted neighbour at (dy, dx), channel c, of the gaussian loops. */
  function BlurTerm(nm: Numerics, weights: seq<real>, r: nat, fetch: Fetch, c: nat, dy: int, dx: int): real {
    nm.mul(nm.mul(WeightAt(weights, dy + r), WeightAt(weights, dx + r)), Register(fetch(dy, dx), c))
  }

  function BlurTerms(nm: Numerics, weights: seq<real>, r: nat, fetch: Fetch, c: nat): (int, int) -> real {
    (dy, dx) => BlurTerm(nm, weights, r, fetch, c, dy, dx)
  }

  /** The nine-entry coefficient tables of the emitted text, row after row. */
  function EdgeTable(axis: Axis): (r: seq<real>)
    ensures |r| == 9
  {
    match axis
    case Horizontal => [-1.0, 0.0, 1.0, -2.0, 0.0, 2.0, -1.0, 0.0, 1.0]
    case Vertical => [-1.0, -2.0, -1.0, 0.0, 0.0, 0.0, 1.0, 2.0, 1.0]
  }

  function EdgeTerm(nm: Numerics, axis: Axis, fetch: Fetch, c: nat, dy: int, dx: int): real {
    nm.mul(WeightAt(EdgeTable(axis), (dy + 1) * 3 + (dx + 1)), Register(fetch(dy, dx), c))
  }

  function EdgeTerms(nm: Numerics, axis: Axis, fetch: Fetch, c: nat): (int, int) -> real {
    (dy, dx) => EdgeTerm(nm, axis, fetch, c, dy, dx)
  }

  /** One register of the stencil's result, quantized. */
  function StencilRegister(nm: Numerics, code: StencilCode, env: Env, fetch: Fetch, c: nat): real {
    if code.SobelCode? then
      Quantize(Magnitude(nm, TapSum(EdgeTerms(nm, Horizontal, fetch, c), 1),
                             TapSum(EdgeTerms(nm, Vertical, fetch, c), 1)))
    else
      var r := KernelRadius(code, env);
      Quantize(TapSum(BlurTerms(nm, KernelWeights(code, env), r, fetch, c), r))
  }

  /** The stencil body: every colour register. */
  function StencilRegisters(nm: Numerics, code: StencilCode, env: Env, fetch: Fetch, colors: nat): (v: seq<real>)
    ensures |v| == colors
  {
    seq(colors, c requires 0 <= c < colors => StencilRegister(nm, code, env, fetch, c))
  }

  /** The registers before the epilogue: prologue only, or stencil over fetched taps. */
  function BodyRegisters(nm: Numerics, kernel: Kernel, env: Env, img: Image, fetch: Fetch, x: int, y: int)
    : (v: seq<real>)
    requires WellFormed(img)
    ensures |v| == ColorChannels(img.channels)
  {
    if kernel.stencil.NoStencil?
    then ExecRun(kernel.prologue, env, ReadPixel(img, x, y))
    else StencilRegisters(nm, kernel.stencil, env, fetch, ColorChannels(img.channels))
  }

  /** What one thread stores: the epilogue's registers as bytes, and the pixel's own alpha. */
  function PixelBytes(nm: Numerics, kernel: Kernel, env: Env, img: Image, fetch: Fetch, x: int, y: int)
    : (out: seq<Byte>)
    requires WellFormed(img)
    ensures |out| == img.channels
  {
    var v := ExecRun(kernel.epilogue, env, BodyRegisters(nm, kernel, env, img, fetch, x, y));
    seq(|v|, c requires 0 <= c < |v| => Store(v[c]))
    + (if img.channels == 4 then [ReadSample(img, KernelIndex(img.width, img.channels, x, y, 3))] else [])
  }

  /** The naive variant's fetch: a clamped load with the prologue recomputed at every tap. */
  function NaiveFetch(kernel: Kernel, env: Env, img: Image, x: int, y: int): Fetch
    requires WellFormed(img)
  {
    (dy, dx) => Tap(kernel, env, img, ToInt32(x + dx), ToInt32(y + dy))
  }

  // ----------------------------------------------------- positions in 32 bits

  /** As long as every position of the frame fits, the text's position is the right one. */
  lemma IndexFits(width: nat, height: nat, channels: nat, x: nat, y: nat, c: nat)
    requires x < width && y < height && c < channels && ByteCount(width, height, channels) <= INT32_LIMIT
    ensures KernelIndex(width, channels, x, y, c) == Index(width, channels, x, y, c) < ByteCount(width, height, channels)
  {
    IndexBounds(width, height, channels, x, y);
  }

  /** Every sample is read from its own position. */
  ghost predicate IndexedRight(width: nat, height: nat, channels: nat) {
    forall x: nat, y: nat, c: nat {:trigger KernelIndex(width, channels, x, y, c)} ::
      x < width && y < height && c < channels ==>
        KernelIndex(width, channels, x, y, c) == Index(width, channels, x, y, c)
  }

  /** Every sample's position lies inside the frame's bytes. */
  ghost predicate IndexedInside(width: nat, height: nat, channels: nat) {
    forall x: nat, y: nat, c: nat {:trigger KernelIndex(width, channels, x, y, c)} ::
      x < width && y < height && c < channels ==>
        0 <= KernelIndex(width, channels, x, y, c) < ByteCount(width, height, channels)
  }

  /** The sample at position 2^31 of a larger frame: its position wraps to the most negative integer. */
  lemma SampleWraps(width: nat, height: nat, channels: nat)
    requires width > 0 && channels > 0 && ByteCount(width, height, channels) > INT32_LIMIT
    ensures var x, y, c := ColumnOf(width, channels, INT32_LIMIT), RowOf(width, channels, INT32_LIMIT), Rem(INT32_LIMIT, channels);
            && x < width && y < height && c < channels
            && Index(width, channels, x, y, c) == INT32_LIMIT && KernelIndex(width, channels, x, y, c) == INT32_MIN
  {
    PositionIsIndex(width, height, channels, INT32_LIMIT);
  }

  /**
   The emitted positions are right at every sample, and inside the frame at every sample,
   exactly when the frame has at most 2^31 bytes.
   */
  lemma IndexedRightIff(width: nat, height: nat, channels: nat)
    requires width > 0 && channels > 0
    ensures IndexedRight(width, height, channels) <==> ByteCount(width, height, channels) <= INT32_LIMIT
    ensures IndexedInside(width, height, channels) <==> ByteCount(width, height, channels) <= INT32_LIMIT
  {
    if ByteCount(width, height, channels) <= INT32_LIMIT {
      forall x: nat, y: nat, c: nat | x < width && y < height && c < channels
        ensures KernelIndex(width, channels, x, y, c) == Index(width, channels, x, y, c) < ByteCount(width, height, channels)
      {
        IndexFits(width, height, channels, x, y, c);
      }
    } else {
      SampleWraps(width, height, channels);
    }
  }

  /** A 50000 x 50000 single-channel frame: its last sample is read from a negative position. */
  lemma LargeFrameWraps()
    ensures ByteCount(50000, 50000, 1) == 2_500_000_000
    ensures Index(50000, 1, 49999, 49999, 0) == 2_499_999_999
    ensures KernelIndex(50000, 1, 49999, 49999, 0) == 2_499_999_999 - 0x1_0000_0000 < 0
  {
    ByteCountIsProduct(50000, 50000, 1);
    TimesIsProduct(49999, 50000);
    TimesIsProduct(49999 * 50000 + 49999, 1);
  }

  /** Registers loaded through the text's positions are the pixel's. */
  lemma ReadPixelIs(img: Image, x: nat, y: nat)
    requires WellFormed(img) && x < img.width && y < img.height && |img.pixels| <= INT32_LIMIT
    ensures ReadPixel(img, x, y) == LoadPixel(img, x, y)
    ensures img.channels == 4 ==> ReadSample(img, KernelIndex(img.width, img.channels, x, y, 3)) == At(img, x, y, 3)
  {
    forall c: nat | c < img.channels
      ensures ReadSample(img, KernelIndex(img.width, img.channels, x, y, c)) == At(img, x, y, c)
    {
      IndexFits(img.width, img.height, img.channels, x, y, c);
    }
  }
}
