/**
 The operation chain: the closed set of six operations and their table of names,
 parameters and bounds (include/imgjit/core/op_chain.h).
 */
module Chains {
  import opened Samples

  datatype Option<+T> = None | Some(value: T)

  datatype OpKind = Grayscale | Invert | Brightness | Threshold | Gaussian | Sobel

  datatype Op = Op(kind: OpKind, param: real)

  type OpChain = seq<Op>

  datatype OpSpec = OpSpec(
    name: string, takesParam: bool, isStencil: bool,
    defaultParam: real, minParam: real, maxParam: real)

  function Spec(kind: OpKind): OpSpec {
    match kind
    case Grayscale => OpSpec("grayscale", false, false, 0.0, 0.0, 0.0)
    case Invert => OpSpec("invert", false, false, 0.0, 0.0, 0.0)
    case Brightness => OpSpec("brightness", true, false, 0.0, -1.0, 1.0)
    case Threshold => OpSpec("threshold", true, false, 0.5, 0.0, 1.0)
    case Gaussian => OpSpec("gaussian", true, true, 1.0, 0.1, 4.0)
    case Sobel => OpSpec("sobel", false, true, 0.0, 0.0, 0.0)
  }

  predicate IsStencil(kind: OpKind) {
    Spec(kind).isStencil
  }

  predicate SupportedChannels(channels: int) {
    channels == 1 || channels == 3 || channels == 4
  }

  /** Every channel an operation touches: all but the alpha of a four-channel image. */
  function ColorChannels(channels: int): int {
    if channels == 4 then 3 else channels
  }

  const INT32_MAX := 0x7fff_ffff
  const INT32_MIN := -0x8000_0000

  /** One past the largest 32-bit integer. */
  const INT32_LIMIT := 0x8000_0000

  /** The two's-complement narrowing of a wider integer to 32 bits. */
  function ToInt32(n: int): (r: int)
    ensures INT32_MIN <= r <= INT32_MAX
    ensures INT32_MIN <= n <= INT32_MAX ==> r == n
  {
    var m := n % 0x1_0000_0000;
    if m <= INT32_MAX then m else m - 0x1_0000_0000
  }

  /** The one encoding of a parameter that key equality and the key hash both read. */
  function ParamHundredths(param: real): int {
    ToInt32(RoundHalfAway(param * 100.0))
  }

  /** A parameter already rounded to hundredths, as every parsed chain has. */
  predicate CanonicalParam(param: real) {
    var n := RoundHalfAway(param * 100.0);
    INT32_MIN <= n <= INT32_MAX && param == n as real / 100.0
  }

  /** An operation the parser can produce: canonical, and inside its table bounds. */
  predicate CanonicalOp(op: Op) {
    && CanonicalParam(op.param)
    && Spec(op.kind).minParam <= op.param <= Spec(op.kind).maxParam
  }

  predicate CanonicalChain(chain: OpChain) {
    forall i :: 0 <= i < |chain| ==> CanonicalOp(chain[i])
  }

  /** Canonical parameters are told apart by their hundredths. */
  lemma CanonicalParamsByHundredths(p: real, q: real)
    requires CanonicalParam(p) && CanonicalParam(q)
    ensures ParamHundredths(p) == ParamHundredths(q) <==> p == q
  {
  }

  function Ceil(r: real): int {
    -((-r).Floor)
  }

  function GaussianRadius(sigma: real): (r: nat)
    ensures r >= 1
  {
    var c := Ceil(3.0 * sigma);
    if c < 1 then 1 else c
  }

  /** The table bound on sigma is what keeps every radius at most 12. */
  lemma RadiusBound(op: Op)
    requires op.kind == Gaussian && CanonicalOp(op)
    ensures GaussianRadius(op.param) <= 12
  {
    assert 3.0 * op.param <= 12.0;
  }
}
