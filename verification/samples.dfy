/**
 Samples and the register values they become.

 A sample is a byte; a register value is the exact number k/255. The same four
 helpers exist twice in the program, once in the scalar implementation
 (src/backend/cpu/ops.cpp) and once in the text every kernel starts with
 (src/backend/cuda/kernel_prelude.h). In exact arithmetic they are one definition.
 */
module Samples {

  type Byte = b: int | 0 <= b < 256

  /** std::lround and roundf: halves go away from zero. */
  function RoundHalfAway(r: real): int {
    if r >= 0.0 then (r + 0.5).Floor else -((0.5 - r).Floor)
  }

  function Clamp01(v: real): real {
    if v < 0.0 then 0.0 else if v > 1.0 then 1.0 else v
  }

  function Load(b: Byte): real {
    b as real / 255.0
  }

  function Store(v: real): Byte {
    RoundHalfAway(Clamp01(v) * 255.0)
  }

  /** The fusion boundary: what a register holds after it is rounded as if stored. */
  function Quantize(v: real): real {
    Load(Store(v))
  }

  function Luma(r: real, g: real, b: real): real {
    0.299 * r + 0.587 * g + 0.114 * b
  }

  /** Loading a byte and storing it again changes nothing. */
  lemma StoreLoad(b: Byte)
    ensures Store(Load(b)) == b
  {
    assert Load(b) * 255.0 == b as real;
  }

  /** Inversion in registers is the integer inversion of the scalar code. */
  lemma StoreInverted(b: Byte)
    ensures Store(1.0 - Load(b)) == 255 - b
  {
    assert (1.0 - Load(b)) * 255.0 == (255 - b) as real;
  }

  /** A stored value is a nearest byte to the clamped register, at most half a step away. */
  lemma StoreIsNearest(v: real)
    ensures -0.5 <= Store(v) as real - Clamp01(v) * 255.0 <= 0.5
  {
    assert 0.0 <= Clamp01(v) * 255.0 <= 255.0;
  }
}
