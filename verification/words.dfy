/**
 Machine words. The library targets 64-bit Windows, where `uintptr`, `int`
 and `uint` are all 64 bits wide.
 */
module Words {

  /** 2^64: one more than the largest `uintptr`. */
  const WORD_MOD: nat := 0x1_0000_0000_0000_0000

  /** 2^63: the bound of a signed 64-bit integer. */
  const HALF_WORD_MOD: nat := 0x8000_0000_0000_0000

  /** A `uintptr`. */
  type Word = w: nat | w < WORD_MOD

  /**
   Reads a word back as a two's-complement signed 64-bit value: the inverse
   of the conversion `uintptr(int64)`.
   */
  function AsSigned(w: Word): int
  {
    if w < HALF_WORD_MOD then w else w - WORD_MOD
  }
}
