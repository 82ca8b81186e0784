/** The kernel's capability bitmaps (arrays of `unsigned long`) and
    touchmux's `test_bit` over them. Words are 64 bits wide, as on the
    LP64 target the program is built for. */
module Bitmask {

  const WORD_BITS: int := 64

  /** One `unsigned long`: entry `i` is the bit `w & (1UL << i)` tests. */
  type Word = w: seq<bool> | |w| == WORD_BITS witness seq(64, i => false)

  type Bitmask = seq<Word>

  /** Whether code `b` is present: bit `b % 64` of word `b / 64`. */
  predicate TestBit(bits: Bitmask, b: int)
    requires 0 <= b < WORD_BITS * |bits|
  {
    bits[b / WORD_BITS][b % WORD_BITS]
  }

  /** The bitmap of `words` words in which the kernel reports the code set
      `codes`: code `b` is bit `b % 64` of word `b / 64`, codes beyond the
      buffer are cut off. */
  function Encode(codes: set<int>, words: nat): (bits: Bitmask)
    ensures |bits| == words
    ensures forall b :: 0 <= b < WORD_BITS * words ==> (TestBit(bits, b) <==> b in codes)
  {
    var bits := seq(words, j => seq(WORD_BITS, i => WORD_BITS * j + i in codes));
    assert forall b :: 0 <= b < WORD_BITS * words ==>
      WORD_BITS * (b / WORD_BITS) + b % WORD_BITS == b && b / WORD_BITS < words;
    bits
  }

  /** `w & (1UL << i)`: the word with every bit but bit `i` cleared. */
  function MaskBit(w: Word, i: int): (m: Word)
    requires 0 <= i < WORD_BITS
  {
    seq(WORD_BITS, k requires 0 <= k < WORD_BITS => w[k] && k == i)
  }

  /** C's conversion of an `unsigned long` to `int`, as GCC and Clang perform
      it, keeps the low 32 bits: the `int` is nonzero exactly when one of
      them is set. */
  predicate NonzeroAsInt(m: Word)
  {
    exists k :: 0 <= k < 32 && m[k]
  }

  /** `test_bit` exactly as written: the mask `bits[b/64] & (1UL << (b%64))`
      is returned through the function's `int` result type, and the caller
      tests that `int` against zero. */
  predicate TestBitAsWritten(bits: Bitmask, b: int)
    requires 0 <= b < WORD_BITS * |bits|
  {
    NonzeroAsInt(MaskBit(bits[b / WORD_BITS], b % WORD_BITS))
  }

  /** The as-written `test_bit` agrees with TestBit on the low half of every
      word and reports every bit of the high half as clear. */
  lemma AsWrittenLosesHighHalf(bits: Bitmask, b: int)
    requires 0 <= b < WORD_BITS * |bits|
    ensures TestBitAsWritten(bits, b) <==> TestBit(bits, b) && b % WORD_BITS < 32
  {
    var i := b % WORD_BITS;
    var m := MaskBit(bits[b / WORD_BITS], i);
    if TestBit(bits, b) && i < 32 {
      assert m[i];
    }
  }

  /** A device that reports the multi-touch X axis (code 0x35) has it
      reported absent by the as-written `test_bit`. */
  lemma AsWrittenMissesMtPositionX()
    ensures var bits := Encode({0x35}, 12);
            TestBit(bits, 0x35) && !TestBitAsWritten(bits, 0x35)
  {
    AsWrittenLosesHighHalf(Encode({0x35}, 12), 0x35);
  }
}
