/** The Java and C++ value types that cross the native boundary. */
module JavaTypes {

  const TWO_TO_THE_32: int := 0x1_0000_0000
  const TWO_TO_THE_64: int := 0x1_0000_0000_0000_0000

  /** A Java `long` (and a C++ `jlong`): handles, ids and runtime handles are all longs. */
  type Long = x: int | -0x8000_0000_0000_0000 <= x < 0x8000_0000_0000_0000

  /** A Java `int` (and a C++ `jint`). */
  type Int = x: int | -0x8000_0000 <= x < 0x8000_0000

  /** A Java `double`, kept as its 64 IEEE-754 bits: no arithmetic is done on it. */
  datatype Double = Double(bits: bv64)

  /** A `java.util.Date`, kept as the instant it denotes. */
  datatype HostDate = HostDate(millisSinceEpoch: Long)

  /** The Java exceptions (and the C++ `std::runtime_error`) the modelled code throws. */
  datatype Exception =
    | RuntimeException(message: string)
    | IllegalArgumentException(message: string)
    | UnsupportedOperationException(message: string)
    | NullPointerException
    | NativeRuntimeError(message: string)

  /** A long read as an unsigned 64-bit word (what `>>>` shifts). */
  function Unsigned(x: Long): (u: nat)
    ensures u < TWO_TO_THE_64
    ensures u % TWO_TO_THE_64 == x % TWO_TO_THE_64
  {
    if x >= 0 then x else x + TWO_TO_THE_64
  }

  /** The low 32 bits of a long. */
  function LowHalf(x: Long): bv32 {
    (Unsigned(x) % TWO_TO_THE_32) as bv32
  }

  /** The high 32 bits of a long. */
  function HighHalf(x: Long): bv32 {
    var u := Unsigned(x);
    assert u / TWO_TO_THE_32 < TWO_TO_THE_32;
    (u / TWO_TO_THE_32) as bv32
  }

  /** The 64-bit two's-complement word of a long, high half over low half. */
  function Word(x: Long): bv64 {
    ((HighHalf(x) as bv64) << 32) | (LowHalf(x) as bv64)
  }

  /**
   * Java's `(int)(x ^ (x >>> 32))` on the word of `x`: the unsigned shift,
   * the 64-bit xor, and the narrowing cast that keeps the low 32 bits.
   */
  function JavaFold(x: Long): bv32 {
    ((Word(x) ^ (Word(x) >> 32)) & 0xFFFF_FFFF) as bv32
  }

  /**
   * The fold of a long into an int that `Long.hashCode` and the bridge's
   * `hashCode` methods compute: the low half of `x` xor its high half.
   */
  function FoldLong(x: Long): bv32 {
    LowHalf(x) ^ HighHalf(x)
  }

  /** The word's halves are the long's halves. */
  lemma WordHalves(x: Long)
    ensures (Word(x) >> 32) as bv32 == HighHalf(x)
    ensures (Word(x) & 0xFFFF_FFFF) as bv32 == LowHalf(x)
  {
  }

  /** The fold is exactly Java's expression on the 64-bit word. */
  lemma FoldLongIsJavaFold(x: Long)
    ensures FoldLong(x) == JavaFold(x)
  {
  }

  /** `x * 31` in Java `int` arithmetic, which wraps at 32 bits. */
  function Times31(x: bv32): bv32 {
    (x << 5) - x
  }

  /** `Times31` is the wrapping multiplication by 31. */
  lemma Times31IsMultiplication(x: bv32)
    ensures Times31(x) == x * 31
  {
  }

  /** Example: a long that is a non-negative int folds to itself. */
  lemma FoldOfSmallLong(x: Long)
    requires 0 <= x < 0x8000_0000
    ensures FoldLong(x) == x as bv32
  {
    assert Unsigned(x) / TWO_TO_THE_32 == 0;
    assert Unsigned(x) % TWO_TO_THE_32 == x;
  }

  /** Example: two distinct longs may fold to the same int; -1 and 0 both fold to 0. */
  lemma FoldCollides()
    ensures FoldLong(-1) == FoldLong(0) == 0
  {
    assert Unsigned(-1) == 0xFFFF_FFFF_FFFF_FFFF;
    assert Unsigned(-1) / TWO_TO_THE_32 == 0xFFFF_FFFF;
    assert Unsigned(-1) % TWO_TO_THE_32 == 0xFFFF_FFFF;
  }
}
