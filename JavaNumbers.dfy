/** Java's boxed integer widths and the arithmetic the usage getters rely on. */
module JavaNumbers {

  const INT_MIN: int := -0x8000_0000
  const INT_MAX: int := 0x7fff_ffff
  const LONG_MIN: int := -0x8000_0000_0000_0000
  const LONG_MAX: int := 0x7fff_ffff_ffff_ffff
  /** Number of distinct `long` values: arithmetic on `long` is modulo this. */
  const LONG_MODULUS: int := 0x1_0000_0000_0000_0000

  /** A Java `int` / non-null `Integer`. */
  newtype int32 = x: int | -0x8000_0000 <= x < 0x8000_0000

  /** A Java `long` / non-null `Long`. */
  newtype int64 = x: int | -0x8000_0000_0000_0000 <= x < 0x8000_0000_0000_0000

  /** `Integer.longValue()`: the sign-preserving widening conversion. */
  function Widen(x: int32): int64
  {
    x as int64
  }

  /**
   * Java's `long + long`: two's-complement addition, which silently wraps
   * around when the mathematical sum does not fit in 64 bits.
   */
  function LongAdd(a: int64, b: int64): (r: int64)
    ensures (r as int - (a as int + b as int)) % LONG_MODULUS == 0
    ensures LONG_MIN <= a as int + b as int <= LONG_MAX ==> r as int == a as int + b as int
    ensures a as int + b as int > LONG_MAX ==> r < 0
    ensures a as int + b as int < LONG_MIN ==> r >= 0
  {
    var sum := a as int + b as int;
    if sum > LONG_MAX then (sum - LONG_MODULUS) as int64
    else if sum < LONG_MIN then (sum + LONG_MODULUS) as int64
    else sum as int64
  }
}
