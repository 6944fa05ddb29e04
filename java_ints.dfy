/** The fixed-width integer arithmetic of the JVM that the modelled code depends on. */
module JavaInts {

  const INT_MIN: int := -0x8000_0000
  const INT_MAX: int := 0x7fff_ffff
  const LONG_MAX: int := 0x7fff_ffff_ffff_ffff

  /** 2^32, the modulus of 32-bit arithmetic. */
  const INT_MODULUS: int := 0x1_0000_0000

  predicate IsInt(x: int) {
    INT_MIN <= x <= INT_MAX
  }

  /** The value a JVM `int` holds after storing the mathematical integer `x`:
      a narrowing cast `(int)` or the result of an overflowing `int` operation. */
  function WrapInt(x: int): (r: int)
    ensures IsInt(r)
    ensures (x - r) % INT_MODULUS == 0
    ensures IsInt(x) ==> r == x
  {
    (x - INT_MIN) % INT_MODULUS + INT_MIN
  }

  /** `x++` on a JVM `int` is exact below the maximum and wraps to the minimum at it. */
  lemma IncrementWraps(x: int)
    requires IsInt(x)
    ensures x < INT_MAX ==> WrapInt(x + 1) == x + 1
    ensures x == INT_MAX ==> WrapInt(x + 1) == INT_MIN
  {
    if x == INT_MAX {
      assert x + 1 - INT_MIN == INT_MODULUS;
    }
  }
}
