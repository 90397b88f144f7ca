/** Java's 32-bit `int`, as far as the reconnecting client uses it. */
module JavaInt {

  const MinInt: int := -0x8000_0000
  const MaxInt: int := 0x7fff_ffff

  /** The values of a Java `int`. */
  type Int32 = x: int | -0x8000_0000 <= x <= 0x7fff_ffff

  /** Java's `x++` on an `int`: two's-complement wrap-around at the top. */
  function Inc(x: Int32): Int32
  {
    if x == MaxInt then MinInt else x + 1
  }

  /** `n` successive increments starting from `x`. */
  function IncN(x: Int32, n: nat): Int32
  {
    if n == 0 then x else Inc(IncN(x, n - 1))
  }

  /** Below the top of the range, `n` increments are plain addition. */
  lemma {:induction false} IncNNoWrap(x: Int32, n: nat)
    requires x + n <= MaxInt
    ensures IncN(x, n) == x + n
  {
    if n > 0 {
      IncNNoWrap(x, n - 1);
    }
  }
}
