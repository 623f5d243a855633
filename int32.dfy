/** The C# `int` type and its unchecked (wrapping) addition. */
module Int32Math {
  const MinInt32: int := -0x8000_0000
  const MaxInt32: int := 0x7FFF_FFFF
  const Modulus: int := 0x1_0000_0000

  type Int32 = x: int | MinInt32 <= x <= MaxInt32

  predicate InRange(x: int) {
    MinInt32 <= x <= MaxInt32
  }

  /** `a + b` on C# ints in an unchecked context: the two's-complement sum,
      which leaves the range at most once and is then brought back by 2^32. */
  function AddWrap(a: Int32, b: Int32): (r: Int32)
    ensures InRange(a + b) ==> r == a + b
    ensures a + b > MaxInt32 ==> r < a && r < b
    ensures a + b < MinInt32 ==> r > a && r > b
  {
    var s := a + b;
    if s > MaxInt32 then s - Modulus
    else if s < MinInt32 then s + Modulus
    else s
  }

  /** The wrapped sum is the mathematical sum modulo 2^32. */
  lemma AddWrapCongruent(a: Int32, b: Int32)
    ensures (AddWrap(a, b) - (a + b)) % Modulus == 0
  {
  }

  /** Two wrapped additions in a row give the wrapped sum of all three
      operands, whichever way they are grouped. */
  lemma AddWrapAssociative(a: Int32, b: Int32, c: Int32)
    ensures AddWrap(AddWrap(a, b), c) == AddWrap(a, AddWrap(b, c))
  {
  }
}
