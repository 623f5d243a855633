/** The values of the C# `decimal` type, as exact reals: a magnitude of at most
    2^96 - 1 and at most 28 digits after the decimal point. */
module DecimalMath {
  /** `decimal.MaxValue`, 2^96 - 1. */
  const MaxDecimal: real := 79228162514264337593543950335.0
  /** 10^28: the largest scale a decimal can carry. */
  const Scale: real := 10000000000000000000000000000.0

  /** `p` is within the decimal range and is a whole number of 10^-28 units. */
  predicate IsDecimal(p: real) {
    -MaxDecimal <= p <= MaxDecimal && (p * Scale).Floor as real == p * Scale
  }

  /** A C# `decimal` value. */
  type Decimal = p: real | IsDecimal(p)

  /** Every whole number of cents in range is a decimal, so prices written with
      two digits after the point, like 9.99, are decimals. */
  lemma CentsAreDecimal(cents: int)
    requires -MaxDecimal <= cents as real / 100.0 <= MaxDecimal
    ensures IsDecimal(cents as real / 100.0)
  {
    var p := cents as real / 100.0;
    var n := cents * 100000000000000000000000000;
    assert p * Scale == n as real;
  }
}
