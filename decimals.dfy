/** Exact decimal arithmetic.  `BigDecimal` addition, subtraction,
    multiplication and comparison are exact, so decimals are Dafny reals and
    `isZero` (BigDecimals.kt) is `== 0.0`. */
module Decimals {

  /** `positive` (Ledger.kt): the magnitude of a decimal. */
  function Positive(x: real): (r: real)
    ensures r >= 0.0
    ensures r == x || r == -x
  {
    if x < 0.0 then -x else x
  }

  /** `diff` (Ledger.kt, a member of Monies): the difference of the magnitudes
      of its operands, not the magnitude of their difference. */
  function Diff(a: real, b: real): (r: real)
    ensures a >= 0.0 && b >= 0.0 ==> r == a - b
    ensures r <= Positive(a)
  {
    Positive(a) - Positive(b)
  }

  /** The tolerance of the shortfall test in `Monies.take`. */
  const Tolerance: real := 0.000001

  function Min(a: real, b: real): real {
    if a <= b then a else b
  }
}
