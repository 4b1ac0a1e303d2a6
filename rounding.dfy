/**
 * Decimal rounding of hours, rates and percentages, `round(x, n)`, taken
 * on exact reals with ties rounded up.
 */
module Rounding {

  /** `10^digits` as a real. */
  function Scale(digits: nat): (s: real)
    ensures s >= 1.0
  {
    if digits == 0 then 1.0 else 10.0 * Scale(digits - 1)
  }

  /** The number of whole units of `10^-digits` that `round` keeps, ties up. */
  function Units(x: real, digits: nat): (n: int)
    ensures x * Scale(digits) - 0.5 < n as real <= x * Scale(digits) + 0.5
  {
    (x * Scale(digits) + 0.5).Floor
  }

  /** `round(x, digits)`: the nearest multiple of `10^-digits`, ties up. */
  function Round(x: real, digits: nat): (r: real)
    ensures -0.5 / Scale(digits) < r - x <= 0.5 / Scale(digits)
  {
    var s := Scale(digits);
    var n := Units(x, digits);
    assert (n as real) / s - x == (n as real - x * s) / s;
    n as real / s
  }

  /** Multiplying by a positive scale keeps the order. */
  lemma MulMono(a: real, b: real, s: real)
    requires a <= b && s > 0.0
    ensures a * s <= b * s
  {
    assert b * s - a * s == (b - a) * s;
  }

  /** Dividing by a positive scale keeps the order. */
  lemma DivMono(a: real, b: real, s: real)
    requires a <= b && s > 0.0
    ensures a / s <= b / s
  {
    assert b / s - a / s == (b - a) / s;
  }

  /** A whole number within half a unit of `x * s` lies between the whole bounds of `x * s`. */
  lemma UnitsBetween(x: real, s: real, n: int, lo: int, hi: int)
    requires s > 0.0 && lo as real / s <= x <= hi as real / s
    requires x * s - 0.5 < n as real <= x * s + 0.5
    ensures lo <= n <= hi
  {
    MulMono(lo as real / s, x, s);
    MulMono(x, hi as real / s, s);
    assert lo as real / s * s == lo as real;
    assert hi as real / s * s == hi as real;
  }

  /** Scaling `x` to whole units and back keeps it between the same whole multiples of the unit. */
  lemma ScaledBetween(x: real, s: real, n: int, lo: int, hi: int)
    requires s > 0.0 && lo as real / s <= x <= hi as real / s
    requires x * s - 0.5 < n as real <= x * s + 0.5
    ensures lo as real / s <= n as real / s <= hi as real / s
  {
    UnitsBetween(x, s, n, lo, hi);
    DivMono(lo as real, n as real, s);
    DivMono(n as real, hi as real, s);
  }

  /** A value between two whole multiples of the unit stays between them when rounded. */
  lemma RoundWithin(x: real, digits: nat, lo: int, hi: int)
    requires lo as real / Scale(digits) <= x <= hi as real / Scale(digits)
    ensures lo as real / Scale(digits) <= Round(x, digits) <= hi as real / Scale(digits)
  {
    ScaledBetween(x, Scale(digits), Units(x, digits), lo, hi);
  }
}
