/**
 * The number conversions the client applies to scores, over exact reals:
 * `Math.round`, truncation of `parseInt` and rounding to two decimals.
 */
module Arith {
  /** `Math.round`: the nearest integer, halves rounded up (towards +infinity). */
  function RoundHalfUp(x: real): (r: int)
    ensures r as real <= x + 0.5 < r as real + 1.0
  {
    (x + 0.5).Floor
  }

  /** Rounding an integer gives it back. */
  lemma RoundHalfUpInt(n: int)
    ensures RoundHalfUp(n as real) == n
  {
  }

  /** Rounding is monotone. */
  lemma RoundHalfUpMonotone(x: real, y: real)
    requires x <= y
    ensures RoundHalfUp(x) <= RoundHalfUp(y)
  {
  }

  /** The integer part, truncated towards zero as `parseInt` of a decimal does. */
  function Trunc(x: real): (r: int)
    ensures x >= 0.0 ==> r as real <= x < r as real + 1.0
    ensures x < 0.0 ==> r as real - 1.0 < x <= r as real
  {
    if x >= 0.0 then x.Floor else -((-x).Floor)
  }

  /** `Math.round(x * 100) / 100`: the nearest hundredth, halves rounded up. */
  function RoundTo2(x: real): (r: real)
    ensures x - 0.005 < r <= x + 0.005
    ensures (r * 100.0).Floor as real == r * 100.0
  {
    RoundHalfUp(x * 100.0) as real / 100.0
  }

  /** Rounding to hundredths keeps a value between two integers between them. */
  lemma RoundTo2Between(x: real, lo: int, hi: int)
    requires lo as real <= x <= hi as real
    ensures lo as real <= RoundTo2(x) <= hi as real
  {
    RoundHalfUpMonotone((100 * lo) as real, x * 100.0);
    RoundHalfUpMonotone(x * 100.0, (100 * hi) as real);
    RoundHalfUpInt(100 * lo);
    RoundHalfUpInt(100 * hi);
  }

  /** Truncation keeps a value between two integers between them. */
  lemma TruncBetween(x: real, lo: int, hi: int)
    requires lo as real <= x <= hi as real
    ensures lo <= Trunc(x) <= hi
  {
  }

  /** A nonnegative product with a positive factor has a nonnegative other factor. */
  lemma FactorNonnegative(a: real, b: real)
    requires b > 0.0 && a * b >= 0.0
    ensures a >= 0.0
  {
  }

  /** A quotient whose numerator lies between `n * lo` and `n * hi` lies between `lo` and `hi`. */
  lemma DivBetween(num: int, n: int, lo: int, hi: int)
    requires n > 0 && n * lo <= num <= n * hi
    ensures lo as real <= num as real / n as real <= hi as real
  {
    var m := n as real;
    var q := num as real / m;
    assert q * m == num as real;
    assert (hi as real - q) * m == (n * hi) as real - num as real;
    assert (q - lo as real) * m == num as real - (n * lo) as real;
    FactorNonnegative(hi as real - q, m);
    FactorNonnegative(q - lo as real, m);
  }

  /** A part of a whole, as a percentage, lies between 0 and 100 and is 100 for the whole. */
  lemma PercentBetween(part: nat, whole: nat)
    requires whole > 0 && part <= whole
    ensures 0.0 <= (part * 100) as real / whole as real <= 100.0
    ensures part == whole ==> (part * 100) as real / whole as real == 100.0
  {
    DivBetween(part * 100, whole, 0, 100);
    if part == whole {
      DivBetween(part * 100, whole, 100, 100);
    }
  }
}
