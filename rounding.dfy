/**
 * `Math.round` of a quotient, computed exactly over the integers. The pages
 * round `p / q` and `(p / q) * 100`; over exact fractions these are
 * `floor(p/q + 1/2)`, which is what `Math.round` computes (halves go up).
 */
module Rounding {

  /** `Math.round(p / q)` for `q > 0`: `/` on `int` with a positive divisor is floor division. */
  function RoundDiv(p: int, q: nat): int
    requires q > 0
  {
    (2 * p + q) / (2 * q)
  }

  /** `Math.round((part / whole) * 100)`. */
  function RoundedPercent(part: nat, whole: nat): int
    requires whole > 0
  {
    RoundDiv(100 * part, whole)
  }

  lemma DivAtMost(a: int, d: nat, k: int)
    requires d > 0 && a < (k + 1) * d
    ensures a / d <= k
  {
    assert d * (a / d) <= a;
  }

  lemma DivAtLeast(a: int, d: nat, k: int)
    requires d > 0 && k * d <= a
    ensures k <= a / d
  {
    assert a < d * (a / d + 1);
  }

  /** The result is the nearest integer: r − 1/2 ≤ p/q < r + 1/2. */
  lemma RoundDivIsNearest(p: int, q: nat)
    requires q > 0
    ensures var r := RoundDiv(p, q); (2 * r - 1) * q <= 2 * p < (2 * r + 1) * q
  {
    var d, a := 2 * q, 2 * p + q;
    assert d * (a / d) <= a < d * (a / d + 1);
  }

  /**
   * A share of at most the whole rounds into 0..100; it is 100 exactly when at
   * most half a percent is missing (200·(whole − part) ≤ whole), and 0 exactly
   * when it is below half a percent (200·part < whole).
   */
  lemma PercentBounds(part: nat, whole: nat)
    requires 0 < whole && part <= whole
    ensures 0 <= RoundedPercent(part, whole) <= 100
    ensures RoundedPercent(part, whole) == 100 <==> 200 * (whole - part) <= whole
    ensures RoundedPercent(part, whole) == 0 <==> 200 * part < whole
  {
    var a, d := 200 * part + whole, 2 * whole;
    DivAtMost(a, d, 100);
    DivAtLeast(a, d, 0);
    if 200 * (whole - part) <= whole {
      DivAtLeast(a, d, 100);
    } else {
      DivAtMost(a, d, 99);
    }
    if 200 * part < whole {
      DivAtMost(a, d, 0);
    } else {
      DivAtLeast(a, d, 1);
    }
  }

  /** A larger share never rounds to a smaller percentage. */
  lemma PercentMonotone(i: nat, j: nat, whole: nat)
    requires i <= j && whole > 0
    ensures RoundedPercent(i, whole) <= RoundedPercent(j, whole)
  {
    var a, b, d := 200 * i + whole, 200 * j + whole, 2 * whole;
    DivAtLeast(b, d, a / d);
  }
}
