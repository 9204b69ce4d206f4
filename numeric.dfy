// Exact-arithmetic stand-ins for the JavaScript `Math` functions the
// calculators use: `Math.pow` with a whole exponent and `Math.round`.

module Numeric {

  /** `Math.pow(x, n)` for a whole, non-negative exponent. */
  function Pow(x: real, n: nat): real
  {
    if n == 0 then 1.0 else x * Pow(x, n - 1)
  }

  /** `Math.round(x)`: the result is the unique integer in the half-open
      interval (x - 1/2, x + 1/2], so halves round upward (toward +infinity). */
  function Round(x: real): (r: int)
    ensures x - 0.5 < r as real <= x + 0.5
  {
    (x + 0.5).Floor
  }

  lemma RoundMonotone(a: real, b: real)
    requires a <= b
    ensures Round(a) <= Round(b)
  {
  }

  lemma RoundOfInteger(k: int)
    ensures Round(k as real) == k
  {
  }

  lemma {:induction false} PowAtLeastOne(x: real, n: nat)
    requires x >= 1.0
    ensures Pow(x, n) >= 1.0
  {
    if n > 0 {
      PowAtLeastOne(x, n - 1);
      assert x * Pow(x, n - 1) >= 1.0 * Pow(x, n - 1);
    }
  }

  lemma {:induction false} PowAboveOne(x: real, n: nat)
    requires x > 1.0 && n >= 1
    ensures Pow(x, n) > 1.0
  {
    PowAtLeastOne(x, n - 1);
    assert x * Pow(x, n - 1) > 1.0 * Pow(x, n - 1);
  }

  /** Multiplying both sides of an inequality by a non-negative factor. */
  lemma ScaleLe(c: real, a: real, b: real)
    requires c >= 0.0 && a <= b
    ensures c * a <= c * b
  {
    assert c * b - c * a == c * (b - a);
  }

  /** Cancelling a non-zero factor from both sides of an equation. */
  lemma CancelFactor(k: real, a: real, b: real)
    requires k != 0.0
    requires a * k == b * k
    ensures a == b
  {
    assert (a - b) * k == 0.0;
  }

  /** Two values that give the same e == c + d * f for d != 0 are equal. */
  lemma CancelOffset(c: real, d: real, f1: real, f2: real, e: real)
    requires d != 0.0
    requires e == c + d * f1
    requires e == c + d * f2
    ensures f1 == f2
  {
    CancelFactor(d, f1, f2);
  }

  /** Dividing an inequality by a positive factor. */
  lemma CancelAtMost(k: real, a: real, b: real)
    requires k > 0.0 && a * k <= b * k
    ensures a <= b
  {
  }

  /** A Bernoulli-type bound: x^n - 1 <= n * (x - 1) * x^n for x >= 1. */
  lemma {:induction false} PowGrowthBound(x: real, n: nat)
    requires x >= 1.0
    ensures Pow(x, n) - 1.0 <= (n as real) * (x - 1.0) * Pow(x, n)
  {
    if n > 0 {
      PowGrowthBound(x, n - 1);
      PowAtLeastOne(x, n - 1);
      GrowthBoundStep(x, Pow(x, n - 1), (n - 1) as real, Pow(x, n), n as real);
    }
  }

  /** One step of PowGrowthBound, with q = x^(n-1) and big = x^n. */
  lemma GrowthBoundStep(x: real, q: real, m: real, big: real, n: real)
    requires x >= 1.0 && q >= 1.0 && m >= 0.0
    requires q - 1.0 <= m * (x - 1.0) * q
    requires big == x * q && n == m + 1.0
    ensures big - 1.0 <= n * (x - 1.0) * big
  {
    var e := x - 1.0;
    assert big - 1.0 == x * (q - 1.0) + e;
    ScaleLe(x, q - 1.0, m * e * q);
    assert x * (m * e * q) == m * e * big;
    assert big >= 1.0 by {
      ScaleLe(q, 1.0, x);
    }
    ScaleLe(e, 1.0, big);
    assert n * e * big == m * e * big + e * big;
  }
}
