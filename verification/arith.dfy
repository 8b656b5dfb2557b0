/**
 * Facts about multiplication and division on naturals that the solver does
 * not find by itself.
 */
module Arith {

  lemma MulAtLeast(k: int, d: int)
    requires k >= 1 && d > 0
    ensures k * d >= d
  {
    assert k * d == (k - 1) * d + d;
  }

  /** Division with remainder is unique. */
  lemma DivModUnique(n: int, d: int, q: int, r: int)
    requires d > 0 && 0 <= r < d && n == q * d + r
    ensures n / d == q && n % d == r
  {
    var q', r' := n / d, n % d;
    assert n == q' * d + r' && 0 <= r' < d;
    var k := q - q';
    assert k * d == q * d - q' * d;
    assert k * d == r' - r;
    if k >= 1 {
      MulAtLeast(k, d);
    } else if k <= -1 {
      MulAtLeast(-k, d);
    }
    assert k == 0;
  }

  lemma DivMonotone(x: nat, y: nat, d: nat)
    requires x <= y && d > 0
    ensures x / d <= y / d
  {
    var k := x / d - y / d;
    assert k * d == x / d * d - y / d * d;
    assert k * d < d;
    if k >= 1 {
      MulAtLeast(k, d);
    }
  }

  lemma MulMonotone(b: nat, x: nat, y: nat)
    requires x <= y
    ensures b * x <= b * y
  {
    assert b * y == b * x + b * (y - x);
  }

  /** If `q` copies of `d` fit in `n`, then `q` is at most the quotient. */
  lemma DivLowerBound(n: nat, d: nat, q: nat)
    requires d > 0 && q * d <= n
    ensures q <= n / d
  {
    var k := q - n / d;
    assert k * d == q * d - n / d * d;
    assert k * d < d;
    if k >= 1 {
      MulAtLeast(k, d);
    }
  }

  /** A quotient is at most `m` when the dividend is at most `m * d`. */
  lemma DivUpperBound(n: nat, d: nat, m: nat)
    requires d > 0 && n <= m * d
    ensures n / d <= m
  {
    DivMonotone(n, m * d, d);
    DivModUnique(m * d, d, m, 0);
  }

  /** The quotient is the floor of the exact ratio, and bounded as the dividend is. */
  lemma FloorQuotient(n: nat, d: nat, m: nat)
    requires d > 0 && n <= m * d
    ensures n / d * d <= n < (n / d + 1) * d
    ensures n / d <= m
  {
    assert n == n / d * d + n % d;
    DivUpperBound(n, d, m);
  }

  /** A positive factor can be cancelled from both sides of `<=`. */
  lemma MulCancel(k: nat, x: nat, y: nat)
    requires k > 0 && k * x <= k * y
    ensures x <= y
  {
    if x > y {
      MulMonotone(k, y + 1, x);
      MulAtLeast(k, 1);
    }
  }
}
