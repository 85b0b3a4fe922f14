/** Small facts about natural-number multiplication and division that the
    index arithmetic of the column-major arrays needs. */
module Arith {

  lemma MulNonnegative(a: int, b: int)
    requires a >= 0 && b >= 0
    ensures a * b >= 0
  {
  }

  lemma MulMonotone(a: int, b: int, c: int)
    requires a >= 0 && b <= c
    ensures a * b <= a * c
  {
    MulNonnegative(a, c - b);
    assert a * (c - b) == a * c - a * b;
  }

  lemma Distribute(a: int, b: int, c: int)
    ensures a * (b + c) == a * b + a * c
  {
  }

  lemma Associate(a: int, b: int, c: int)
    ensures a * (b * c) == (a * b) * c
  {
  }

  /** x + a*y enumerates [0, a*b) when x < a and y < b. */
  lemma StepBound(x: int, a: int, y: int, b: int)
    requires 0 <= x < a && 0 <= y < b
    ensures x + a * y < a * b
  {
    MulMonotone(a, y + 1, b);
  }

  /** Four nested steps of StepBound: a column-major offset over five axes
      stays below the product of their extents. */
  lemma NestedBound(x0: int, a0: int, x1: int, a1: int, x2: int, a2: int, x3: int, a3: int, x4: int, a4: int)
    requires 0 <= x0 < a0 && 0 <= x1 < a1 && 0 <= x2 < a2 && 0 <= x3 < a3 && 0 <= x4 < a4
    ensures x0 + a0 * (x1 + a1 * (x2 + a2 * (x3 + a3 * x4))) < a0 * (a1 * (a2 * (a3 * a4)))
  {
    var y3 := x3 + a3 * x4;
    StepBound(x3, a3, x4, a4);
    var y2 := x2 + a2 * y3;
    StepBound(x2, a2, y3, a3 * a4);
    var y1 := x1 + a1 * y2;
    StepBound(x1, a1, y2, a2 * (a3 * a4));
    StepBound(x0, a0, y1, a1 * (a2 * (a3 * a4)));
  }

  /** Euclidean division recovers quotient and remainder. */
  lemma DivModOfSum(d: int, q: int, r: int)
    requires 0 < d && 0 <= q && 0 <= r < d
    ensures (d * q + r) / d == q && (d * q + r) % d == r
  {
    var k := d * q + r;
    var q', r' := k / d, k % d;
    assert k == d * q' + r' && 0 <= r' < d;
    if q' > q {
      MulMonotone(d, q + 1, q');
    } else if q' < q {
      MulMonotone(d, q' + 1, q);
    }
  }

  /** A flat index below d*m has quotient below m. */
  lemma DivBelow(k: int, d: int, m: int)
    requires 0 < d && 0 <= k < d * m
    ensures 0 <= k / d < m
  {
    var q := k / d;
    assert k == d * q + k % d;
    if q < 0 {
      MulMonotone(d, q, -1);
    } else if q >= m {
      MulMonotone(d, m, q);
    }
  }

  /** Reducing a factor modulo m before multiplying does not change the
      product modulo m. */
  lemma MulMod(a: int, b: int, m: int)
    requires 0 <= a && 0 <= b && 0 < m
    ensures ((a % m) * b) % m == (a * b) % m
  {
    var q, r := a / m, a % m;
    MulNonnegative(r, b);
    var q2, r2 := (r * b) / m, (r * b) % m;
    MulNonnegative(q, b);
    var k := q * b + q2;
    SplitProduct(a, b, m, q, r, q2, r2);
    DivModOfSum(m, k, r2);
  }

  /** (m*q + r) * b == m*(q*b + q2) + r2 when r*b == m*q2 + r2. */
  lemma SplitProduct(a: int, b: int, m: int, q: int, r: int, q2: int, r2: int)
    requires a == m * q + r && r * b == m * q2 + r2
    ensures a * b == m * (q * b + q2) + r2
  {
    Distribute(b, m * q, r);
    Associate(m, q, b);
    Distribute(m, q * b, q2);
  }

  /** When a product is below m, reducing a factor modulo m changes nothing. */
  lemma FactorBelowModulus(h: int, t: int, m: int)
    requires 0 <= h && 0 <= t && 0 < m && h * t < m
    ensures h * (t % m) == h * t
  {
    if h > 0 {
      MulMonotone(t, 1, h);
      DivModOfSum(m, 0, t);
    }
  }

  lemma MulNonzero(a: int, b: int)
    requires a > 0 && b >= 0
    ensures a * b > 0 <==> b > 0
  {
    if b > 0 {
      MulMonotone(a, 1, b);
    }
  }
}
