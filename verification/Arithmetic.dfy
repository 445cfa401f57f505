/** Non-linear facts the solver needs spelled out. */
module Arithmetic {
  lemma MulMonotone(a: int, b: int, w: int)
    requires a <= b && w >= 0
    ensures a * w <= b * w
  {
    assert (b - a) * w >= 0;
  }

  lemma MulNonNegative(a: int, b: int)
    requires a >= 0 && b >= 0
    ensures a * b >= 0
  {
  }

  lemma DivNonNegative(n: int, d: int)
    requires n >= 0 && d > 0
    ensures n / d >= 0
  {
  }

  lemma Distribute(a: real, b: real, c: real)
    ensures a * (b + c) == a * b + a * c
  {
  }

  lemma SquareNonNegative(n: int)
    ensures n * n >= 0
  {
  }

  lemma ProductNonNegative(a: real, b: real)
    requires a >= 0.0 && b >= 0.0
    ensures a * b >= 0.0
  {
  }

  lemma ProductPositive(a: real, b: real)
    requires a > 0.0 && b > 0.0
    ensures a * b > 0.0
  {
  }

  lemma ScaleLess(a: real, b: real, k: real)
    requires a <= b && k >= 0.0
    ensures a * k <= b * k
  {
    ProductNonNegative(b - a, k);
    assert (b - a) * k == b * k - a * k;
  }

  lemma SquareLess(a: real, b: real)
    requires 0.0 <= a < b
    ensures a * a < b * b
  {
    ProductPositive(b - a, b + a);
    assert (b - a) * (b + a) == b * b - a * a;
  }

  lemma QuotientBound(m: real, d: real, r: real)
    requires d > 0.0 && m * d <= r
    ensures m <= r / d
  {
    var q := r / d;
    assert q * d == r;
    assert (m - q) * d == m * d - q * d;
    if q < m {
      ProductPositive(m - q, d);
    }
  }

  lemma DivUnique(n: int, d: int, q: int)
    requires d > 0 && 0 <= n - q * d < d
    ensures n / d == q
  {
    var r := n / d;
    DivBounds(n, d);
    if r < q {
      MulMonotone(r + 1, q, d);
    } else if r > q {
      MulMonotone(q + 1, r, d);
    }
  }

  lemma ModUnique(n: int, d: int, q: int, r: int)
    requires 0 <= r < d && n == q * d + r
    ensures n % d == r
  {
    DivUnique(n, d, q);
    assert n == n / d * d + n % d;
  }

  lemma DivBounds(n: int, d: int)
    requires d > 0
    ensures n / d * d <= n < n / d * d + d
  {
    assert n == n / d * d + n % d;
  }
}
