/** The gain the filter computes, and when it may increase a variance. */
module KalmanGain {
  import opened Arithmetic
  import opened Matrices
  import opened KalmanCovariance

  function Det(s: Mat): real {
    s(0, 0) * s(1, 1) - s(0, 1) * s(1, 0)
  }

  /** The closed-form inverse of a 2 x 2 matrix. */
  function Inverse2(s: Mat): Mat
    requires Det(s) != 0.0
  {
    var q := 1.0 / Det(s);
    (i, j) =>
      if i == 0 && j == 0 then s(1, 1) * q
      else if i == 0 && j == 1 then -s(0, 1) * q
      else if i == 1 && j == 0 then -s(1, 0) * q
      else s(0, 0) * q
  }

  /** K = (P H') S^-1. */
  function Gain(p: Mat, h: Mat, s: Mat): Mat
    requires Det(s) != 0.0
  {
    Product(Product(p, Transposed(h), 4), Inverse2(s), 2)
  }

  lemma Cramer(a: real, b: real, d: real, q: real, x: real, y: real)
    requires q * (a * d - b * b) == 1.0
    ensures a * (d * q * x + -b * q * y) + b * (-b * q * x + a * q * y) == x
    ensures b * (d * q * x + -b * q * y) + d * (-b * q * x + a * q * y) == y
  {
    assert a * (d * q * x + -b * q * y) + b * (-b * q * x + a * q * y) == x * (q * (a * d - b * b));
    assert b * (d * q * x + -b * q * y) + d * (-b * q * x + a * q * y) == y * (q * (a * d - b * b));
  }

  lemma Dot2(u: Vec, v: Vec)
    ensures Dot(2, u, v) == u(0) * v(0) + u(1) * v(1)
  {
    assert Dot(1, u, v) == Times(u(0), v(0));
  }

  /** For a symmetric S, u = (S^-1)' x solves S u = x. */
  lemma InverseSolves(s: Mat, x: Vec, i: int)
    requires Det(s) != 0.0 && s(0, 1) == s(1, 0) && 0 <= i < 2
    ensures Apply(s, 2, Apply(Transposed(Inverse2(s)), 2, x))(i) == x(i)
  {
    hide Dot, Times;
    var q, t := 1.0 / Det(s), Transposed(Inverse2(s));
    var u := Apply(t, 2, x);
    Dot2(Row(t, 0), x);
    Dot2(Row(t, 1), x);
    Dot2(Row(s, i), u);
    Cramer(s(0, 0), s(0, 1), s(1, 1), q, x(0), x(1));
  }

  /** K' v = (S^-1)' (H P v). */
  lemma GainApply(p: Mat, h: Mat, s: Mat, v: Vec, j: int)
    requires Det(s) != 0.0 && Symmetric(p, 4)
    ensures Apply(Transposed(Gain(p, h, s)), 4, v)(j) ==
            Apply(Transposed(Inverse2(s)), 2, Apply(h, 4, Apply(p, 4, v)))(j)
  {
    hide Dot, Times, Inverse2, Det;
    var pht := Product(p, Transposed(h), 4);
    ProductTransposedApply(pht, Inverse2(s), 2, 4, v, j);
    var x, y := Apply(Transposed(pht), 4, v), Apply(h, 4, Apply(p, 4, v));
    forall i | 0 <= i < 2 ensures x(i) == y(i) {
      ProductTransposedApply(p, Transposed(h), 4, 4, v, i);
      forall m | 0 <= m < 4 ensures Apply(Transposed(p), 4, v)(m) == Apply(p, 4, v)(m) {
        DotSame(4, Row(Transposed(p), m), v, Row(p, m), v);
      }
      DotSame(4, Row(Transposed(Transposed(h)), i), Apply(Transposed(p), 4, v), Row(h, i), Apply(p, 4, v));
    }
    DotSame(2, Row(Transposed(Inverse2(s)), j), x, Row(Transposed(Inverse2(s)), j), y);
  }

  lemma InnovationSymmetric(p: Mat, h: Mat, r: Vec)
    requires Symmetric(p, 4)
    ensures Innovation(p, h, r)(0, 1) == Innovation(p, h, r)(1, 0)
  {
    hide Dot, Times;
    SandwichSymmetric(h, p, 4, 2);
    assert Product(Product(h, p, 4), Transposed(h), 4)(0, 1) == Product(Product(h, p, 4), Transposed(h), 4)(1, 0);
  }

  /** An accepted update of an initialised filter never increases the variance in any
      direction, for any measurement Jacobian. */
  lemma UpdateContracts(p: Mat, h: Mat, r: Vec, v: Vec)
    requires PositiveDefinite(p, 4) && r(0) > 0.0 && r(1) > 0.0
    requires Det(Innovation(p, h, r)) != 0.0
    ensures Quad(Joseph(p, Gain(p, h, Innovation(p, h, r)), h, r), 4, v) <= Quad(p, 4, v)
  {
    hide Dot, Times, Joseph, Quad, Gain, Inverse2, Det, Innovation;
    var s := Innovation(p, h, r);
    var k := Gain(p, h, s);
    var u, x := Apply(Transposed(k), 4, v), Apply(h, 4, Apply(p, 4, v));
    InnovationSymmetric(p, h, r);
    forall i | 0 <= i < 2 ensures Apply(s, 2, u)(i) == x(i) {
      InverseSolves(s, x, i);
      var w := Apply(Transposed(Inverse2(s)), 2, x);
      GainApply(p, h, s, v, 0);
      GainApply(p, h, s, v, 1);
      DotSame(2, Row(s, i), u, Row(s, i), w);
    }
    OptimalContracts(p, k, h, r, v);
  }

  // ---- the first update ----

  /** On the first update the accumulator of H P is cleared inside its innermost loop, so
      only the last product of each entry survives. */
  function LastProduct(p: Mat, h: Mat): Mat {
    (i, j) => Times(h(i, 3), p(3, j))
  }

  function FirstInnovation(p: Mat, h: Mat, r: Vec): Mat {
    Sum(Diagonal(r), Product(LastProduct(p, h), Transposed(h), 4))
  }

  /** Position measurements: the Jacobian picks the first two entries. */
  function PickXY(): Mat {
    (i, j) => if i == j then 1.0 else 0.0
  }
}
