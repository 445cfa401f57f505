/** Where a prediction and an update put the estimate, in numbers. */
module KalmanEstimate {
  import opened Arithmetic
  import opened Matrices
  import opened KalmanCovariance
  import opened KalmanGain
  import opened KalmanFilter
  import opened KalmanFirstUpdate

  // ---- prediction, entry by entry ----

  /** The predicted covariance: position entries pick up the velocity entries, weighted by dt,
      and the diagonal its process noise. */
  lemma PredictedEntry(p: Mat, dt: real, i: int, j: int)
    requires 0 <= i < 4 && 0 <= j < 4
    ensures Predicted(p, dt)(i, j) ==
            p(i, j)
            + (if i < 2 then dt * p(i + 2, j) else 0.0)
            + (if j < 2 then dt * (p(i, j + 2) + if i < 2 then dt * p(i + 2, j + 2) else 0.0) else 0.0)
            + (if i != j then 0.0 else if i < 2 then 0.01 else 0.1)
  {
    hide Dot, Times, Product;
    var f := Transition(dt);
    var fp := Product(f, p, 4);
    MovedRow(p, dt, i, j);
    if j < 2 {
      MovedRow(p, dt, i, j + 2);
    }
    MovedColumn(fp, dt, i, j);
  }

  lemma MovedRow(p: Mat, dt: real, i: int, k: int)
    requires 0 <= i < 4 && 0 <= k < 4
    ensures Product(Transition(dt), p, 4)(i, k) == p(i, k) + if i < 2 then dt * p(i + 2, k) else 0.0
  {
    hide Dot, Times;
    TransitionApply(dt, Row(Transposed(p), k));
  }

  lemma MovedColumn(q: Mat, dt: real, i: int, j: int)
    requires 0 <= i < 4 && 0 <= j < 4
    ensures Product(q, Transposed(Transition(dt)), 4)(i, j) == q(i, j) + if j < 2 then dt * q(i, j + 2) else 0.0
  {
    hide Dot, Times;
    var f := Transition(dt);
    DotCommutes(4, Row(q, i), Row(Transposed(Transposed(f)), j));
    DotSame(4, Row(Transposed(Transposed(f)), j), Row(q, i), Row(f, j), Row(q, i));
    TransitionApply(dt, Row(q, i));
  }

  // ---- an update of an initialised filter ----

  /** (S^-1) y solves S w = y. */
  lemma InverseRight(s: Mat, y: Vec)
    requires Det(s) != 0.0
    ensures var w := Apply(Inverse2(s), 2, y);
      && s(0, 0) * w(0) + s(0, 1) * w(1) == y(0)
      && s(1, 0) * w(0) + s(1, 1) * w(1) == y(1)
  {
    var q, t := 1.0 / Det(s), Inverse2(s);
    Dot2(Row(t, 0), y);
    Dot2(Row(t, 1), y);
    var a, b, c, d := s(0, 0), s(0, 1), s(1, 0), s(1, 1);
    CramerRule(a, b, c, d, q, y(0), y(1));
  }

  lemma CramerRule(a: real, b: real, c: real, d: real, q: real, x: real, y: real)
    requires q * (a * d - b * c) == 1.0
    ensures a * (d * q * x + -b * q * y) + b * (-c * q * x + a * q * y) == x
    ensures c * (d * q * x + -b * q * y) + d * (-c * q * x + a * q * y) == y
  {
    assert a * (d * q * x + -b * q * y) + b * (-c * q * x + a * q * y) == x * (q * (a * d - b * c));
    assert c * (d * q * x + -b * q * y) + d * (-c * q * x + a * q * y) == y * (q * (a * d - b * c));
  }

  /** K y = P H' w, where S w = y. */
  lemma GainTimes(p: Mat, h: Mat, s: Mat, y: Vec, i: int)
    requires Det(s) != 0.0
    ensures var w, pht := Apply(Inverse2(s), 2, y), Product(p, Transposed(h), 4);
      Dot(2, Row(Gain(p, h, s), i), y) == pht(i, 0) * w(0) + pht(i, 1) * w(1)
  {
    hide Times, Inverse2, Det;
    var w, pht := Apply(Inverse2(s), 2, y), Product(p, Transposed(h), 4);
    ProductApply(pht, Inverse2(s), 2, 2, y, i);
    Dot2(Row(pht, i), w);
  }

  /** The correction of an accepted measurement solves the normal equations of its innovation,
      which is the measurement less the prediction. */
  lemma CorrectionExact(m: Model, x0: seq<real>, p: Mat, z0: real, z1: real, r: Vec) returns (w0: real, w1: real)
    requires Outcome(m, x0, p, true, z0, z1, r).accepted
    ensures var o, h, s := Outcome(m, x0, p, true, z0, z1, r), m.jacobian(x0), Innovation(p, m.jacobian(x0), r);
      && Det(s) != 0.0 && o.x == x0 && o.h == h && o.s == s
      && s(0, 0) * w0 + s(0, 1) * w1 == z0 - m.h(x0).0
      && s(1, 0) * w0 + s(1, 1) * w1 == z1 - m.h(x0).1
      && forall i :: Dot(2, Row(Gain(p, h, s), i), o.y) ==
           Product(p, Transposed(h), 4)(i, 0) * w0 + Product(p, Transposed(h), 4)(i, 1) * w1
  {
    hide Product, Innovation, Gain, Dot, Gate;
    var o := Outcome(m, x0, p, true, z0, z1, r);
    var w := Apply(Inverse2(o.s), 2, o.y);
    w0, w1 := w(0), w(1);
    hide Inverse2, Det;
    InverseRight(o.s, o.y);
    forall i ensures Dot(2, Row(Gain(p, o.h, o.s), i), o.y) ==
                     Product(p, Transposed(o.h), 4)(i, 0) * w0 + Product(p, Transposed(o.h), 4)(i, 1) * w1
    {
      GainTimes(p, o.h, o.s, o.y, i);
    }
  }

  // ---- positions ----

  lemma PickProduct(p: Mat, i: int, k: int)
    requires 0 <= k < 2
    ensures Product(p, Transposed(PickXY()), 4)(i, k) == p(i, k)
  {
    hide Dot, Times;
    var u, v := Row(p, i), Row(Transposed(Transposed(PickXY())), k);
    DotCommutes(4, u, v);
    DotSingle(4, v, u, k);
    TimesMinusOne();
  }

  /** S for positions: the position block of P plus the noise. */
  lemma PositionInnovation(p: Mat, r: Vec, i: int, j: int)
    requires 0 <= i < 2 && 0 <= j < 2
    ensures Innovation(p, PickXY(), r)(i, j) == p(i, j) + if i == j then r(i) else 0.0
  {
    hide Dot, Times;
    var hp := Product(PickXY(), p, 4);
    PickProduct(hp, i, j);
    DotSingle(4, Row(PickXY(), i), Row(Transposed(p), j), i);
    TimesMinusOne();
  }

  /** What decides about a position with innovation y and innovation covariance s: three standard
      deviations for each coordinate, and a determinant to divide by. */
  predicate Plausible(y0: real, y1: real, s00: real, s01: real, s10: real, s11: real) {
    var det := s00 * s11 - s01 * s10;
    && y0 * y0 <= 9.0 * s00 && y1 * y1 <= 9.0 * s11
    && (det <= -0.000000000001 || det >= 0.000000000001)
  }

  /** The gate refuses just what lies farther out than three times a positive standard deviation q. */
  lemma GateExact(y: real, s: real, q: real)
    requires q * q == s || s < 0.0
    ensures Gate(y, s) <==> s <= 0.0 || -3.0 * Magnitude(q) <= y <= 3.0 * Magnitude(q)
  {
    if s > 0.0 {
      var a := 3.0 * Magnitude(q);
      assert Magnitude(q) * Magnitude(q) == s;
      assert a * a == 9.0 * s;
      Factored(a, y);
      if -a <= y <= a {
        assert 0.0 <= (a - y) * (a + y);
      } else if y > a {
        assert (y - a) * (a + y) > 0.0;
      } else {
        assert (a - y) * (-a - y) > 0.0;
      }
    }
  }

  function Magnitude(q: real): real {
    if q < 0.0 then -q else q
  }

  lemma Factored(a: real, y: real)
    ensures a * a - y * y == (a - y) * (a + y)
    ensures (y - a) * (a + y) == y * y - a * a && (a - y) * (-a - y) == y * y - a * a
  {
  }

  lemma PositiveDiagonal(p: Mat, i: int)
    requires PositiveDefinite(p, 4) && 0 <= i < 4
    ensures p(i, i) > 0.0
  {
    hide Dot, Times, Quad;
    EntryAsQuad(p, 4, i);
    assert Unit(i)(i) != 0.0;
    assert NonZero(Unit(i), 4);
  }

  /** An initialised filter accepts a position exactly if each coordinate is within three
      standard deviations of the estimate and S is not singular. */
  lemma PositionAcceptedIff(x0: seq<real>, p: Mat, z0: real, z1: real, r: Vec)
    requires |x0| == 4 && PositiveDefinite(p, 4) && r(0) > 0.0 && r(1) > 0.0
    ensures Outcome(Positions(), x0, p, true, z0, z1, r).accepted <==>
            Plausible(z0 - x0[0], z1 - x0[1], p(0, 0) + r(0), p(0, 1), p(1, 0), p(1, 1) + r(1))
  {
    hide Innovation, PositiveDefinite;
    PositiveDiagonal(p, 0);
    PositiveDiagonal(p, 1);
    PositionInnovation(p, r, 0, 0);
    PositionInnovation(p, r, 0, 1);
    PositionInnovation(p, r, 1, 0);
    PositionInnovation(p, r, 1, 1);
    var o := Outcome(Positions(), x0, p, true, z0, z1, r);
    assert o.s == Innovation(p, PickXY(), r);
    assert o.y(0) == z0 - x0[0] && o.y(1) == z1 - x0[1];
    VerdictNumbers(o.s, o.y);
  }

  lemma VerdictNumbers(s: Mat, y: Vec)
    requires s(0, 0) > 0.0 && s(1, 1) > 0.0
    ensures Gate(y(0), s(0, 0)) && Gate(y(1), s(1, 1)) && Invertible(s) <==>
            Plausible(y(0), y(1), s(0, 0), s(0, 1), s(1, 0), s(1, 1))
  {
  }

  /** What an accepted position does to the estimate: with e = z - H x+ the remaining residual,
      x+ = x + P H' R^-1 e. The product form avoids the division. */
  lemma PositionEstimate(x0: seq<real>, p: Mat, z0: real, z1: real, r: Vec, x: seq<real>)
    requires |x0| == |x| == 4 && r(0) > 0.0 && r(1) > 0.0
    requires Outcome(Positions(), x0, p, true, z0, z1, r).accepted
    requires var o := Outcome(Positions(), x0, p, true, z0, z1, r);
      Det(o.s) != 0.0 &&
      forall i :: 0 <= i < 4 ==> x[i] == o.x[i] + Dot(2, Row(Gain(p, o.h, o.s), i), o.y)
    ensures forall i :: 0 <= i < 4 ==>
              r(0) * r(1) * (x[i] - x0[i]) == p(i, 0) * (r(1) * (z0 - x[0])) + p(i, 1) * (r(0) * (z1 - x[1]))
  {
    hide Innovation, Gain, Dot, Product, Det, Gate, Outcome;
    OutcomeKeepsState(x0, p, z0, z1, r);
    var w0, w1 := PositionWeights(x0, p, z0, z1, r, x);
    Residual2(p(0, 0), p(0, 1), p(1, 0), p(1, 1), r(0), r(1), w0, w1,
              z0 - x0[0], z1 - x0[1], x[0] - x0[0], x[1] - x0[1]);
    forall i | 0 <= i < 4
      ensures r(0) * r(1) * (x[i] - x0[i]) == p(i, 0) * (r(1) * (z0 - x[0])) + p(i, 1) * (r(0) * (z1 - x[1]))
    {
      Rescale(p(i, 0), p(i, 1), r(0), r(1), w0, w1, x[i] - x0[i], z0 - x[0], z1 - x[1]);
    }
  }

  /** The solution of the normal equations, and the correction it gives. */
  lemma PositionWeights(x0: seq<real>, p: Mat, z0: real, z1: real, r: Vec, x: seq<real>) returns (w0: real, w1: real)
    requires |x0| == |x| == 4
    requires Outcome(Positions(), x0, p, true, z0, z1, r).accepted
    requires var o := Outcome(Positions(), x0, p, true, z0, z1, r);
      Det(o.s) != 0.0 &&
      forall i :: 0 <= i < 4 ==> x[i] == o.x[i] + Dot(2, Row(Gain(p, o.h, o.s), i), o.y)
    ensures (p(0, 0) + r(0)) * w0 + p(0, 1) * w1 == z0 - x0[0]
    ensures p(1, 0) * w0 + (p(1, 1) + r(1)) * w1 == z1 - x0[1]
    ensures forall i :: 0 <= i < 4 ==> x[i] - x0[i] == p(i, 0) * w0 + p(i, 1) * w1
  {
    hide Innovation, Gain, Dot, Product, Det, Gate, Outcome;
    w0, w1 := CorrectionExact(Positions(), x0, p, z0, z1, r);
    assert Positions().jacobian(x0) == PickXY() && Positions().h(x0) == (x0[0], x0[1]);
    PositionInnovation(p, r, 0, 0);
    PositionInnovation(p, r, 0, 1);
    PositionInnovation(p, r, 1, 0);
    PositionInnovation(p, r, 1, 1);
    forall i | 0 <= i < 4 ensures x[i] - x0[i] == p(i, 0) * w0 + p(i, 1) * w1 {
      PickProduct(p, i, 0);
      PickProduct(p, i, 1);
    }
  }

  /** What S w = y leaves of y: R w. */
  lemma Residual2(a: real, b: real, c: real, d: real, r0: real, r1: real, w0: real, w1: real,
                  y0: real, y1: real, d0: real, d1: real)
    requires (a + r0) * w0 + b * w1 == y0 && c * w0 + (d + r1) * w1 == y1
    requires d0 == a * w0 + b * w1 && d1 == c * w0 + d * w1
    ensures y0 - d0 == r0 * w0 && y1 - d1 == r1 * w1
  {
  }

  lemma Rescale(a: real, b: real, r0: real, r1: real, w0: real, w1: real, change: real, e0: real, e1: real)
    requires change == a * w0 + b * w1 && e0 == r0 * w0 && e1 == r1 * w1
    ensures r0 * r1 * change == a * (r1 * e0) + b * (r0 * e1)
  {
    assert a * (r1 * e0) == r0 * r1 * (a * w0);
    assert b * (r0 * e1) == r0 * r1 * (b * w1);
  }

  // ---- the residual shrinks ----

  /** a u^2 + 2 b u v + d v^2 > 0 for the position block of a definite P. */
  lemma BlockForm(p: Mat, u: real, v: real)
    requires PositiveDefinite(p, 4) && (u != 0.0 || v != 0.0)
    ensures u * (p(0, 0) * u + p(0, 1) * v) + v * (p(1, 0) * u + p(1, 1) * v) > 0.0
  {
    hide Dot, Times, Quad, PositiveDefinite;
    var m, w := Block(p, PickXY()), Entry2(u, v);
    assert PlanarDet(PickXY()) != 0.0;
    BlockDefinite(p, PickXY());
    BlockEntry(p, 0, 0);
    BlockEntry(p, 0, 1);
    BlockEntry(p, 1, 0);
    BlockEntry(p, 1, 1);
    Quad2(m, w);
    DefiniteAt(m, w);
  }

  lemma DefiniteAt(m: Mat, w: Vec)
    requires PositiveDefinite(m, 2) && (w(0) != 0.0 || w(1) != 0.0)
    ensures Quad(m, 2, w) > 0.0
  {
    assert NonZero(w, 2);
  }

  function Entry2(u: real, v: real): Vec {
    i => if i == 0 then u else v
  }

  lemma BlockEntry(p: Mat, i: int, j: int)
    requires 0 <= i < 2 && 0 <= j < 2
    ensures Block(p, PickXY())(i, j) == p(i, j)
  {
    hide Dot, Times;
    var hp := Product(PickXY(), p, 4);
    PickProduct(hp, i, j);
    DotSingle(4, Row(PickXY(), i), Row(Transposed(p), j), i);
    TimesMinusOne();
  }

  /** The squared residual, each coordinate weighed by the other one's noise. */
  function Misfit(e0: real, e1: real, r0: real, r1: real): real {
    r1 * (e0 * e0) + r0 * (e1 * e1)
  }

  lemma MisfitShrinks(y0: real, y1: real, u0: real, u1: real, r0: real, r1: real, w0: real, w1: real)
    requires r0 > 0.0 && r1 > 0.0
    requires y0 == u0 + r0 * w0 && y1 == u1 + r1 * w1
    ensures w0 * u0 + w1 * u1 > 0.0 ==> Misfit(r0 * w0, r1 * w1, r0, r1) < Misfit(y0, y1, r0, r1)
    ensures w0 == 0.0 && w1 == 0.0 && u0 == 0.0 && u1 == 0.0 ==> y0 == 0.0 && y1 == 0.0
  {
    var form := w0 * u0 + w1 * u1;
    SquareExpands(u0, r0 * w0);
    SquareExpands(u1, r1 * w1);
    assert r1 * (2.0 * (u0 * (r0 * w0))) == 2.0 * (r0 * r1) * (w0 * u0);
    assert r0 * (2.0 * (u1 * (r1 * w1))) == 2.0 * (r0 * r1) * (w1 * u1);
    SplitMisfit(u0 * u0, u0 * (r0 * w0), (r0 * w0) * (r0 * w0), r1);
    SplitMisfit(u1 * u1, u1 * (r1 * w1), (r1 * w1) * (r1 * w1), r0);
    assert Misfit(y0, y1, r0, r1) ==
           Misfit(r0 * w0, r1 * w1, r0, r1) + Misfit(u0, u1, r0, r1) + 2.0 * (r0 * r1) * form by {
      Distribute(2.0 * (r0 * r1), w0 * u0, w1 * u1);
    }
    SquarePlus(u0);
    SquarePlus(u1);
    ProductNonNegative(r1, u0 * u0);
    ProductNonNegative(r0, u1 * u1);
    ProductPositive(r0, r1);
    if form > 0.0 {
      ProductPositive(2.0 * (r0 * r1), form);
    }
  }

  lemma SquarePlus(x: real)
    ensures x * x >= 0.0
  {
  }

  lemma SquareExpands(a: real, b: real)
    ensures (a + b) * (a + b) == a * a + 2.0 * (a * b) + b * b
  {
  }

  lemma SplitMisfit(a: real, b: real, c: real, r: real)
    ensures r * (a + 2.0 * b + c) == r * a + r * (2.0 * b) + r * c
  {
  }

  /** An accepted position brings the estimate closer to it: the weighted squared residual
      shrinks strictly unless it was zero. */
  lemma PositionCloser(x0: seq<real>, p: Mat, z0: real, z1: real, r: Vec, x: seq<real>)
    requires |x0| == |x| == 4 && PositiveDefinite(p, 4) && r(0) > 0.0 && r(1) > 0.0
    requires forall i :: 0 <= i < 4 ==>
               r(0) * r(1) * (x[i] - x0[i]) == p(i, 0) * (r(1) * (z0 - x[0])) + p(i, 1) * (r(0) * (z1 - x[1]))
    ensures z0 != x0[0] || z1 != x0[1] ==>
              Misfit(z0 - x[0], z1 - x[1], r(0), r(1)) < Misfit(z0 - x0[0], z1 - x0[1], r(0), r(1))
    ensures z0 == x0[0] && z1 == x0[1] ==> x[0] == x0[0] && x[1] == x0[1]
  {
    var r0, r1 := r(0), r(1);
    var w0, w1 := (z0 - x[0]) / r0, (z1 - x[1]) / r1;
    assert r0 * w0 == z0 - x[0] && r1 * w1 == z1 - x[1];
    ProductPositive(r0, r1);
    var u0, u1 := p(0, 0) * w0 + p(0, 1) * w1, p(1, 0) * w0 + p(1, 1) * w1;
    Unscale(p(0, 0), p(0, 1), r0, r1, w0, w1, x[0] - x0[0], z0 - x[0], z1 - x[1]);
    Unscale(p(1, 0), p(1, 1), r0, r1, w0, w1, x[1] - x0[1], z0 - x[0], z1 - x[1]);
    hide PositiveDefinite;
    MisfitShrinks(z0 - x0[0], z1 - x0[1], u0, u1, r0, r1, w0, w1);
    if w0 != 0.0 || w1 != 0.0 {
      BlockForm(p, w0, w1);
      NoResidual(z0 - x0[0], z1 - x0[1], z0 - x[0], z1 - x[1], r0, r1);
    }
  }

  lemma Unscale(a: real, b: real, r0: real, r1: real, w0: real, w1: real, change: real, e0: real, e1: real)
    requires r0 * r1 > 0.0 && e0 == r0 * w0 && e1 == r1 * w1
    requires r0 * r1 * change == a * (r1 * e0) + b * (r0 * e1)
    ensures change == a * w0 + b * w1
  {
    Rescale(a, b, r0, r1, w0, w1, a * w0 + b * w1, e0, e1);
    assert r0 * r1 * (change - (a * w0 + b * w1)) == 0.0;
  }

  lemma NoResidual(y0: real, y1: real, e0: real, e1: real, r0: real, r1: real)
    requires r0 > 0.0 && r1 > 0.0 && Misfit(e0, e1, r0, r1) < Misfit(y0, y1, r0, r1)
    ensures y0 != 0.0 || y1 != 0.0
  {
    SquarePlus(e0);
    SquarePlus(e1);
    ProductNonNegative(r1, e0 * e0);
    ProductNonNegative(r0, e1 * e1);
  }

  /** Where the coordinates are uncorrelated the residual shrinks by r / (P_ii + r). */
  lemma UncorrelatedShrinks(a: real, r0: real, r1: real, x0: real, z: real, x: real)
    requires r1 != 0.0 && r0 * r1 * (x - x0) == a * (r1 * (z - x))
    ensures (a + r0) * (z - x) == r0 * (z - x0)
  {
    var e := z - x;
    assert r1 * (r0 * (x - x0) - a * e) == r0 * r1 * (x - x0) - a * (r1 * e);
    assert r0 * (x - x0) == a * e;
    Distribute(e, a, r0);
    Distribute(r0, x - x0, e);
    assert e * (a + r0) == (a + r0) * e && x - x0 + e == z - x0;
  }

  // ---- the filter object ----

  /** A position measured by an initialised filter, in numbers: verdict, estimate, and what a
      refusal leaves alone. */
  method MeasurePosition(filter: KalmanFilter, z0: real, z1: real, r0: real, r1: real) returns (accepted: bool)
    requires filter.Valid() && filter.model == Positions() && filter.initialized
    requires PositiveDefinite(filter.P(), 4) && r0 > 0.0 && r1 > 0.0
    modifies filter`initialized, filter.state, filter.cov
    ensures filter.initialized && PositiveDefinite(filter.P(), 4)
    ensures accepted <==>
            Plausible(z0 - old(filter.state[0]), z1 - old(filter.state[1]),
                      old(filter.cov[0]) + r0, old(filter.cov[1]), old(filter.cov[4]), old(filter.cov[5]) + r1)
    ensures !accepted ==> filter.state[..] == old(filter.state[..]) && filter.cov[..] == old(filter.cov[..])
    ensures accepted ==> forall i :: 0 <= i < 4 ==>
              r0 * r1 * (filter.state[i] - old(filter.state[i])) ==
                old(filter.cov[i * 4]) * (r1 * (z0 - filter.state[0])) +
                old(filter.cov[i * 4 + 1]) * (r0 * (z1 - filter.state[1]))
    ensures accepted && (z0 != old(filter.state[0]) || z1 != old(filter.state[1])) ==>
              Misfit(z0 - filter.state[0], z1 - filter.state[1], r0, r1) <
              Misfit(z0 - old(filter.state[0]), z1 - old(filter.state[1]), r0, r1)
    ensures accepted && old(filter.cov[1]) == 0.0 ==>
              (old(filter.cov[0]) + r0) * (z0 - filter.state[0]) == r0 * (z0 - old(filter.state[0]))
  {
    hide Outcome, Corrected, PositiveDefinite, Flat, Gain, Joseph, Dot, Gate, Misfit, Plausible, SameOn;
    ghost var x0, p, r := filter.state[..], filter.P(), Pair(r0, r1);
    ghost var c := filter.cov[..];
    PositionVerdict(x0, c, z0, z1, r0, r1);
    CovEntries(c);
    accepted := filter.Update(z0, z1, r0, r1);
    OutcomeKeepsState(x0, p, z0, z1, r);
    if accepted {
      PositionEstimate(x0, p, z0, z1, r, filter.state[..]);
      PositionCloser(x0, p, z0, z1, r, filter.state[..]);
      if c[1] == 0.0 {
        UncorrelatedShrinks(c[0], r0, r1, x0[0], z0, filter.state[0]);
      }
    }
  }

  /** The verdict in terms of the buffer. */
  lemma PositionVerdict(x0: seq<real>, c: seq<real>, z0: real, z1: real, r0: real, r1: real)
    requires |x0| == 4 && |c| == 16 && PositiveDefinite(Flat(c, 4), 4) && r0 > 0.0 && r1 > 0.0
    ensures Outcome(Positions(), x0, Flat(c, 4), true, z0, z1, Pair(r0, r1)).accepted <==>
            Plausible(z0 - x0[0], z1 - x0[1], c[0] + r0, c[1], c[4], c[5] + r1)
  {
    hide Outcome, PositiveDefinite, Plausible;
    PositionAcceptedIff(x0, Flat(c, 4), z0, z1, Pair(r0, r1));
    assert Flat(c, 4)(0, 0) == c[0] && Flat(c, 4)(0, 1) == c[1];
    assert Flat(c, 4)(1, 0) == c[4] && Flat(c, 4)(1, 1) == c[5];
  }

  lemma OutcomeKeepsState(x0: seq<real>, p: Mat, z0: real, z1: real, r: Vec)
    ensures Outcome(Positions(), x0, p, true, z0, z1, r).x == x0
    ensures Invertible(Outcome(Positions(), x0, p, true, z0, z1, r).s) ==>
              Det(Outcome(Positions(), x0, p, true, z0, z1, r).s) != 0.0
  {
  }

  lemma CovEntries(c: seq<real>)
    requires |c| == 16
    ensures forall i :: 0 <= i < 4 ==> Flat(c, 4)(i, 0) == c[i * 4] && Flat(c, 4)(i, 1) == c[i * 4 + 1]
  {
  }

  /** The first position of a filter: accepted or not, the estimate is put where it was measured. */
  method MeasureFirstPosition(filter: KalmanFilter, z0: real, z1: real, r0: real, r1: real) returns (accepted: bool)
    requires filter.Valid() && filter.model == Positions() && !filter.initialized
    requires r0 > 0.0 && r1 > 0.0
    modifies filter`initialized, filter.state, filter.cov
    ensures filter.initialized
    ensures filter.state[..] == [z0, z1, old(filter.state[2]), old(filter.state[3])]
    ensures accepted <==> r0 * r1 >= 0.000000000001
    ensures !accepted ==> filter.cov[..] == old(filter.cov[..])
  {
    hide Outcome, Corrected, Flat, Gain, Joseph, Dot, Gate, PositiveDefinite;
    ghost var x0, p, r := filter.state[..], filter.P(), Pair(r0, r1);
    PositionsAccepted(x0, p, z0, z1, r);
    FirstOutcome(x0, p, z0, z1, r);
    accepted := filter.Update(z0, z1, r0, r1);
    if accepted {
      ghost var o := Outcome(Positions(), x0, p, false, z0, z1, r);
      forall i | 0 <= i < 4 ensures filter.state[i] == o.x[i] {
        ZeroDot(2, o.y, Row(Gain(p, o.h, o.s), i));
        DotCommutes(2, o.y, Row(Gain(p, o.h, o.s), i));
      }
      assert filter.state[..] == o.x;
    }
  }

  lemma FirstOutcome(x0: seq<real>, p: Mat, z0: real, z1: real, r: Vec)
    requires |x0| == 4
    ensures var o := Outcome(Positions(), x0, p, false, z0, z1, r);
      && o.started && o.x == [z0, z1, x0[2], x0[3]] && o.y(0) == 0.0 && o.y(1) == 0.0
      && (Invertible(o.s) ==> Det(o.s) != 0.0)
  {
  }

  // ---- the range-bearing model ----

  /** Away from the origin the Jacobian takes a move along the line of sight to range alone, and
      a move across it to bearing alone. */
  lemma BearingExact(x: real, y: real, r: real)
    requires r > NEAR && r * r == x * x + y * y
    ensures var h := Bearing(x, y, r);
      && h(0, 0) * x + h(0, 1) * y == r && h(1, 0) * x + h(1, 1) * y == 0.0
      && h(0, 0) * -y + h(0, 1) * x == 0.0 && h(1, 0) * -y + h(1, 1) * x == 1.0
      && forall i, j :: 0 <= i < 2 && 2 <= j < 4 ==> h(i, j) == 0.0
  {
    var n := x * x + y * y;
    ProductPositive(r, r);
    var h := Bearing(x, y, r);
    var a, b, c, d := h(0, 0), h(0, 1), h(1, 0), h(1, 1);
    assert a == x / r && b == y / r && c == -y / n && d == x / n;
    LineOfSight(x, y, r, n, a, b, c, d);
  }

  lemma LineOfSight(x: real, y: real, r: real, n: real, a: real, b: real, c: real, d: real)
    requires r > 0.0 && n == r * r == x * x + y * y && n > 0.0
    requires a * r == x && b * r == y && c * n == -y && d * n == x
    ensures a * x + b * y == r && c * x + d * y == 0.0 && a * -y + b * x == 0.0 && c * -y + d * x == 1.0
  {
    assert (a * x + b * y - r) * r == (a * r) * x + (b * r) * y - r * r;
    assert (a * x + b * y - r) * r == 0.0;
    assert (c * x + d * y) * n == (c * n) * x + (d * n) * y;
    assert (c * x + d * y) * n == 0.0;
    assert (a * -y + b * x) * r == (a * r) * -y + (b * r) * x;
    assert (a * -y + b * x) * r == 0.0;
    assert (c * -y + d * x - 1.0) * n == (c * n) * -y + (d * n) * x - n;
    assert (c * -y + d * x - 1.0) * n == 0.0;
  }

  /** The trigonometry the model relies on, at one bearing and one positive range. */
  ghost predicate Polar(f: Functions, range: real, bearing: real) {
    && (forall n :: n == range * range ==> f.root(n) == range)
    && f.cos(bearing) * f.cos(bearing) + f.sin(bearing) * f.sin(bearing) == 1.0
    && forall y, x :: y == range * f.sin(bearing) && x == range * f.cos(bearing) ==> f.angle(y, x) == bearing
  }

  /** A filter started from a range and a bearing predicts just that range and bearing; a range
      that is not positive does not start it. */
  lemma StartMeasures(f: Functions, s: seq<real>, range: real, bearing: real)
    requires |s| == 4
    ensures var m := RangeBearing(f);
      var (ok, x) := m.start(s, range, bearing);
      && (ok <==> range > 0.0) && |x| == 4 && x[2] == s[2] && x[3] == s[3]
      && (range > NEAR && Polar(f, range, bearing) ==> m.h(x) == (range, bearing))
  {
    var c, t := f.cos(bearing), f.sin(bearing);
    var x := RangeBearing(f).start(s, range, bearing).1;
    assert x[0] == range * c && x[1] == range * t;
    assert x[0] * x[0] + x[1] * x[1] == range * range * (c * c + t * t);
    if Polar(f, range, bearing) {
      var n := Norm2(x[0], x[1]);
      assert n == range * range && f.root(n) == range;
      assert x[1] == range * t && x[0] == range * c;
      assert f.angle(x[1], x[0]) == bearing;
      assert range > NEAR ==> RangeBearing(f).h(x) == (range, bearing);
    }
  }
}
