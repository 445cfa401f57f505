/** The covariance algebra of the filter: what prediction and the Joseph form do to a
    symmetric positive definite matrix, whatever the gain. */
module KalmanCovariance {
  import opened Matrices

  /** Process noise, per state entry. */
  function NoiseQ(): Vec {
    i => if i == 0 || i == 1 then 0.01 else 0.1
  }

  /** The constant-velocity transition over dt. */
  function Transition(dt: real): Mat {
    (i, j) => if i == j then 1.0 else if (i == 0 && j == 2) || (i == 1 && j == 3) then dt else 0.0
  }

  /** F P F' + Q. */
  function Predicted(p: Mat, dt: real): Mat {
    Sum(Product(Product(Transition(dt), p, 4), Transposed(Transition(dt)), 4), Diagonal(NoiseQ()))
  }

  /** I - K H, for K of 4 x 2 and H of 2 x 4. */
  function Residual(k: Mat, h: Mat): Mat {
    (i, j) => (if i == j then 1.0 else 0.0) - Product(k, h, 2)(i, j)
  }

  /** (I - K H) P (I - K H)' + K R K'. */
  function Joseph(p: Mat, k: Mat, h: Mat, r: Vec): Mat {
    Sum(Product(Product(Residual(k, h), p, 4), Transposed(Residual(k, h)), 4),
        Product(Product(k, Diagonal(r), 2), Transposed(k), 2))
  }

  lemma SumSymmetric(p: Mat, q: Mat, n: nat)
    requires Symmetric(p, n) && Symmetric(q, n)
    ensures Symmetric(Sum(p, q), n)
  {
  }

  /** Prediction keeps the covariance positive definite, for every dt. */
  lemma PredictKeepsDefinite(p: Mat, dt: real)
    requires PositiveDefinite(p, 4)
    ensures PositiveDefinite(Predicted(p, dt), 4)
  {
    hide Times, Dot, WeightedSquares;
    var f := Transition(dt);
    var fpf := Product(Product(f, p, 4), Transposed(f), 4);
    SandwichSymmetric(f, p, 4, 4);
    SumSymmetric(fpf, Diagonal(NoiseQ()), 4);
    forall v | NonZero(v, 4) ensures Quad(Predicted(p, dt), 4, v) > 0.0 {
      QuadSum(fpf, Diagonal(NoiseQ()), 4, v);
      Sandwich(f, p, 4, 4, v);
      DefiniteNonNegative(p, 4, Apply(Transposed(f), 4, v));
      DiagonalQuad(4, NoiseQ(), v);
      SquaresPositive(4, NoiseQ(), v);
    }
  }

  /** (I - K H)' v = v - H' (K' v). */
  lemma ResidualApply(k: Mat, h: Mat, v: Vec, j: int)
    requires 0 <= j < 4
    ensures Apply(Transposed(Residual(k, h)), 4, v)(j) ==
            v(j) - Apply(Transposed(h), 2, Apply(Transposed(k), 4, v))(j)
  {
    hide Times, Dot;
    var kh := Product(k, h, 2);
    var delta: Vec := i => if i == j then 1.0 else 0.0;
    var minus := Scaled(-1.0, Row(Transposed(kh), j));
    assert forall i {:trigger minus(i)} :: minus(i) == -kh(i, j) by {
      TimesMinusOne();
    }
    DotSame(4, Row(Transposed(Residual(k, h)), j), v, Plus(delta, minus), v);
    DotSum(4, delta, minus, v);
    DotSingle(4, delta, v, j);
    DotScaled(4, -1.0, Row(Transposed(kh), j), v);
    TimesMinusOne();
    ProductTransposedApply(k, h, 2, 4, v, j);
  }

  lemma TimesMinusOne()
    ensures forall x {:trigger Times(-1.0, x)} :: Times(-1.0, x) == -x
    ensures forall x {:trigger Times(1.0, x)} :: Times(1.0, x) == x
  {
  }

  /** v' P+ v splits into the residual part and the noise part. */
  lemma JosephQuad(p: Mat, k: Mat, h: Mat, r: Vec, v: Vec)
    ensures var u := Apply(Transposed(k), 4, v);
      Quad(Joseph(p, k, h, r), 4, v) ==
        Quad(p, 4, Apply(Transposed(Residual(k, h)), 4, v)) + WeightedSquares(2, r, u)
  {
    hide Times, Dot, WeightedSquares;
    var a := Residual(k, h);
    QuadSum(Product(Product(a, p, 4), Transposed(a), 4), Product(Product(k, Diagonal(r), 2), Transposed(k), 2), 4, v);
    Sandwich(a, p, 4, 4, v);
    Sandwich(k, Diagonal(r), 2, 4, v);
    DiagonalQuad(2, r, Apply(Transposed(k), 4, v));
  }

  /** The Joseph form keeps the covariance positive definite for ANY gain. */
  lemma JosephKeepsDefinite(p: Mat, k: Mat, h: Mat, r: Vec)
    requires PositiveDefinite(p, 4) && r(0) > 0.0 && r(1) > 0.0
    ensures PositiveDefinite(Joseph(p, k, h, r), 4)
  {
    hide Times, Dot, WeightedSquares, Residual, Quad;
    var a := Residual(k, h);
    SandwichSymmetric(a, p, 4, 4);
    SandwichSymmetric(k, Diagonal(r), 2, 4);
    SumSymmetric(Product(Product(a, p, 4), Transposed(a), 4), Product(Product(k, Diagonal(r), 2), Transposed(k), 2), 4);
    forall v | NonZero(v, 4) ensures Quad(Joseph(p, k, h, r), 4, v) > 0.0 {
      JosephPositive(p, k, h, r, v);
    }
  }

  lemma JosephPositive(p: Mat, k: Mat, h: Mat, r: Vec, v: Vec)
    requires PositiveDefinite(p, 4) && r(0) > 0.0 && r(1) > 0.0 && NonZero(v, 4)
    ensures Quad(Joseph(p, k, h, r), 4, v) > 0.0
  {
    hide Times, Dot, WeightedSquares, Residual, Quad, Joseph;
    var u, w := Apply(Transposed(k), 4, v), Apply(Transposed(Residual(k, h)), 4, v);
    JosephQuad(p, k, h, r, v);
    SquaresPositive(2, r, u);
    DefiniteNonNegative(p, 4, w);
    if !NonZero(u, 2) {
      var j :| 0 <= j < 4 && v(j) != 0.0;
      ResidualApply(k, h, v, j);
      NothingLost(h, u, j);
      assert w(j) != 0.0;
    }
  }

  lemma NothingLost(h: Mat, u: Vec, j: int)
    requires !NonZero(u, 2)
    ensures Apply(Transposed(h), 2, u)(j) == 0.0
  {
    hide Dot;
    assert forall i :: 0 <= i < 2 ==> u(i) == 0.0;
    ZeroDot(2, u, Row(Transposed(h), j));
    DotCommutes(2, u, Row(Transposed(h), j));
  }

  // ---- every reachable covariance ----

  /** One call of the filter, as far as the covariance goes. */
  datatype CovStep = Predict(dt: real) | Correct(k: Mat, h: Mat, r: Vec) | Reject

  function InitialCov(): Mat {
    Diagonal(i => if i == 0 || i == 1 then 100.0 else 1.0)
  }

  function CovAfter(steps: seq<CovStep>): Mat {
    if steps == [] then InitialCov()
    else
      var p := CovAfter(steps[..|steps| - 1]);
      match steps[|steps| - 1]
      case Predict(dt) => Predicted(p, dt)
      case Correct(k, h, r) => Joseph(p, k, h, r)
      case Reject => p
  }

  lemma {:induction false} ReachableIsDefinite(steps: seq<CovStep>)
    requires forall s :: s in steps && s.Correct? ==> s.r(0) > 0.0 && s.r(1) > 0.0
    ensures PositiveDefinite(CovAfter(steps), 4)
  {
    hide PositiveDefinite, Predicted, Joseph;
    if steps == [] {
      InitialIsDefinite();
    } else {
      ReachableIsDefinite(steps[..|steps| - 1]);
      var p, last := CovAfter(steps[..|steps| - 1]), steps[|steps| - 1];
      assert last in steps;
      match last {
        case Predict(dt) => PredictKeepsDefinite(p, dt);
        case Correct(k, h, r) => JosephKeepsDefinite(p, k, h, r);
        case Reject =>
      }
    }
  }

  lemma InitialIsDefinite()
    ensures PositiveDefinite(InitialCov(), 4)
  {
    hide Times, Dot, WeightedSquares;
    var d: Vec := i => if i == 0 || i == 1 then 100.0 else 1.0;
    forall v | NonZero(v, 4) ensures Quad(InitialCov(), 4, v) > 0.0 {
      DiagonalQuad(4, d, v);
      SquaresPositive(4, d, v);
    }
  }

  // ---- what the gain does to the variance ----

  /** H P H' + R. */
  function Innovation(p: Mat, h: Mat, r: Vec): Mat {
    Sum(Product(Product(h, p, 4), Transposed(h), 4), Diagonal(r))
  }

  lemma MinusSplit(p: Mat, n: nat, v: Vec, x: Vec, w: Vec)
    requires Symmetric(p, n) && forall i :: 0 <= i < n ==> w(i) == v(i) - x(i)
    ensures Quad(p, n, w) == Quad(p, n, v) - 2.0 * Dot(n, x, Apply(p, n, v)) + Quad(p, n, x)
  {
    hide Times, Dot;
    var m := Scaled(-1.0, x);
    TimesMinusOne();
    var pv, px, pm := Apply(p, n, v), Apply(p, n, x), Apply(p, n, m);
    QuadSame(p, p, n, w, Plus(v, m));
    // p (v + m) = p v + p m
    forall i | 0 <= i < n ensures Apply(p, n, Plus(v, m))(i) == Plus(pv, pm)(i) {
      DotCommutes(n, Row(p, i), Plus(v, m));
      DotSum(n, v, m, Row(p, i));
      DotCommutes(n, v, Row(p, i));
      DotCommutes(n, m, Row(p, i));
    }
    DotSame(n, Plus(v, m), Apply(p, n, Plus(v, m)), Plus(v, m), Plus(pv, pm));
    DotSum(n, v, m, Plus(pv, pm));
    Bilinear(n, v, pv, pm);
    Bilinear(n, m, pv, pm);
    // p m = -p x
    forall i | 0 <= i < n ensures pm(i) == Scaled(-1.0, px)(i) {
      DotCommutes(n, Row(p, i), m);
      DotScaled(n, -1.0, x, Row(p, i));
      DotCommutes(n, x, Row(p, i));
    }
    DotSame(n, v, pm, v, Scaled(-1.0, px));
    DotCommutes(n, v, Scaled(-1.0, px));
    DotScaled(n, -1.0, px, v);
    DotSame(n, m, pm, m, Scaled(-1.0, px));
    DotScaled(n, -1.0, x, Scaled(-1.0, px));
    DotCommutes(n, x, Scaled(-1.0, px));
    DotScaled(n, -1.0, px, x);
    DotCommutes(n, px, x);
    DotScaled(n, -1.0, x, pv);
    SymmetricSwap(p, n, x, v);
    DotCommutes(n, v, px);
  }

  lemma Bilinear(n: nat, u: Vec, v: Vec, w: Vec)
    ensures Dot(n, u, Plus(v, w)) == Dot(n, u, v) + Dot(n, u, w)
  {
    hide Times, Dot;
    DotCommutes(n, u, Plus(v, w));
    DotSum(n, v, w, u);
    DotCommutes(n, v, u);
    DotCommutes(n, w, u);
  }

  lemma SymmetricSwap(p: Mat, n: nat, x: Vec, v: Vec)
    requires Symmetric(p, n)
    ensures Dot(n, x, Apply(p, n, v)) == Dot(n, Apply(p, n, x), v)
  {
    hide Times, Dot;
    Adjoint(p, n, n, x, v);
    forall i | 0 <= i < n ensures Apply(Transposed(p), n, x)(i) == Apply(p, n, x)(i) {
      DotSame(n, Row(Transposed(p), i), x, Row(p, i), x);
    }
    DotSame(n, Apply(Transposed(p), n, x), v, Apply(p, n, x), v);
  }

  /** Change of the variance along v: -2 u.(H P v) + u'(H P H')u + u'Ru, with u = K' v. */
  lemma VarianceChange(p: Mat, k: Mat, h: Mat, r: Vec, v: Vec)
    requires Symmetric(p, 4)
    ensures var u := Apply(Transposed(k), 4, v);
      Quad(Joseph(p, k, h, r), 4, v) == Quad(p, 4, v)
        - 2.0 * Dot(2, u, Apply(h, 4, Apply(p, 4, v)))
        + Quad(Product(Product(h, p, 4), Transposed(h), 4), 2, u) + WeightedSquares(2, r, u)
  {
    hide Times, Dot, WeightedSquares, Residual, Quad, Joseph;
    var u := Apply(Transposed(k), 4, v);
    var x := Apply(Transposed(h), 2, u);
    var w := Apply(Transposed(Residual(k, h)), 4, v);
    JosephQuad(p, k, h, r, v);
    forall j | 0 <= j < 4 ensures w(j) == v(j) - x(j) {
      ResidualApply(k, h, v, j);
    }
    MinusSplit(p, 4, v, x, w);
    Adjoint(h, 2, 4, u, Apply(p, 4, v));
    Sandwich(h, p, 4, 2, u);
  }

  /** A gain that solves S (K' v) = H P v for the true S takes u' S u off the variance along v:
      an update with the right gain never increases it. */
  lemma OptimalContracts(p: Mat, k: Mat, h: Mat, r: Vec, v: Vec)
    requires PositiveDefinite(p, 4) && r(0) > 0.0 && r(1) > 0.0
    requires var u := Apply(Transposed(k), 4, v);
      forall i :: 0 <= i < 2 ==> Apply(Innovation(p, h, r), 2, u)(i) == Apply(h, 4, Apply(p, 4, v))(i)
    ensures Quad(Joseph(p, k, h, r), 4, v) <= Quad(p, 4, v)
  {
    hide Times, Dot, WeightedSquares, Quad, Joseph, Innovation;
    var u := Apply(Transposed(k), 4, v);
    VarianceChange(p, k, h, r, v);
    InnovationQuad(p, h, r, u);
    DotSame(2, u, Apply(Innovation(p, h, r), 2, u), u, Apply(h, 4, Apply(p, 4, v)));
    QuadIsDot(Innovation(p, h, r), 2, u);
  }

  lemma QuadIsDot(p: Mat, n: nat, v: Vec)
    ensures Quad(p, n, v) == Dot(n, v, Apply(p, n, v))
  {
  }

  lemma InnovationQuad(p: Mat, h: Mat, r: Vec, u: Vec)
    requires PositiveDefinite(p, 4) && r(0) > 0.0 && r(1) > 0.0
    ensures Quad(Innovation(p, h, r), 2, u) ==
            Quad(Product(Product(h, p, 4), Transposed(h), 4), 2, u) + WeightedSquares(2, r, u)
    ensures Quad(Innovation(p, h, r), 2, u) >= 0.0
  {
    hide Times, Dot, WeightedSquares, Quad;
    QuadSum(Product(Product(h, p, 4), Transposed(h), 4), Diagonal(r), 2, u);
    DiagonalQuad(2, r, u);
    Sandwich(h, p, 4, 2, u);
    DefiniteNonNegative(p, 4, Apply(Transposed(h), 2, u));
    SquaresPositive(2, r, u);
  }
}
