/** The first update of the filter, whose gain is computed from an incomplete product. */
module KalmanFirstUpdate {
  import opened Arithmetic
  import opened Matrices
  import opened KalmanCovariance
  import opened KalmanGain
  import opened KalmanFilter

  // ---- the measurement models ----

  function PlanarDet(h: Mat): real {
    h(0, 0) * h(1, 1) - h(0, 1) * h(1, 0)
  }

  /** Nothing is measured through the last state entry, and the position is either seen
      along two independent directions or not at all. */
  ghost predicate Planar(h: Mat) {
    && h(0, 3) == 0.0 && h(1, 3) == 0.0
    && (PlanarDet(h) != 0.0 || SameOn(h, (i, j) => 0.0, 2, 4))
  }

  ghost predicate PlanarModel(m: Model) {
    Usable(m) && forall s :: |s| == 4 ==> Planar(m.jacobian(s))
  }

  /** The square root and the trigonometry the range-bearing model calls. */
  datatype Functions = Functions(
    root: real -> real,
    angle: (real, real) -> real,
    cos: real -> real,
    sin: real -> real)
  {
    ghost predicate Valid() {
      forall t :: t >= 0.0 ==> root(t) >= 0.0 && root(t) * root(t) == t
    }
  }

  const NEAR: real := 0.000000001

  /** The Jacobian at (x, y), where r is the distance from the origin (so r > NEAR alone
      keeps the denominators from zero). */
  function Bearing(x: real, y: real, r: real): Mat {
    (i, j) =>
      if r <= NEAR || x * x + y * y == 0.0 then 0.0
      else if i == 0 && j == 0 then x / r
      else if i == 0 && j == 1 then y / r
      else if i == 1 && j == 0 then -y / (x * x + y * y)
      else if i == 1 && j == 1 then x / (x * x + y * y)
      else 0.0
  }

  function BearingAt(f: Functions, s: seq<real>): Mat {
    if |s| == 4 then Bearing(s[0], s[1], f.root(s[0] * s[0] + s[1] * s[1])) else Bearing(0.0, 0.0, 0.0)
  }

  function Norm2(x: real, y: real): real {
    x * x + y * y
  }

  function SeenFrom(f: Functions, s: seq<real>): (real, real) {
    if |s| != 4 then (0.0, 0.0)
    else
      var r := f.root(Norm2(s[0], s[1]));
      (r, if r > NEAR then f.angle(s[1], s[0]) else 0.0)
  }

  /** Range and bearing from the origin. */
  function RangeBearing(f: Functions): Model {
    Model(
      s => SeenFrom(f, s),
      s => BearingAt(f, s),
      (s, z0, z1) => (z0 > 0.0, if |s| == 4 then [z0 * f.cos(z1), z0 * f.sin(z1), s[2], s[3]] else s))
  }

  lemma PositionsArePlanar()
    ensures PlanarModel(Positions())
  {
  }

  lemma BearingIsPlanar(x: real, y: real, r: real)
    requires r >= 0.0 && r * r == x * x + y * y
    ensures Planar(Bearing(x, y, r))
  {
    if r > NEAR {
      var n := x * x + y * y;
      ProductPositive(r, r);
      var h := Bearing(x, y, r);
      assert h(0, 0) == x / r && h(0, 1) == y / r && h(1, 0) == -y / n && h(1, 1) == x / n;
      DetTimes(x, y, r, n, h(0, 0), h(0, 1), h(1, 0), h(1, 1));
    }
  }

  /** The Jacobian's determinant is 1 / r. */
  lemma DetTimes(x: real, y: real, r: real, n: real, a: real, b: real, c: real, d: real)
    requires r > 0.0 && n > 0.0 && n == x * x + y * y
    requires a * r == x && b * r == y && c * n == -y && d * n == x
    ensures a * d - b * c != 0.0
  {
    assert (a * d - b * c) * (r * n) == (a * r) * (d * n) - (b * r) * (c * n);
    var xr, yr, xn, yn := a * r, b * r, d * n, c * n;
    assert xr * xn == x * x && yr * yn == -(y * y);
  }

  lemma RangeBearingIsPlanar(f: Functions)
    requires f.Valid()
    ensures PlanarModel(RangeBearing(f))
  {
    hide Planar, BearingAt;
    forall s: seq<real> | |s| == 4 ensures Planar(RangeBearing(f).jacobian(s)) {
      BearingAtIsPlanar(f, s);
    }
  }

  lemma BearingAtIsPlanar(f: Functions, s: seq<real>)
    requires f.Valid() && |s| == 4
    ensures Planar(BearingAt(f, s))
  {
    hide Planar, Bearing;
    SquareSum(s[0], s[1]);
    BearingIsPlanar(s[0], s[1], f.root(s[0] * s[0] + s[1] * s[1]));
  }

  lemma SquareSum(x: real, y: real)
    ensures x * x + y * y >= 0.0
  {
  }

  // ---- the first gain ----

  /** For a planar model the first S is the bare measurement noise. */
  lemma FirstIsNoise(p: Mat, h: Mat, r: Vec)
    requires h(0, 3) == 0.0 && h(1, 3) == 0.0
    ensures SameOn(FirstInnovation(p, h, r), Diagonal(r), 2, 2)
    ensures Det(FirstInnovation(p, h, r)) == r(0) * r(1)
  {
    hide Dot, Times;
    var m := LastProduct(p, h);
    forall i, j | 0 <= i < 2 && 0 <= j < 2 ensures Product(m, Transposed(h), 4)(i, j) == 0.0 {
      forall k | 0 <= k < 4 ensures Row(m, i)(k) == 0.0 {
        TimesZero(p(3, k));
      }
      ZeroDot(4, Row(m, i), Row(Transposed(Transposed(h)), j));
    }
  }

  function FirstGain(p: Mat, h: Mat, r: Vec): Mat
    requires r(0) > 0.0 && r(1) > 0.0 && h(0, 3) == 0.0 && h(1, 3) == 0.0
  {
    FirstIsNoise(p, h, r);
    ProductPositive(r(0), r(1));
    Gain(p, h, FirstInnovation(p, h, r))
  }

  /** With S = R the gain weighs H P v by 1 / r. */
  lemma FirstGainApply(p: Mat, h: Mat, r: Vec, v: Vec, i: int)
    requires Symmetric(p, 4) && r(0) > 0.0 && r(1) > 0.0 && 0 <= i < 2
    requires h(0, 3) == 0.0 && h(1, 3) == 0.0
    ensures Times(r(i), Apply(Transposed(FirstGain(p, h, r)), 4, v)(i)) == Apply(h, 4, Apply(p, 4, v))(i)
  {
    hide Dot, Times, FirstInnovation, Inverse2;
    FirstIsNoise(p, h, r);
    ProductPositive(r(0), r(1));
    var s := FirstInnovation(p, h, r);
    var x := Apply(h, 4, Apply(p, 4, v));
    var u, w := Apply(Transposed(FirstGain(p, h, r)), 4, v), Apply(Transposed(Inverse2(s)), 2, x);
    GainApply(p, h, s, v, 0);
    GainApply(p, h, s, v, 1);
    InverseSolves(s, x, i);
    DotSame(2, Row(s, i), w, Row(Diagonal(r), i), u);
    DotSingle(2, Row(Diagonal(r), i), u, i);
  }

  /** H P H'. */
  function Block(p: Mat, h: Mat): Mat {
    Product(Product(h, p, 4), Transposed(h), 4)
  }

  /** The first update changes the variance along v by u'(H P H')u - u'Ru, u = R^-1 H P v. */
  lemma FirstChange(p: Mat, h: Mat, r: Vec, v: Vec)
    requires Symmetric(p, 4) && r(0) > 0.0 && r(1) > 0.0 && h(0, 3) == 0.0 && h(1, 3) == 0.0
    ensures var u := Apply(Transposed(FirstGain(p, h, r)), 4, v);
      Quad(Joseph(p, FirstGain(p, h, r), h, r), 4, v) == Quad(p, 4, v)
        + Quad(Block(p, h), 2, u) - WeightedSquares(2, r, u)
  {
    hide Dot, Times, FirstGain, Joseph, Quad, WeightedSquares;
    var k := FirstGain(p, h, r);
    var u, x := Apply(Transposed(k), 4, v), Apply(h, 4, Apply(p, 4, v));
    VarianceChange(p, k, h, r, v);
    var ru: Vec := i => Times(r(i), u(i));
    forall i | 0 <= i < 2 ensures x(i) == ru(i) {
      FirstGainApply(p, h, r, v, i);
    }
    DotSame(2, u, x, u, ru);
    SquaresAsDot(2, r, u);
  }

  // ---- when the first update increases no variance ----

  /** H' s, on the two position entries. */
  lemma PlanarApply(h: Mat, s: Vec, j: int)
    requires 0 <= j < 2
    ensures Apply(Transposed(h), 2, s)(j) == h(0, j) * s(0) + h(1, j) * s(1)
  {
    Dot2(Row(Transposed(h), j), s);
  }

  /** Two independent directions lose no combination of the measurements. */
  lemma NothingHidden(a: real, b: real, c: real, d: real, x: real, y: real)
    requires a * x + c * y == 0.0 && b * x + d * y == 0.0 && a * d - b * c != 0.0
    ensures x == 0.0 && y == 0.0
  {
    assert x * (a * d - b * c) == d * (a * x + c * y) - c * (b * x + d * y);
    assert y * (a * d - b * c) == a * (b * x + d * y) - b * (a * x + c * y);
  }

  lemma BlockDefinite(p: Mat, h: Mat)
    requires PositiveDefinite(p, 4) && PlanarDet(h) != 0.0
    ensures PositiveDefinite(Block(p, h), 2)
  {
    hide Dot, Times, Quad;
    SandwichSymmetric(h, p, 4, 2);
    forall s | NonZero(s, 2) ensures Quad(Block(p, h), 2, s) > 0.0 {
      Sandwich(h, p, 4, 2, s);
      var w := Apply(Transposed(h), 2, s);
      PlanarApply(h, s, 0);
      PlanarApply(h, s, 1);
      if w(0) == 0.0 && w(1) == 0.0 {
        NothingHidden(h(0, 0), h(0, 1), h(1, 0), h(1, 1), s(0), s(1));
      }
      assert NonZero(w, 4);
    }
  }

  lemma Quad2(m: Mat, v: Vec)
    ensures Quad(m, 2, v) == v(0) * (m(0, 0) * v(0) + m(0, 1) * v(1)) + v(1) * (m(1, 0) * v(0) + m(1, 1) * v(1))
  {
    hide Dot, Times;
    Dot2(Row(m, 0), v);
    Dot2(Row(m, 1), v);
    Dot2(v, Apply(m, 2, v));
  }

  lemma DefiniteHasDet(m: Mat)
    requires PositiveDefinite(m, 2)
    ensures Det(m) != 0.0 && m(0, 1) == m(1, 0)
  {
    hide Dot, Times, Quad;
    var e: Vec := i => if i == 0 then 1.0 else 0.0;
    Quad2(m, e);
    assert NonZero(e, 2) by { assert e(0) != 0.0; }
    assert m(0, 0) > 0.0;
    var v: Vec := i => if i == 0 then -m(0, 1) else m(0, 0);
    Quad2(m, v);
    assert NonZero(v, 2) by { assert v(1) != 0.0; }
    CrossTerm(m(0, 0), m(0, 1), m(1, 0), m(1, 1));
  }

  lemma CrossTerm(a: real, b: real, c: real, d: real)
    ensures -b * (a * -b + b * a) + a * (c * -b + d * a) == a * (a * d - b * c)
  {
  }

  /** Some direction whose image under the first gain is any given u. */
  lemma ReachDirection(p: Mat, h: Mat, r: Vec, u: Vec) returns (v: Vec)
    requires PositiveDefinite(p, 4) && r(0) > 0.0 && r(1) > 0.0
    requires h(0, 3) == 0.0 && h(1, 3) == 0.0 && PlanarDet(h) != 0.0
    ensures forall i :: 0 <= i < 2 ==> Apply(Transposed(FirstGain(p, h, r)), 4, v)(i) == u(i)
  {
    hide Dot, Times, FirstGain, Quad, Inverse2, Det, PositiveDefinite, PlanarDet;
    var m := Block(p, h);
    BlockDefinite(p, h);
    DefiniteHasDet(m);
    var y: Vec := i => Times(r(i), u(i));
    var s := Apply(Transposed(Inverse2(m)), 2, y);
    v := Apply(Transposed(h), 2, s);
    IsSymmetric(p);
    forall i | 0 <= i < 2 ensures Apply(Transposed(FirstGain(p, h, r)), 4, v)(i) == u(i) {
      InverseSolves(m, y, i);
      ProductApply(Product(h, p, 4), Transposed(h), 4, 2, s, i);
      ProductApply(h, p, 4, 4, v, i);
      FirstGainApply(p, h, r, v, i);
      TimesCancels(r(i), Apply(Transposed(FirstGain(p, h, r)), 4, v)(i), u(i));
    }
  }

  lemma IsSymmetric(p: Mat)
    requires PositiveDefinite(p, 4)
    ensures Symmetric(p, 4)
  {
  }

  lemma TimesCancels(r: real, a: real, b: real)
    requires r > 0.0 && Times(r, a) == Times(r, b)
    ensures a == b
  {
    assert r * (a - b) == 0.0;
  }

  lemma SquaresSame(r: Vec, u: Vec, v: Vec)
    requires forall i :: 0 <= i < 2 ==> u(i) == v(i)
    ensures WeightedSquares(2, r, u) == WeightedSquares(2, r, v)
  {
    hide Times;
    assert u(0) == v(0) && u(1) == v(1);
    assert WeightedSquares(1, r, u) == WeightedSquares(1, r, v);
  }

  ghost predicate NoneIncreased(before: Mat, after: Mat) {
    forall v :: Quad(after, 4, v) <= Quad(before, 4, v)
  }

  /** What is measured is at most as uncertain as the measurement. */
  ghost predicate WithinNoise(p: Mat, h: Mat, r: Vec) {
    forall u :: Quad(Block(p, h), 2, u) <= WeightedSquares(2, r, u)
  }

  /** Where nothing is measured, H P H' is zero. */
  lemma BlindBlock(p: Mat, h: Mat, r: Vec)
    requires SameOn(h, (i, j) => 0.0, 2, 4) && r(0) > 0.0 && r(1) > 0.0
    ensures WithinNoise(p, h, r)
  {
    hide Dot, Times, WeightedSquares;
    forall u ensures Quad(Block(p, h), 2, u) <= WeightedSquares(2, r, u) {
      Sandwich(h, p, 4, 2, u);
      var w := Apply(Transposed(h), 2, u);
      forall j | 0 <= j < 4 ensures w(j) == 0.0 {
        ZeroDot(2, Row(Transposed(h), j), u);
      }
      ZeroQuad(p, 4, w);
      SquaresPositive(2, r, u);
    }
  }

  /** For a planar Jacobian the first gain increases no variance exactly if H P H' is at
      most the measurement noise. */
  lemma FirstGainIff(p: Mat, h: Mat, r: Vec)
    requires PositiveDefinite(p, 4) && r(0) > 0.0 && r(1) > 0.0 && Planar(h)
    ensures NoneIncreased(p, Joseph(p, FirstGain(p, h, r), h, r)) <==> WithinNoise(p, h, r)
  {
    hide Dot, Times, FirstGain, Joseph, Quad, WeightedSquares, Block, PositiveDefinite;
    IsSymmetric(p);
    var j := Joseph(p, FirstGain(p, h, r), h, r);
    if WithinNoise(p, h, r) {
      forall v ensures Quad(j, 4, v) <= Quad(p, 4, v) {
        FirstChange(p, h, r, v);
      }
    }
    if NoneIncreased(p, j) {
      if PlanarDet(h) != 0.0 {
        forall u ensures Quad(Block(p, h), 2, u) <= WeightedSquares(2, r, u) {
          ReachedWithin(p, h, r, u);
        }
      } else {
        BlindBlock(p, h, r);
      }
    }
  }

  lemma ReachedWithin(p: Mat, h: Mat, r: Vec, u: Vec)
    requires PositiveDefinite(p, 4) && r(0) > 0.0 && r(1) > 0.0
    requires h(0, 3) == 0.0 && h(1, 3) == 0.0 && PlanarDet(h) != 0.0
    requires NoneIncreased(p, Joseph(p, FirstGain(p, h, r), h, r))
    ensures Quad(Block(p, h), 2, u) <= WeightedSquares(2, r, u)
  {
    hide Dot, Times, FirstGain, Joseph, Quad, WeightedSquares, Block, PositiveDefinite, PlanarDet;
    IsSymmetric(p);
    var v := ReachDirection(p, h, r, u);
    FirstChange(p, h, r, v);
    var j := Joseph(p, FirstGain(p, h, r), h, r);
    assert Quad(j, 4, v) <= Quad(p, 4, v);
    var w := Apply(Transposed(FirstGain(p, h, r)), 4, v);
    QuadSame(Block(p, h), Block(p, h), 2, w, u);
    SquaresSame(r, w, u);
  }

  // ---- the first call ----

  /** A planar model accepts a first measurement exactly if the model can start from it, its
      innovation passes the gate set by the noise alone, and the noise can be divided by. */
  lemma FirstAccepted(m: Model, x0: seq<real>, p: Mat, z0: real, z1: real, r: Vec)
    requires PlanarModel(m) && |x0| == 4 && r(0) > 0.0 && r(1) > 0.0
    ensures var o := Outcome(m, x0, p, false, z0, z1, r);
      && Planar(o.h) && o.s == FirstInnovation(p, o.h, r)
      && (o.accepted <==> o.started && Gate(o.y(0), r(0)) && Gate(o.y(1), r(1)) && r(0) * r(1) >= SINGULAR)
  {
    hide FirstInnovation, Planar, Det, Gate;
    var o := Outcome(m, x0, p, false, z0, z1, r);
    assert |o.x| == 4;
    assert Planar(o.h);
    PlanarColumn(o.h);
    FirstIsNoise(p, o.h, r);
    ProductPositive(r(0), r(1));
  }

  lemma PlanarColumn(h: Mat)
    requires Planar(h)
    ensures h(0, 3) == 0.0 && h(1, 3) == 0.0
  {
  }

  /** The first call increases no variance exactly if it is refused or what it measures is at
      most as uncertain as the measurement. */
  lemma FirstUpdateIff(m: Model, x0: seq<real>, p: Mat, z0: real, z1: real, r: Vec)
    requires PlanarModel(m) && |x0| == 4 && PositiveDefinite(p, 4) && r(0) > 0.0 && r(1) > 0.0
    ensures var o := Outcome(m, x0, p, false, z0, z1, r);
      (o.accepted ==> Invertible(o.s)) &&
      (NoneIncreased(p, Corrected(o, p, r)) <==> !o.accepted || WithinNoise(p, o.h, r))
  {
    hide FirstInnovation, Planar, Det, Gate, Joseph, Quad, PositiveDefinite, WithinNoise, Gain;
    FirstAccepted(m, x0, p, z0, z1, r);
    var o := Outcome(m, x0, p, false, z0, z1, r);
    PlanarColumn(o.h);
    FirstGainIff(p, o.h, r);
  }

  // ---- position measurements ----

  /** A position is refused only for noise too small to divide by: its innovation is zero. */
  lemma PositionsAccepted(x0: seq<real>, p: Mat, z0: real, z1: real, r: Vec)
    requires |x0| == 4 && r(0) > 0.0 && r(1) > 0.0
    ensures var o := Outcome(Positions(), x0, p, false, z0, z1, r);
      o.h == PickXY() && (o.accepted <==> r(0) * r(1) >= SINGULAR)
  {
    hide FirstInnovation, Planar, Det;
    PositionsArePlanar();
    FirstAccepted(Positions(), x0, p, z0, z1, r);
  }

  /** The first position update increases no variance exactly if its noise is too small to be
      accepted, or at least the position covariance. */
  lemma FirstPositionIff(x0: seq<real>, p: Mat, z0: real, z1: real, r: Vec)
    requires |x0| == 4 && PositiveDefinite(p, 4) && r(0) > 0.0 && r(1) > 0.0
    ensures var o := Outcome(Positions(), x0, p, false, z0, z1, r);
      (o.accepted ==> Invertible(o.s)) &&
      (NoneIncreased(p, Corrected(o, p, r)) <==> r(0) * r(1) < SINGULAR || WithinNoise(p, PickXY(), r))
  {
    hide *;
    PositionsArePlanar();
    PositionsAccepted(x0, p, z0, z1, r);
    FirstUpdateIff(Positions(), x0, p, z0, z1, r);
  }

  // ---- a filter fresh from reset ----

  function Unit(i: int): Vec {
    k => if k == i then 1.0 else 0.0
  }

  lemma EntryAsQuad(p: Mat, n: nat, i: int)
    requires 0 <= i < n
    ensures Quad(p, n, Unit(i)) == p(i, i)
    ensures forall k :: Apply(p, n, Unit(i))(k) == p(k, i)
  {
    hide Dot, Times;
    TimesMinusOne();
    forall k ensures Apply(p, n, Unit(i))(k) == p(k, i) {
      DotCommutes(n, Row(p, k), Unit(i));
      DotSingle(n, Unit(i), Row(p, k), i);
    }
    DotSingle(n, Unit(i), Apply(p, n, Unit(i)), i);
  }

  function InitialVariance(): Vec {
    i => if i == 0 || i == 1 then 100.0 else 1.0
  }

  lemma PickTransposed(s: Vec, i: int)
    requires 0 <= i < 2
    ensures Apply(Transposed(PickXY()), 2, s)(i) == s(i)
  {
    hide Dot, Times;
    DotSingle(2, Row(Transposed(PickXY()), i), s, i);
    TimesMinusOne();
  }

  lemma FreshBlockQuad(u: Vec)
    ensures Quad(Block(InitialCov(), PickXY()), 2, u) == 100.0 * Times(u(0), u(0)) + 100.0 * Times(u(1), u(1))
  {
    hide Dot, Times;
    var w := Apply(Transposed(PickXY()), 2, u);
    Sandwich(PickXY(), InitialCov(), 4, 2, u);
    DiagonalQuad(4, InitialVariance(), w);
    QuadSame(InitialCov(), Diagonal(InitialVariance()), 4, w, w);
    PickTransposed(u, 0);
    PickTransposed(u, 1);
    DotSingle(2, Row(Transposed(PickXY()), 2), u, 2);
    DotSingle(2, Row(Transposed(PickXY()), 3), u, 3);
    SquaresOf4(InitialVariance(), w);
    TimesZero(0.0);
    TimesZero(1.0);
    TimesIsProduct(100.0, Times(u(0), u(0)));
    TimesIsProduct(100.0, Times(u(1), u(1)));
  }

  lemma TimesIsProduct(a: real, b: real)
    ensures Times(a, b) == a * b
  {
  }

  lemma SquaresOf4(d: Vec, w: Vec)
    ensures WeightedSquares(4, d, w) == WeightedSquares(2, d, w)
      + Times(d(2), Times(w(2), w(2))) + Times(d(3), Times(w(3), w(3)))
    ensures WeightedSquares(2, d, w) == Times(d(0), Times(w(0), w(0))) + Times(d(1), Times(w(1), w(1)))
  {
    hide Times;
    assert WeightedSquares(3, d, w) == WeightedSquares(2, d, w) + Times(d(2), Times(w(2), w(2)));
    assert WeightedSquares(1, d, w) == Times(d(0), Times(w(0), w(0)));
  }

  lemma ScaleCompare(a: real, b: real, s: real)
    requires s >= 0.0 && a <= b
    ensures a * s <= Times(b, s)
  {
    ScaleLess(a, b, s);
  }

  lemma NoiseAbove100(r: Vec)
    ensures (forall u :: Quad(Block(InitialCov(), PickXY()), 2, u) <= WeightedSquares(2, r, u)) <==>
            r(0) >= 100.0 && r(1) >= 100.0
  {
    hide Dot, Times, Quad, WeightedSquares, Block, InitialCov;
    TimesMinusOne();
    if r(0) >= 100.0 && r(1) >= 100.0 {
      forall u ensures Quad(Block(InitialCov(), PickXY()), 2, u) <= WeightedSquares(2, r, u) {
        FreshBlockQuad(u);
        SquaresOf4(r, u);
        SquareTimes(u(0));
        SquareTimes(u(1));
        ScaleCompare(100.0, r(0), Times(u(0), u(0)));
        ScaleCompare(100.0, r(1), Times(u(1), u(1)));
      }
    }
    forall i | 0 <= i < 2
      ensures Quad(Block(InitialCov(), PickXY()), 2, Unit(i)) == 100.0 && WeightedSquares(2, r, Unit(i)) == r(i)
    {
      FreshBlockQuad(Unit(i));
      SquaresOf4(r, Unit(i));
      TimesZero(0.0);
      TimesZero(r(0));
      TimesZero(r(1));
      TimesIsProduct(r(i), 1.0);
    }
  }

  lemma FreshWithin(p: Mat, r: Vec)
    requires SameOn(p, InitialCov(), 4, 4)
    ensures WithinNoise(p, PickXY(), r) <==> r(0) >= 100.0 && r(1) >= 100.0
  {
    hide Dot, Times, Quad, WeightedSquares, InitialCov;
    NoiseAbove100(r);
    forall u ensures Quad(Block(p, PickXY()), 2, u) == Quad(Block(InitialCov(), PickXY()), 2, u) {
      BlockSame(p, InitialCov(), u);
    }
  }

  lemma BlockSame(p: Mat, q: Mat, u: Vec)
    requires SameOn(p, q, 4, 4)
    ensures Quad(Block(p, PickXY()), 2, u) == Quad(Block(q, PickXY()), 2, u)
  {
    hide Dot, Times;
    var w := Apply(Transposed(PickXY()), 2, u);
    Sandwich(PickXY(), p, 4, 2, u);
    Sandwich(PickXY(), q, 4, 2, u);
    QuadSame(p, q, 4, w, w);
  }

  /** On a filter fresh from reset the first position update increases no variance exactly if
      the noise is too small to be accepted or at least 100 on each axis. */
  lemma FreshFirstUpdateIff(x0: seq<real>, p: Mat, z0: real, z1: real, r: Vec)
    requires |x0| == 4 && PositiveDefinite(p, 4) && SameOn(p, InitialCov(), 4, 4) && r(0) > 0.0 && r(1) > 0.0
    ensures var o := Outcome(Positions(), x0, p, false, z0, z1, r);
      (o.accepted ==> Invertible(o.s)) &&
      (NoneIncreased(p, Corrected(o, p, r)) <==> r(0) * r(1) < SINGULAR || (r(0) >= 100.0 && r(1) >= 100.0))
  {
    hide *;
    FirstPositionIff(x0, p, z0, z1, r);
    FreshWithin(p, r);
  }

  /** The gain of a fresh filter turns the first axis into 100 / 0.1. */
  lemma FreshGain(p: Mat, r: Vec)
    requires PositiveDefinite(p, 4) && SameOn(p, InitialCov(), 4, 4) && r(0) == 0.1 && r(1) == 0.1
    ensures var u := Apply(Transposed(FirstGain(p, PickXY(), r)), 4, Unit(0)); u(0) == 1000.0 && u(1) == 0.0
  {
    hide Dot, Times, Quad, FirstGain;
    IsSymmetric(p);
    EntryAsQuad(p, 4, 0);
    var u, x := Apply(Transposed(FirstGain(p, PickXY(), r)), 4, Unit(0)), Apply(p, 4, Unit(0));
    forall i | 0 <= i < 2 ensures Times(0.1, u(i)) == x(i) {
      FirstGainApply(p, PickXY(), r, Unit(0), i);
      DotSingle(4, Row(PickXY(), i), x, i);
      TimesMinusOne();
    }
    TimesIsProduct(0.1, u(0));
    TimesIsProduct(0.1, u(1));
  }

  lemma FreshJoseph(p: Mat, r: Vec)
    requires PositiveDefinite(p, 4) && SameOn(p, InitialCov(), 4, 4) && r(0) == 0.1 && r(1) == 0.1
    ensures Joseph(p, FirstGain(p, PickXY(), r), PickXY(), r)(0, 0) == 99900100.0
  {
    hide Dot, Times, Quad, WeightedSquares, Block, FirstGain, Joseph, PositiveDefinite;
    var j := Joseph(p, FirstGain(p, PickXY(), r), PickXY(), r);
    var u := Apply(Transposed(FirstGain(p, PickXY(), r)), 4, Unit(0));
    IsSymmetric(p);
    EntryAsQuad(j, 4, 0);
    EntryAsQuad(p, 4, 0);
    FirstChange(p, PickXY(), r, Unit(0));
    BlockSame(p, InitialCov(), u);
    FreshBlockQuad(u);
    SquaresOf4(r, u);
    FreshGain(p, r);
    TimesIsProduct(1000.0, 1000.0);
    TimesZero(0.0);
    TimesIsProduct(0.1, 1000000.0);
    TimesZero(0.1);
  }

  /** With the default noise 0.1 the first position is accepted and takes the position variance
      from 100 to 99 900 100. */
  lemma FreshJump(x0: seq<real>, p: Mat, z0: real, z1: real, r: Vec)
    requires |x0| == 4 && PositiveDefinite(p, 4) && SameOn(p, InitialCov(), 4, 4) && r(0) == 0.1 && r(1) == 0.1
    ensures var o := Outcome(Positions(), x0, p, false, z0, z1, r);
      o.accepted && Invertible(o.s) && Corrected(o, p, r)(0, 0) == 99900100.0
  {
    hide Joseph, FirstInnovation, Planar, Det, Gate, PositiveDefinite, Gain;
    PositionsArePlanar();
    PositionsAccepted(x0, p, z0, z1, r);
    FirstAccepted(Positions(), x0, p, z0, z1, r);
    FreshJoseph(p, r);
  }

  /** The same through the object: a fresh position filter and its convenience update. */
  method FirstDefaultUpdate(z0: real, z1: real) returns (filter: KalmanFilter, accepted: bool)
    ensures fresh(filter) && filter.Valid() && accepted && filter.P()(0, 0) == 99900100.0
  {
    hide Outcome, Corrected, PositiveDefinite, Flat, InitialCov;
    filter := new KalmanFilter(Positions());
    FreshJump(filter.state[..], filter.P(), z0, z1, Pair(0.1, 0.1));
    accepted := filter.Update(z0, z1, 0.1, 0.1);
  }

  /** A noise too small to divide by: the call is refused and the covariance stays. */
  method FirstTinyUpdate(filter: KalmanFilter, z0: real, z1: real, r0: real, r1: real) returns (accepted: bool)
    requires filter.Valid() && filter.model == Positions() && !filter.initialized
    requires r0 > 0.0 && r1 > 0.0 && r0 * r1 < SINGULAR
    modifies filter`initialized, filter.state, filter.cov
    ensures !accepted && filter.cov[..] == old(filter.cov[..])
  {
    hide Outcome, Corrected, PositiveDefinite, Flat;
    PositionsAccepted(filter.state[..], filter.P(), z0, z1, Pair(r0, r1));
    accepted := filter.Update(z0, z1, r0, r1);
  }
}
