/** Finite vectors and matrices over the reals, as functions of their indices. */
module Matrices {
  import opened Arithmetic

  type Vec = int -> real
  type Mat = (int, int) -> real

  function Times(a: real, b: real): real {
    a * b
  }

  /** The inner product of the first n entries. */
  function Dot(n: nat, u: Vec, v: Vec): real {
    if n == 0 then 0.0 else Dot(n - 1, u, v) + Times(u(n - 1), v(n - 1))
  }

  function Row(m: Mat, i: int): Vec {
    j => m(i, j)
  }

  function Transposed(m: Mat): Mat {
    (i, j) => m(j, i)
  }

  /** Matrix times vector, over n columns. */
  function Apply(m: Mat, n: nat, v: Vec): Vec {
    i => Dot(n, Row(m, i), v)
  }

  /** Matrix product over the inner dimension n. */
  function Product(a: Mat, b: Mat, n: nat): Mat {
    (i, j) => Dot(n, Row(a, i), Row(Transposed(b), j))
  }

  function Plus(u: Vec, v: Vec): Vec {
    i => u(i) + v(i)
  }

  function Scaled(c: real, v: Vec): Vec {
    i => Times(c, v(i))
  }

  function Sum(a: Mat, b: Mat): Mat {
    (i, j) => a(i, j) + b(i, j)
  }

  function Diagonal(d: Vec): Mat {
    (i, j) => if i == j then d(i) else 0.0
  }

  function Quad(p: Mat, n: nat, v: Vec): real {
    Dot(n, v, Apply(p, n, v))
  }

  // ---- inner products ----

  lemma {:induction false} DotSame(n: nat, u: Vec, v: Vec, u': Vec, v': Vec)
    requires forall i :: 0 <= i < n ==> u(i) == u'(i) && v(i) == v'(i)
    ensures Dot(n, u, v) == Dot(n, u', v')
  {
    if n > 0 {
      DotSame(n - 1, u, v, u', v');
    }
  }

  lemma {:induction false} DotCommutes(n: nat, u: Vec, v: Vec)
    ensures Dot(n, u, v) == Dot(n, v, u)
  {
    if n > 0 {
      DotCommutes(n - 1, u, v);
    }
  }

  lemma TimesSum(a: real, b: real, c: real)
    ensures Times(a + b, c) == Times(a, c) + Times(b, c)
    ensures Times(c, a + b) == Times(c, a) + Times(c, b)
  {
  }

  lemma TimesAssociates(a: real, b: real, c: real)
    ensures Times(Times(a, b), c) == Times(a, Times(b, c))
  {
  }

  lemma {:induction false} DotSum(n: nat, u: Vec, v: Vec, w: Vec)
    ensures Dot(n, Plus(u, v), w) == Dot(n, u, w) + Dot(n, v, w)
  {
    hide Times;
    if n > 0 {
      DotSum(n - 1, u, v, w);
      TimesSum(u(n - 1), v(n - 1), w(n - 1));
    }
  }

  lemma {:induction false} DotScaled(n: nat, c: real, u: Vec, v: Vec)
    ensures Dot(n, Scaled(c, u), v) == Times(c, Dot(n, u, v))
  {
    hide Times;
    if n > 0 {
      DotScaled(n - 1, c, u, v);
      TimesAssociates(c, u(n - 1), v(n - 1));
      TimesSum(Dot(n - 1, u, v), Times(u(n - 1), v(n - 1)), c);
    } else {
      TimesZero(c);
    }
  }

  lemma TimesZero(c: real)
    ensures Times(c, 0.0) == 0.0 && Times(0.0, c) == 0.0
  {
  }

  /** Moving a matrix of r rows and c columns across the inner product transposes it. */
  lemma {:induction false} Adjoint(m: Mat, r: nat, c: nat, u: Vec, v: Vec)
    ensures Dot(r, u, Apply(m, c, v)) == Dot(c, Apply(Transposed(m), r, u), v)
  {
    hide Times;
    if r == 0 {
      ZeroDot(c, Apply(Transposed(m), 0, u), v);
    } else {
      Adjoint(m, r - 1, c, u, v);
      var before := Apply(Transposed(m), r - 1, u);
      var last := Scaled(u(r - 1), Row(m, r - 1));
      DotSum(c, before, last, v);
      DotScaled(c, u(r - 1), Row(m, r - 1), v);
      forall j | 0 <= j < c ensures Apply(Transposed(m), r, u)(j) == Plus(before, last)(j) {
        TimesCommutes(m(r - 1, j), u(r - 1));
      }
      DotSame(c, Apply(Transposed(m), r, u), v, Plus(before, last), v);
    }
  }

  lemma TimesCommutes(a: real, b: real)
    ensures Times(a, b) == Times(b, a)
  {
  }

  lemma {:induction false} ZeroDot(n: nat, u: Vec, v: Vec)
    requires forall i :: 0 <= i < n ==> u(i) == 0.0
    ensures Dot(n, u, v) == 0.0
  {
    if n > 0 {
      ZeroDot(n - 1, u, v);
      TimesZero(v(n - 1));
    }
  }

  /** (A B) v = A (B v), entry by entry. */
  lemma ProductApply(a: Mat, b: Mat, n: nat, m: nat, v: Vec, i: int)
    ensures Apply(Product(a, b, n), m, v)(i) == Apply(a, n, Apply(b, m, v))(i)
  {
    hide Times;
    var row := Apply(Transposed(b), n, Row(a, i));
    forall j | 0 <= j < m ensures Row(Product(a, b, n), i)(j) == row(j) {
      DotCommutes(n, Row(a, i), Row(Transposed(b), j));
    }
    DotSame(m, Row(Product(a, b, n), i), v, row, v);
    Adjoint(b, n, m, Row(a, i), v);
  }

  /** (A B)' v = B' (A' v), entry by entry, for A of m rows and inner dimension n. */
  lemma ProductTransposedApply(a: Mat, b: Mat, n: nat, m: nat, v: Vec, j: int)
    ensures Apply(Transposed(Product(a, b, n)), m, v)(j) == Apply(Transposed(b), n, Apply(Transposed(a), m, v))(j)
  {
    hide Times, Dot;
    var ab, ba := Transposed(Product(a, b, n)), Product(Transposed(b), Transposed(a), n);
    forall i | 0 <= i < m ensures Row(ab, j)(i) == Row(ba, j)(i) {
      DotCommutes(n, Row(a, i), Row(Transposed(b), j));
      DotSame(n, Row(Transposed(b), j), Row(a, i), Row(Transposed(b), j), Row(Transposed(Transposed(a)), i));
    }
    DotSame(m, Row(ab, j), v, Row(ba, j), v);
    ProductApply(Transposed(b), Transposed(a), n, m, v, j);
  }

  /** v' (A P A') v = (A' v)' P (A' v), for A of m rows and n columns. */
  lemma Sandwich(a: Mat, p: Mat, n: nat, m: nat, v: Vec)
    ensures Quad(Product(Product(a, p, n), Transposed(a), n), m, v) == Quad(p, n, Apply(Transposed(a), m, v))
  {
    hide Times;
    var w := Apply(Transposed(a), m, v);
    var apat := Product(Product(a, p, n), Transposed(a), n);
    forall i | 0 <= i < m ensures Apply(apat, m, v)(i) == Apply(a, n, Apply(p, n, w))(i) {
      ProductApply(Product(a, p, n), Transposed(a), n, m, v, i);
      ProductApply(a, p, n, n, w, i);
    }
    DotSame(m, v, Apply(apat, m, v), v, Apply(a, n, Apply(p, n, w)));
    Adjoint(a, m, n, v, Apply(p, n, w));
  }

  lemma QuadSum(p: Mat, q: Mat, n: nat, v: Vec)
    ensures Quad(Sum(p, q), n, v) == Quad(p, n, v) + Quad(q, n, v)
  {
    hide Times;
    var pv, qv := Apply(p, n, v), Apply(q, n, v);
    forall i | 0 <= i < n ensures Apply(Sum(p, q), n, v)(i) == Plus(pv, qv)(i) {
      DotSum(n, Row(p, i), Row(q, i), v);
      DotSame(n, Row(Sum(p, q), i), v, Plus(Row(p, i), Row(q, i)), v);
    }
    DotSame(n, v, Apply(Sum(p, q), n, v), v, Plus(pv, qv));
    DotCommutes(n, v, Plus(pv, qv));
    DotSum(n, pv, qv, v);
    DotCommutes(n, v, pv);
    DotCommutes(n, v, qv);
  }

  // ---- symmetry and definiteness ----

  ghost predicate Symmetric(p: Mat, n: nat) {
    forall i, j :: 0 <= i < n && 0 <= j < n ==> p(i, j) == p(j, i)
  }

  ghost predicate NonZero(v: Vec, n: nat) {
    exists i :: 0 <= i < n && v(i) != 0.0
  }

  ghost predicate PositiveDefinite(p: Mat, n: nat) {
    Symmetric(p, n) && forall v :: NonZero(v, n) ==> Quad(p, n, v) > 0.0
  }

  /** Quad reads only the leading n x n block and the first n entries. */
  lemma QuadSame(p: Mat, q: Mat, n: nat, u: Vec, v: Vec)
    requires forall i, j :: 0 <= i < n && 0 <= j < n ==> p(i, j) == q(i, j)
    requires forall i :: 0 <= i < n ==> u(i) == v(i)
    ensures Quad(p, n, u) == Quad(q, n, v)
  {
    forall i | 0 <= i < n ensures Apply(p, n, u)(i) == Apply(q, n, v)(i) {
      DotSame(n, Row(p, i), u, Row(q, i), v);
    }
    DotSame(n, u, Apply(p, n, u), v, Apply(q, n, v));
  }

  lemma ZeroQuad(p: Mat, n: nat, v: Vec)
    requires !NonZero(v, n)
    ensures Quad(p, n, v) == 0.0
  {
    forall i | 0 <= i < n ensures v(i) == 0.0 {
    }
    ZeroDot(n, v, Apply(p, n, v));
  }

  lemma DefiniteNonNegative(p: Mat, n: nat, v: Vec)
    requires PositiveDefinite(p, n)
    ensures Quad(p, n, v) >= 0.0
  {
    if !NonZero(v, n) {
      ZeroQuad(p, n, v);
    }
  }

  /** A P A' is symmetric with P. */
  lemma SandwichSymmetric(a: Mat, p: Mat, n: nat, m: nat)
    requires Symmetric(p, n)
    ensures Symmetric(Product(Product(a, p, n), Transposed(a), n), m)
  {
    hide Times;
    var r := Product(Product(a, p, n), Transposed(a), n);
    forall i, j | 0 <= i < m && 0 <= j < m ensures r(i, j) == r(j, i) {
      SandwichEntry(a, p, n, i, j);
      SandwichEntry(a, p, n, j, i);
      Adjoint(p, n, n, Row(a, i), Row(a, j));
      forall k | 0 <= k < n ensures Apply(Transposed(p), n, Row(a, i))(k) == Apply(p, n, Row(a, i))(k) {
        DotSame(n, Row(Transposed(p), k), Row(a, i), Row(p, k), Row(a, i));
      }
      DotSame(n, Apply(Transposed(p), n, Row(a, i)), Row(a, j), Apply(p, n, Row(a, i)), Row(a, j));
      DotCommutes(n, Apply(p, n, Row(a, i)), Row(a, j));
    }
  }

  lemma SandwichEntry(a: Mat, p: Mat, n: nat, i: int, j: int)
    ensures Product(Product(a, p, n), Transposed(a), n)(i, j) == Dot(n, Row(a, i), Apply(p, n, Row(a, j)))
  {
    hide Times;
    var row := Row(Product(a, p, n), i);
    DotSame(n, row, Row(Transposed(Transposed(a)), j), row, Row(a, j));
    ProductApply(a, p, n, n, Row(a, j), i);
  }

  // ---- diagonal matrices ----

  function WeightedSquares(n: nat, d: Vec, v: Vec): real {
    if n == 0 then 0.0 else WeightedSquares(n - 1, d, v) + Times(d(n - 1), Times(v(n - 1), v(n - 1)))
  }

  lemma {:induction false} DotSingle(n: nat, u: Vec, v: Vec, i: int)
    requires forall k :: 0 <= k < n && k != i ==> u(k) == 0.0
    ensures Dot(n, u, v) == if 0 <= i < n then Times(u(i), v(i)) else 0.0
  {
    if n > 0 {
      DotSingle(n - 1, u, v, i);
      TimesZero(v(n - 1));
    }
  }

  lemma {:induction false} DiagonalQuad(n: nat, d: Vec, v: Vec)
    ensures Quad(Diagonal(d), n, v) == WeightedSquares(n, d, v)
  {
    hide Times;
    var scaled: Vec := i => Times(d(i), v(i));
    forall i | 0 <= i < n ensures Apply(Diagonal(d), n, v)(i) == scaled(i) {
      DotSingle(n, Row(Diagonal(d), i), v, i);
    }
    DotSame(n, v, Apply(Diagonal(d), n, v), v, scaled);
    SquaresAsDot(n, d, v);
  }

  lemma {:induction false} SquaresAsDot(n: nat, d: Vec, v: Vec)
    ensures Dot(n, v, i => Times(d(i), v(i))) == WeightedSquares(n, d, v)
  {
    hide Times;
    if n > 0 {
      SquaresAsDot(n - 1, d, v);
      TimesAssociates(d(n - 1), v(n - 1), v(n - 1));
      TimesCommutes(v(n - 1), Times(d(n - 1), v(n - 1)));
    }
  }

  lemma TimesPositive(a: real, b: real)
    requires a >= 0.0 && b >= 0.0
    ensures Times(a, b) >= 0.0
    ensures a > 0.0 && b > 0.0 ==> Times(a, b) > 0.0
  {
    ProductNonNegative(a, b);
    if a > 0.0 && b > 0.0 {
      ProductPositive(a, b);
    }
  }

  lemma SquareTimes(x: real)
    ensures Times(x, x) >= 0.0
    ensures x != 0.0 ==> Times(x, x) > 0.0
  {
    var a := if x < 0.0 then -x else x;
    assert a * a == x * x;
    if x != 0.0 {
      SquareLess(0.0, a);
    }
  }

  lemma SquarePositive(d: real, x: real)
    requires d > 0.0
    ensures Times(d, Times(x, x)) >= 0.0
    ensures x != 0.0 ==> Times(d, Times(x, x)) > 0.0
  {
    hide Times;
    SquareTimes(x);
    TimesPositive(d, Times(x, x));
  }

  lemma {:induction false} SquaresPositive(n: nat, d: Vec, v: Vec)
    requires forall i :: 0 <= i < n ==> d(i) > 0.0
    ensures WeightedSquares(n, d, v) >= 0.0
    ensures NonZero(v, n) ==> WeightedSquares(n, d, v) > 0.0
  {
    hide Times;
    if n > 0 {
      SquaresPositive(n - 1, d, v);
      SquarePositive(d(n - 1), v(n - 1));
    }
  }

  // ---- matrices that agree on a block ----

  ghost predicate SameOn(p: Mat, q: Mat, rows: nat, cols: nat) {
    forall i, j :: 0 <= i < rows && 0 <= j < cols ==> p(i, j) == q(i, j)
  }

  lemma ProductSame(a: Mat, b: Mat, a': Mat, b': Mat, rows: nat, n: nat, cols: nat)
    requires SameOn(a, a', rows, n) && SameOn(b, b', n, cols)
    ensures SameOn(Product(a, b, n), Product(a', b', n), rows, cols)
  {
    hide Times;
    forall i, j | 0 <= i < rows && 0 <= j < cols ensures Product(a, b, n)(i, j) == Product(a', b', n)(i, j) {
      DotSame(n, Row(a, i), Row(Transposed(b), j), Row(a', i), Row(Transposed(b'), j));
    }
  }

  lemma DefiniteSame(p: Mat, q: Mat, n: nat)
    requires PositiveDefinite(p, n) && SameOn(p, q, n, n)
    ensures PositiveDefinite(q, n)
  {
    forall v | NonZero(v, n) ensures Quad(q, n, v) > 0.0 {
      QuadSame(p, q, n, v, v);
    }
  }
}
