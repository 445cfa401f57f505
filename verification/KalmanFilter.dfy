/** The filter object: matrices in row-major buffers, filled by nested loops. */
module KalmanFilter {
  import opened Arithmetic
  import opened Matrices
  import opened KalmanCovariance
  import opened KalmanGain

  /** A row-major buffer with `cols` columns, read as a matrix. */
  function Flat(s: seq<real>, cols: nat): Mat {
    (i, j) => if 0 <= j < cols && 0 <= i * cols + j < |s| then s[i * cols + j] else 0.0
  }

  lemma SlotInRange(i: nat, j: nat, rows: nat, cols: nat)
    requires i < rows && j < cols
    ensures 0 <= i * cols + j < rows * cols
  {
    MulMonotone(i + 1, rows, cols);
    MulNonNegative(i, cols);
  }

  lemma FlatAt(s: seq<real>, i: nat, j: nat, rows: nat, cols: nat)
    requires i < rows && j < cols && |s| == rows * cols
    ensures 0 <= i * cols + j < |s| && Flat(s, cols)(i, j) == s[i * cols + j]
  {
    SlotInRange(i, j, rows, cols);
  }

  /** The first n slots of c hold the entries of m, row by row. */
  ghost predicate Filled(c: seq<real>, m: Mat, cols: nat, n: nat)
    requires cols > 0
  {
    n <= |c| && forall q :: 0 <= q < n ==> c[q] == m(q / cols, q % cols)
  }

  lemma SlotCoordinates(i: nat, j: nat, cols: nat)
    requires j < cols
    ensures (i * cols + j) / cols == i && (i * cols + j) % cols == j
  {
    DivUnique(i * cols + j, cols, i);
    ModUnique(i * cols + j, cols, i, j);
  }

  lemma FilledIsSame(c: seq<real>, m: Mat, rows: nat, cols: nat)
    requires cols > 0 && |c| == rows * cols && Filled(c, m, cols, rows * cols)
    ensures SameOn(Flat(c, cols), m, rows, cols)
  {
    forall i, j | 0 <= i < rows && 0 <= j < cols ensures Flat(c, cols)(i, j) == m(i, j) {
      FlatAt(c, i, j, rows, cols);
      SlotCoordinates(i, j, cols);
    }
  }

  /** Sum over the inner index of a(i, k) * b(k, j), accumulated from zero. */
  method Accumulate(a: array<real>, b: array<real>, rows: nat, inner: nat, cols: nat, i: nat, j: nat)
    returns (x: real)
    requires a.Length == rows * inner && b.Length == inner * cols && i < rows && j < cols
    ensures x == Product(Flat(a[..], inner), Flat(b[..], cols), inner)(i, j)
  {
    hide Flat;
    ghost var u, v := Row(Flat(a[..], inner), i), Row(Transposed(Flat(b[..], cols)), j);
    x := 0.0;
    for k := 0 to inner
      invariant x == Dot(k, u, v)
    {
      FlatAt(a[..], i, k, rows, inner);
      FlatAt(b[..], k, j, inner, cols);
      x := x + a[i * inner + k] * b[k * cols + j];
    }
  }

  /** The same with the second factor read transposed: a(i, k) * b(j, k). */
  method AccumulateT(a: array<real>, b: array<real>, rows: nat, inner: nat, cols: nat, i: nat, j: nat)
    returns (x: real)
    requires a.Length == rows * inner && b.Length == cols * inner && i < rows && j < cols
    ensures x == Product(Flat(a[..], inner), Transposed(Flat(b[..], inner)), inner)(i, j)
  {
    hide Flat;
    ghost var u, v := Row(Flat(a[..], inner), i), Row(Transposed(Transposed(Flat(b[..], inner))), j);
    x := 0.0;
    for k := 0 to inner
      invariant x == Dot(k, u, v)
    {
      FlatAt(a[..], i, k, rows, inner);
      FlatAt(b[..], j, k, cols, inner);
      x := x + a[i * inner + k] * b[j * inner + k];
    }
  }

  method Multiply(a: array<real>, b: array<real>, rows: nat, inner: nat, cols: nat) returns (c: array<real>)
    requires a.Length == rows * inner && b.Length == inner * cols && cols > 0
    ensures fresh(c) && c.Length == rows * cols
    ensures SameOn(Flat(c[..], cols), Product(Flat(a[..], inner), Flat(b[..], cols), inner), rows, cols)
  {
    hide Product, Flat;
    ghost var m := Product(Flat(a[..], inner), Flat(b[..], cols), inner);
    c := new real[rows * cols](_ => 0.0);
    var q := 0;
    for i := 0 to rows
      invariant fresh(c) && q == i * cols && q <= rows * cols && Filled(c[..], m, cols, q)
    {
      for j := 0 to cols
        invariant fresh(c) && q == i * cols + j && q <= rows * cols && Filled(c[..], m, cols, q)
      {
        SlotInRange(i, j, rows, cols);
        SlotCoordinates(i, j, cols);
        c[q] := Accumulate(a, b, rows, inner, cols, i, j);
        q := q + 1;
      }
    }
    FilledIsSame(c[..], m, rows, cols);
  }

  method MultiplyT(a: array<real>, b: array<real>, rows: nat, inner: nat, cols: nat) returns (c: array<real>)
    requires a.Length == rows * inner && b.Length == cols * inner && cols > 0
    ensures fresh(c) && c.Length == rows * cols
    ensures SameOn(Flat(c[..], cols), Product(Flat(a[..], inner), Transposed(Flat(b[..], inner)), inner), rows, cols)
  {
    hide Product, Flat;
    ghost var m := Product(Flat(a[..], inner), Transposed(Flat(b[..], inner)), inner);
    c := new real[rows * cols](_ => 0.0);
    var q := 0;
    for i := 0 to rows
      invariant fresh(c) && q == i * cols && q <= rows * cols && Filled(c[..], m, cols, q)
    {
      for j := 0 to cols
        invariant fresh(c) && q == i * cols + j && q <= rows * cols && Filled(c[..], m, cols, q)
      {
        SlotInRange(i, j, rows, cols);
        SlotCoordinates(i, j, cols);
        c[q] := AccumulateT(a, b, rows, inner, cols, i, j);
        q := q + 1;
      }
    }
    FilledIsSame(c[..], m, rows, cols);
  }

  /** Fills a buffer from a matrix given entry by entry. */
  method Load(m: Mat, rows: nat, cols: nat) returns (c: array<real>)
    requires cols > 0
    ensures fresh(c) && c.Length == rows * cols && SameOn(Flat(c[..], cols), m, rows, cols)
  {
    hide Flat;
    c := new real[rows * cols](_ => 0.0);
    var q := 0;
    for i := 0 to rows
      invariant fresh(c) && q == i * cols && q <= rows * cols && Filled(c[..], m, cols, q)
    {
      for j := 0 to cols
        invariant fresh(c) && q == i * cols + j && q <= rows * cols && Filled(c[..], m, cols, q)
      {
        SlotInRange(i, j, rows, cols);
        SlotCoordinates(i, j, cols);
        c[q] := m(i, j);
        q := q + 1;
      }
    }
    FilledIsSame(c[..], m, rows, cols);
  }

  /** I - K H, entry by entry. */
  method ResidualMatrix(k: array<real>, h: array<real>) returns (c: array<real>)
    requires k.Length == 8 && h.Length == 8
    ensures fresh(c) && c.Length == 16
    ensures SameOn(Flat(c[..], 4), Residual(Flat(k[..], 2), Flat(h[..], 4)), 4, 4)
  {
    hide Flat, Product;
    ghost var m := Residual(Flat(k[..], 2), Flat(h[..], 4));
    c := new real[16](_ => 0.0);
    for i := 0 to 4
      invariant fresh(c) && Filled(c[..], m, 4, 4 * i)
    {
      for j := 0 to 4
        invariant fresh(c) && Filled(c[..], m, 4, 4 * i + j)
      {
        var x := Accumulate(k, h, 4, 2, 4, i, j);
        SlotCoordinates(i, j, 4);
        c[i * 4 + j] := (if i == j then 1.0 else 0.0) - x;
      }
    }
    FilledIsSame(c[..], m, 4, 4);
  }

  /** The recomputed H P of the first update, accumulator cleared in the innermost loop. */
  method LastProducts(h: array<real>, p: array<real>) returns (c: array<real>)
    requires h.Length == 8 && p.Length == 16
    ensures fresh(c) && c.Length == 8
    ensures SameOn(Flat(c[..], 4), LastProduct(Flat(p[..], 4), Flat(h[..], 4)), 2, 4)
  {
    hide Flat;
    ghost var m := LastProduct(Flat(p[..], 4), Flat(h[..], 4));
    c := new real[8](_ => 0.0);
    for i := 0 to 2
      invariant fresh(c) && Filled(c[..], m, 4, 4 * i)
    {
      for j := 0 to 4
        invariant fresh(c) && Filled(c[..], m, 4, 4 * i + j)
      {
        SlotCoordinates(i, j, 4);
        var x := 0.0;
        for k := 0 to 4
          invariant k > 0 ==> x == h[i * 4 + (k - 1)] * p[(k - 1) * 4 + j]
        {
          x := 0.0;
          x := x + h[i * 4 + k] * p[k * 4 + j];
        }
        FlatAt(h[..], i, 3, 2, 4);
        FlatAt(p[..], 3, j, 4, 4);
        c[i * 4 + j] := x;
      }
    }
    FilledIsSame(c[..], m, 2, 4);
  }

  /** Adds d to the diagonal of an n x n buffer. */
  method AddDiagonal(c: array<real>, n: nat, d: Vec)
    requires c.Length == n * n && n > 0
    modifies c
    ensures SameOn(Flat(c[..], n), Sum(Flat(old(c[..]), n), Diagonal(d)), n, n)
  {
    hide Flat;
    ghost var m := Sum(Flat(c[..], n), Diagonal(d));
    ghost var before := c[..];
    for i := 0 to n
      invariant forall r, s :: 0 <= r < n && 0 <= s < n ==>
        Flat(c[..], n)(r, s) == if r < i then m(r, s) else Flat(before, n)(r, s)
    {
      ghost var was := c[..];
      SlotInRange(i, i, n, n);
      FlatAt(was, i, i, n, n);
      c[i * n + i] := c[i * n + i] + d(i);
      forall r, s | 0 <= r < n && 0 <= s < n
        ensures Flat(c[..], n)(r, s) == if r < i + 1 then m(r, s) else Flat(before, n)(r, s)
      {
        FlatWrite(was, i, i, n, was[i * n + i] + d(i), r, s);
      }
    }
  }

  lemma FlatWrite(s: seq<real>, i: nat, j: nat, n: nat, x: real, r: nat, t: nat)
    requires |s| == n * n && i < n && j < n && r < n && t < n
    ensures 0 <= i * n + j < |s|
    ensures Flat(s[i * n + j := x], n)(r, t) == if r == i && t == j then x else Flat(s, n)(r, t)
  {
    SlotInRange(i, j, n, n);
    FlatAt(s, r, t, n, n);
    FlatAt(s[i * n + j := x], r, t, n, n);
    SlotCoordinates(i, j, n);
    SlotCoordinates(r, t, n);
  }

  /** c += K R K' for a 4 x 2 gain. */
  method AddNoise(c: array<real>, k: array<real>, r: Vec)
    requires c.Length == 16 && k.Length == 8 && c != k
    modifies c
    ensures var km := Flat(k[..], 2);
      SameOn(Flat(c[..], 4), Sum(Flat(old(c[..]), 4), Product(Product(km, Diagonal(r), 2), Transposed(km), 2)), 4, 4)
  {
    hide Flat, Product;
    ghost var before := c[..];
    ghost var km := Flat(k[..], 2);
    ghost var add := Product(Product(km, Diagonal(r), 2), Transposed(km), 2);
    ghost var m := Sum(Flat(before, 4), add);
    for i := 0 to 4
      invariant Filled(c[..], m, 4, 4 * i) && c[4 * i..] == before[4 * i..]
    {
      for j := 0 to 4
        invariant Filled(c[..], m, 4, 4 * i + j) && c[4 * i + j..] == before[4 * i + j..]
      {
        SlotCoordinates(i, j, 4);
        var x := NoiseEntry(k, r, i, j);
        FlatAt(before, i, j, 4, 4);
        assert c[4 * i + j] == before[4 * i + j];
        c[i * 4 + j] := c[i * 4 + j] + x;
      }
    }
    FilledIsSame(c[..], m, 4, 4);
  }

  method NoiseEntry(k: array<real>, r: Vec, i: nat, j: nat) returns (x: real)
    requires k.Length == 8 && i < 4 && j < 4
    ensures var km := Flat(k[..], 2); x == Product(Product(km, Diagonal(r), 2), Transposed(km), 2)(i, j)
  {
    ghost var km := Flat(k[..], 2);
    ghost var kr := Product(km, Diagonal(r), 2);
    ghost var u, v := Row(kr, i), Row(Transposed(Transposed(km)), j);
    x := 0.0;
    for l := 0 to 2
      invariant x == Dot(l, u, v)
    {
      DotCommutes(2, Row(km, i), Row(Transposed(Diagonal(r)), l));
      DotSingle(2, Row(Transposed(Diagonal(r)), l), Row(km, i), l);
      x := x + k[i * 2 + l] * r(l) * k[j * 2 + l];
    }
  }

  // ---- chains of buffers that stand for one expression ----

  lemma SandwichSame(a: Mat, p: Mat, ap: Mat, r: Mat, a': Mat, p': Mat, n: nat, m: nat)
    requires SameOn(a, a', m, n) && SameOn(p, p', n, n)
    requires SameOn(ap, Product(a, p, n), m, n) && SameOn(r, Product(ap, Transposed(a), n), m, m)
    ensures SameOn(r, Product(Product(a', p', n), Transposed(a'), n), m, m)
  {
    hide Product;
    ProductSame(a, p, a', p', m, n, n);
    ProductSame(ap, Transposed(a), Product(a', p', n), Transposed(a'), m, n, m);
  }

  lemma SumSame(p: Mat, q: Mat, d: Mat, n: nat)
    requires SameOn(p, q, n, n)
    ensures SameOn(Sum(p, d), Sum(q, d), n, n)
  {
  }

  lemma SameTransitive(p: Mat, q: Mat, r: Mat, n: nat)
    requires SameOn(p, q, n, n) && SameOn(q, r, n, n)
    ensures SameOn(p, r, n, n)
  {
  }

  /** Joseph depends on its arguments only on their blocks. */
  lemma JosephSame(p: Mat, k: Mat, h: Mat, r: Vec, p': Mat, k': Mat, h': Mat)
    requires SameOn(p, p', 4, 4) && SameOn(k, k', 4, 2) && SameOn(h, h', 2, 4)
    ensures SameOn(Joseph(p, k, h, r), Joseph(p', k', h', r), 4, 4)
  {
    hide Product;
    var a, a' := Residual(k, h), Residual(k', h');
    ProductSame(k, h, k', h', 4, 2, 4);
    assert SameOn(a, a', 4, 4);
    ProductSame(a, p, a', p', 4, 4, 4);
    ProductSame(Product(a, p, 4), Transposed(a), Product(a', p', 4), Transposed(a'), 4, 4, 4);
    ProductSame(k, Diagonal(r), k', Diagonal(r), 4, 2, 2);
    ProductSame(Product(k, Diagonal(r), 2), Transposed(k), Product(k', Diagonal(r), 2), Transposed(k'), 4, 2, 4);
  }

  lemma GainSame(pht: Mat, si: Mat, k: Mat, p: Mat, h: Mat, s: Mat)
    requires Det(s) != 0.0
    requires SameOn(pht, Product(p, Transposed(h), 4), 4, 2) && SameOn(si, Inverse2(s), 2, 2)
    requires SameOn(k, Product(pht, si, 2), 4, 2)
    ensures SameOn(k, Gain(p, h, s), 4, 2)
  {
    hide Product, Inverse2, Det;
    ProductSame(pht, si, Product(p, Transposed(h), 4), Inverse2(s), 4, 2, 2);
  }

  // ---- the filter ----

  function Entries(s: seq<real>): Vec {
    i => if 0 <= i < |s| then s[i] else 0.0
  }

  function Pair(x: real, y: real): Vec {
    i => if i == 0 then x else y
  }

  /** A measurement model: prediction, Jacobian, and how the first measurement sets the state
      (the flag says whether it may). */
  datatype Model = Model(
    h: seq<real> -> (real, real),
    jacobian: seq<real> -> Mat,
    start: (seq<real>, real, real) -> (bool, seq<real>))

  ghost predicate Usable(m: Model) {
    forall s, z0, z1 :: |s| == 4 ==> |m.start(s, z0, z1).1| == 4
  }

  /** Positions measured directly. */
  function Positions(): Model {
    Model(s => if |s| == 4 then (s[0], s[1]) else (0.0, 0.0),
          s => PickXY(),
          (s, z0, z1) => (true, if |s| == 4 then [z0, z1, s[2], s[3]] else s))
  }

  /** |y| <= 3 sqrt(s), on squares: a non-positive s lets everything pass. */
  predicate Gate(y: real, s: real) {
    s <= 0.0 || y * y <= 9.0 * s
  }

  const SINGULAR: real := 0.000000000001

  /** |det S| is large enough to divide by. */
  predicate Invertible(s: Mat) {
    !(-SINGULAR < Det(s) < SINGULAR)
  }

  /** What a measurement leads to: verdict, whether it started the filter, the state, Jacobian,
      innovation covariance and innovation it is judged with. */
  datatype Verdict = Verdict(accepted: bool, started: bool, x: seq<real>, h: Mat, s: Mat, y: Vec)

  ghost function Outcome(m: Model, x0: seq<real>, p: Mat, initialized: bool, z0: real, z1: real, r: Vec): Verdict {
    var (ok, x) := if initialized then (true, x0) else m.start(x0, z0, z1);
    var h := m.jacobian(x);
    var s := if initialized then Innovation(p, h, r) else FirstInnovation(p, h, r);
    var y := Pair(z0 - m.h(x).0, z1 - m.h(x).1);
    Verdict(ok && Gate(y(0), s(0, 0)) && Gate(y(1), s(1, 1)) && Invertible(s), !initialized && ok, x, h, s, y)
  }

  /** The covariance after a call with this verdict. */
  function Corrected(o: Verdict, p: Mat, r: Vec): Mat
    requires o.accepted ==> Invertible(o.s)
  {
    if o.accepted then Joseph(p, Gain(p, o.h, o.s), o.h, r) else p
  }

  class KalmanFilter {
    const model: Model
    const state: array<real>
    const cov: array<real>
    var initialized: bool

    ghost predicate Valid() {
      state.Length == 4 && cov.Length == 16 && state != cov && Usable(model)
    }

    function P(): Mat
      reads cov
    {
      Flat(cov[..], 4)
    }

    constructor (model: Model)
      requires Usable(model)
      ensures Valid() && this.model == model && fresh(state) && fresh(cov)
      ensures (forall i :: 0 <= i < 4 ==> state[i] == 0.0) && !initialized && SameOn(P(), InitialCov(), 4, 4)
      ensures forall i :: 0 <= i < 16 ==>
        cov[i] == if i == 0 || i == 5 then 100.0 else if i == 10 || i == 15 then 1.0 else 0.0
      ensures PositiveDefinite(P(), 4)
    {
      this.model := model;
      state := new real[4];
      cov := new real[16];
      initialized := false;
      new;
      Reset();
    }

    method Reset()
      requires Valid()
      modifies this`initialized, state, cov
      ensures (forall i :: 0 <= i < 4 ==> state[i] == 0.0) && !initialized && SameOn(P(), InitialCov(), 4, 4)
      ensures forall i :: 0 <= i < 16 ==>
        cov[i] == if i == 0 || i == 5 then 100.0 else if i == 10 || i == 15 then 1.0 else 0.0
      ensures PositiveDefinite(P(), 4)
    {
      hide PositiveDefinite, Usable;
      for i := 0 to 4
        invariant forall k :: 0 <= k < i ==> state[k] == 0.0
      {
        state[i] := 0.0;
      }
      for i := 0 to 16
        invariant forall k :: 0 <= k < 4 ==> state[k] == 0.0
        invariant forall k :: 0 <= k < i ==> cov[k] == 0.0
      {
        cov[i] := 0.0;
      }
      cov[0], cov[5], cov[10], cov[15] := 100.0, 100.0, 1.0, 1.0;
      initialized := false;
      InitialIsDefinite();
      DefiniteSame(InitialCov(), P(), 4);
    }

    /** Constant-velocity motion with a known acceleration over dt. */
    method Predict(dt: real, ax: real, ay: real)
      requires Valid()
      modifies state, cov
      ensures SameOn(P(), Predicted(old(P()), dt), 4, 4)
      ensures PositiveDefinite(old(P()), 4) ==> PositiveDefinite(P(), 4)
      ensures state[0] == old(state[0]) + dt * old(state[2]) + 0.5 * dt * dt * ax
      ensures state[1] == old(state[1]) + dt * old(state[3]) + 0.5 * dt * dt * ay
      ensures state[2] == old(state[2]) + dt * ax && state[3] == old(state[3]) + dt * ay
    {
      hide PositiveDefinite, Flat;
      var f := Load(Transition(dt), 4, 4);
      var moved := MoveState(f, dt);
      PredictCov(f, dt);
      ghost var p := cov[..];
      moved[0] := moved[0] + 0.5 * dt * dt * ax;
      moved[1] := moved[1] + 0.5 * dt * dt * ay;
      moved[2] := moved[2] + dt * ax;
      moved[3] := moved[3] + dt * ay;
      ghost var after := moved[..];
      for i := 0 to 4
        invariant cov[..] == p && moved[..] == after
        invariant forall k :: 0 <= k < i ==> state[k] == moved[k]
      {
        state[i] := moved[i];
      }
    }

    /** F x. */
    method MoveState(f: array<real>, dt: real) returns (moved: array<real>)
      requires Valid() && f.Length == 16 && SameOn(Flat(f[..], 4), Transition(dt), 4, 4)
      ensures fresh(moved) && moved.Length == 4
      ensures moved[0] == state[0] + dt * state[2] && moved[1] == state[1] + dt * state[3]
      ensures moved[2] == state[2] && moved[3] == state[3]
    {
      hide Flat, Dot;
      ghost var fm, x := Flat(f[..], 4), Entries(state[..]);
      moved := new real[4](_ => 0.0);
      for i := 0 to 4
        invariant fresh(moved) && forall k :: 0 <= k < i ==> moved[k] == Dot(4, Row(fm, k), x)
      {
        moved[i] := MovedEntry(f, i);
      }
      forall i | 0 <= i < 4 ensures Dot(4, Row(fm, i), x) == Dot(4, Row(Transition(dt), i), x) {
        DotSame(4, Row(fm, i), x, Row(Transition(dt), i), x);
      }
      TransitionApply(dt, x);
    }

    method MovedEntry(f: array<real>, i: nat) returns (x: real)
      requires Valid() && f.Length == 16 && i < 4
      ensures x == Dot(4, Row(Flat(f[..], 4), i), Entries(state[..]))
    {
      x := 0.0;
      for j := 0 to 4
        invariant x == Dot(j, Row(Flat(f[..], 4), i), Entries(state[..]))
      {
        FlatAt(f[..], i, j, 4, 4);
        x := x + f[i * 4 + j] * state[j];
      }
    }

    method PredictCov(f: array<real>, dt: real)
      requires Valid() && f.Length == 16 && f != cov && SameOn(Flat(f[..], 4), Transition(dt), 4, 4)
      modifies cov
      ensures SameOn(P(), Predicted(old(P()), dt), 4, 4)
      ensures PositiveDefinite(old(P()), 4) ==> PositiveDefinite(P(), 4)
    {
      hide PositiveDefinite, Flat, Product;
      ghost var p0 := P();
      var fp := Multiply(f, cov, 4, 4, 4);
      var fpf := MultiplyT(fp, f, 4, 4, 4);
      SandwichSame(Flat(f[..], 4), p0, Flat(fp[..], 4), Flat(fpf[..], 4), Transition(dt), p0, 4, 4);
      ghost var fpfSpec := Product(Product(Transition(dt), p0, 4), Transposed(Transition(dt)), 4);
      Store(fpf);
      AddDiagonal(cov, 4, NoiseQ());
      SumSame(Flat(fpf[..], 4), fpfSpec, Diagonal(NoiseQ()), 4);
      SameTransitive(P(), Sum(Flat(fpf[..], 4), Diagonal(NoiseQ())), Predicted(p0, dt), 4);
      if PositiveDefinite(p0, 4) {
        PredictKeepsDefinite(p0, dt);
        SameSymmetric(P(), Predicted(p0, dt), 4);
        DefiniteSame(Predicted(p0, dt), P(), 4);
      }
    }

    /** cov takes the contents of c. */
    method Store(c: array<real>)
      requires Valid() && c.Length == 16 && c != cov
      modifies cov
      ensures cov[..] == c[..]
    {
      for i := 0 to 16
        invariant forall k :: 0 <= k < i ==> cov[k] == c[k]
      {
        cov[i] := c[i];
      }
    }

    // ---- the update ----

    /** H P H' + R from the buffers; hm is what the buffer h holds. */
    method InnovationOf(h: array<real>, ghost hm: Mat, r: Vec) returns (s: array<real>)
      requires Valid() && h.Length == 8 && SameOn(Flat(h[..], 4), hm, 2, 4)
      ensures fresh(s) && s.Length == 4 && SameOn(Flat(s[..], 2), Innovation(P(), hm, r), 2, 2)
    {
      hide Flat, Product, Usable;
      ghost var p := P();
      var hp := Multiply(h, cov, 2, 4, 4);
      s := MultiplyT(hp, h, 2, 4, 2);
      ghost var bare := Flat(s[..], 2);
      ProductSame(Flat(h[..], 4), p, hm, p, 2, 4, 4);
      ProductSame(Flat(hp[..], 4), Transposed(Flat(h[..], 4)), Product(hm, p, 4), Transposed(hm), 2, 4, 2);
      AddDiagonal(s, 2, r);
      SumSame(bare, Product(Product(hm, p, 4), Transposed(hm), 4), Diagonal(r), 2);
    }

    /** The recomputation of the first update. */
    method FirstInnovationOf(h: array<real>, ghost hm: Mat, r: Vec) returns (s: array<real>)
      requires Valid() && h.Length == 8 && SameOn(Flat(h[..], 4), hm, 2, 4)
      ensures fresh(s) && s.Length == 4 && SameOn(Flat(s[..], 2), FirstInnovation(P(), hm, r), 2, 2)
    {
      hide Flat, Product, Usable;
      ghost var p := P();
      var hp := LastProducts(h, cov);
      s := MultiplyT(hp, h, 2, 4, 2);
      ProductSame(Flat(hp[..], 4), Transposed(Flat(h[..], 4)), LastProduct(p, hm), Transposed(hm), 2, 4, 2);
      AddDiagonal(s, 2, r);
    }

    /** K = P H' S^-1; nothing if S is numerically singular. */
    method GainOf(h: array<real>, ghost hm: Mat, s: array<real>, ghost sm: Mat) returns (ok: bool, k: array<real>)
      requires Valid() && h.Length == 8 && SameOn(Flat(h[..], 4), hm, 2, 4)
      requires s.Length == 4 && SameOn(Flat(s[..], 2), sm, 2, 2)
      ensures ok <==> Invertible(sm)
      ensures fresh(k) && k.Length == 8
      ensures ok ==> SameOn(Flat(k[..], 2), Gain(P(), hm, sm), 4, 2)
    {
      hide Flat, Product, Usable, Inverse2;
      FourEntries(s[..], sm);
      var pht := MultiplyT(cov, h, 4, 4, 2);
      ProductSame(P(), Transposed(Flat(h[..], 4)), P(), Transposed(hm), 4, 4, 2);
      k := new real[8](_ => 0.0);
      var det := s[0] * s[3] - s[1] * s[2];
      if -SINGULAR < det < SINGULAR { return false, k; }
      var si := Invert(s, det, sm);
      k := Multiply(pht, si, 4, 2, 2);
      GainSame(Flat(pht[..], 2), Flat(si[..], 2), Flat(k[..], 2), P(), hm, sm);
      ok := true;
    }

    method Invert(s: array<real>, det: real, ghost sm: Mat) returns (si: array<real>)
      requires s.Length == 4 && SameOn(Flat(s[..], 2), sm, 2, 2) && det == Det(sm) != 0.0
      ensures fresh(si) && si.Length == 4 && SameOn(Flat(si[..], 2), Inverse2(sm), 2, 2)
    {
      hide Flat, Inverse2, Det;
      FourEntries(s[..], sm);
      var s0, s1, s2, s3, inv := s[0], s[1], s[2], s[3], 1.0 / det;
      var a, b, c, d := s3 * inv, -s1 * inv, -s2 * inv, s0 * inv;
      InverseEntries(s0, s1, s2, s3, inv, sm);
      si := new real[4](_ => 0.0);
      si[0], si[1], si[2], si[3] := a, b, c, d;
      FourSame(si[..], Inverse2(sm));
    }

    method JosephUpdate(k: array<real>, h: array<real>, r: Vec)
      requires Valid() && k.Length == 8 && h.Length == 8 && k != cov && h != cov
      modifies cov
      ensures SameOn(P(), Joseph(old(P()), Flat(k[..], 2), Flat(h[..], 4), r), 4, 4)
    {
      hide Flat, Product;
      ghost var p, km, hm := P(), Flat(k[..], 2), Flat(h[..], 4);
      var ikh := ResidualMatrix(k, h);
      var temp := Multiply(ikh, cov, 4, 4, 4);
      var next := MultiplyT(temp, ikh, 4, 4, 4);
      SandwichSame(Flat(ikh[..], 4), p, Flat(temp[..], 4), Flat(next[..], 4), Residual(km, hm), p, 4, 4);
      ghost var bare := Flat(next[..], 4);
      ghost var noise := Product(Product(km, Diagonal(r), 2), Transposed(km), 2);
      AddNoise(next, k, r);
      SumSame(bare, Product(Product(Residual(km, hm), p, 4), Transposed(Residual(km, hm)), 4), noise, 4);
      SameTransitive(Flat(next[..], 4), Sum(bare, noise), Joseph(p, km, hm, r), 4);
      Store(next);
    }

    /** x += K y. */
    method Correct(k: array<real>, y: Vec)
      requires Valid() && k.Length == 8 && k != state
      modifies state
      ensures forall i :: 0 <= i < 4 ==> state[i] == old(state[i]) + Dot(2, Row(Flat(k[..], 2), i), y)
    {
      hide Usable;
      for i := 0 to 4
        invariant forall m :: 0 <= m < i ==> state[m] == old(state[m]) + Dot(2, Row(Flat(k[..], 2), m), y)
        invariant forall m :: i <= m < 4 ==> state[m] == old(state[m])
      {
        CorrectEntry(k, y, i);
      }
    }

    method CorrectEntry(k: array<real>, y: Vec, i: nat)
      requires Valid() && k.Length == 8 && k != state && i < 4
      modifies state
      ensures state[i] == old(state[i]) + Dot(2, Row(Flat(k[..], 2), i), y)
      ensures forall m :: 0 <= m < 4 && m != i ==> state[m] == old(state[m])
    {
      hide Usable;
      for j := 0 to 2
        invariant state[i] == old(state[i]) + Dot(j, Row(Flat(k[..], 2), i), y)
        invariant forall m :: 0 <= m < 4 && m != i ==> state[m] == old(state[m])
      {
        FlatAt(k[..], i, j, 4, 2);
        state[i] := state[i] + k[i * 2 + j] * y(j);
      }
    }

    /** One measurement. The state it is linearised at, the innovation covariance that is
        used (on the first update the recomputed one), and the verdict are as in `Outcome`. */
    method Update(z0: real, z1: real, r0: real, r1: real) returns (accepted: bool)
      requires Valid()
      modifies this`initialized, state, cov
      ensures var o := Outcome(model, old(state[..]), old(P()), old(initialized), z0, z1, Pair(r0, r1));
        && accepted == o.accepted && initialized == (old(initialized) || o.started)
        && (if accepted then
              Invertible(o.s)
              && SameOn(P(), Corrected(o, old(P()), Pair(r0, r1)), 4, 4)
              && forall i :: 0 <= i < 4 ==>
                   state[i] == o.x[i] + Dot(2, Row(Gain(old(P()), o.h, o.s), i), o.y)
            else state[..] == o.x && cov[..] == old(cov[..]))
      ensures PositiveDefinite(old(P()), 4) && r0 > 0.0 && r1 > 0.0 ==> PositiveDefinite(P(), 4)
    {
      hide Flat, Product, PositiveDefinite, Innovation, FirstInnovation, Joseph, Gain, Gate, Invertible, Dot, SameOn;
      var r := Pair(r0, r1);
      ghost var p := P();
      ghost var o := Outcome(model, state[..], p, initialized, z0, z1, r);
      var first := !initialized;
      if first {
        var (ok, x) := model.start(state[..], z0, z1);
        SetState(x);
        if !ok { return false; }
        initialized := true;
      }
      assert state[..] == o.x;
      var (h0, h1) := model.h(state[..]);
      var y := Pair(z0 - h0, z1 - h1);
      var h := Load(model.jacobian(state[..]), 2, 4);
      var s;
      if first {
        s := FirstInnovationOf(h, o.h, r);
      } else {
        s := InnovationOf(h, o.h, r);
      }
      SameDiagonal(s[..], o.s);
      if !Gate(y(0), s[0]) || !Gate(y(1), s[3]) { return false; }
      var ok, k := GainOf(h, o.h, s, o.s);
      if !ok { return false; }
      CorrectAll(k, h, y, r, o);
      accepted := true;
    }

    method SetState(x: seq<real>)
      requires Valid() && |x| == 4
      modifies state
      ensures state[..] == x
    {
      for i := 0 to 4
        invariant forall k :: 0 <= k < i ==> state[k] == x[k]
      {
        state[i] := x[i];
      }
    }

    /** Steps 7 and 8 of the update. */
    method CorrectAll(k: array<real>, h: array<real>, y: Vec, r: Vec, ghost o: Verdict)
      requires Valid() && k.Length == 8 && h.Length == 8 && Invertible(o.s)
      requires k != state && k != cov && h != cov && h != state
      requires SameOn(Flat(k[..], 2), Gain(P(), o.h, o.s), 4, 2) && SameOn(Flat(h[..], 4), o.h, 2, 4)
      modifies state, cov
      ensures forall i :: 0 <= i < 4 ==>
        state[i] == old(state[i]) + Dot(2, Row(Gain(old(P()), o.h, o.s), i), y)
      ensures SameOn(P(), Joseph(old(P()), Gain(old(P()), o.h, o.s), o.h, r), 4, 4)
      ensures PositiveDefinite(old(P()), 4) && r(0) > 0.0 && r(1) > 0.0 ==> PositiveDefinite(P(), 4)
    {
      hide Flat, Product, PositiveDefinite, Usable, Joseph, Gain, Dot;
      ghost var p, km, hm, gain := P(), Flat(k[..], 2), Flat(h[..], 4), Gain(P(), o.h, o.s);
      Correct(k, y);
      JosephUpdate(k, h, r);
      forall i | 0 <= i < 4 ensures Dot(2, Row(km, i), y) == Dot(2, Row(gain, i), y) {
        DotSame(2, Row(km, i), y, Row(gain, i), y);
      }
      JosephSame(p, km, hm, r, p, gain, o.h);
      SameTransitive(P(), Joseph(p, km, hm, r), Joseph(p, gain, o.h, r), 4);
      if PositiveDefinite(p, 4) && r(0) > 0.0 && r(1) > 0.0 {
        JosephKeepsDefinite(p, gain, o.h, r);
        SameSymmetric(P(), Joseph(p, gain, o.h, r), 4);
        DefiniteSame(Joseph(p, gain, o.h, r), P(), 4);
      }
    }
  }

  lemma FourEntries(s: seq<real>, m: Mat)
    requires |s| == 4 && SameOn(Flat(s, 2), m, 2, 2)
    ensures s[0] == m(0, 0) && s[1] == m(0, 1) && s[2] == m(1, 0) && s[3] == m(1, 1)
  {
    assert Flat(s, 2)(0, 0) == m(0, 0) && Flat(s, 2)(0, 1) == m(0, 1);
    assert Flat(s, 2)(1, 0) == m(1, 0) && Flat(s, 2)(1, 1) == m(1, 1);
  }

  lemma SameDiagonal(s: seq<real>, m: Mat)
    requires |s| == 4 && SameOn(Flat(s, 2), m, 2, 2)
    ensures s[0] == m(0, 0) && s[3] == m(1, 1)
  {
    FourEntries(s, m);
  }

  lemma FourSame(s: seq<real>, m: Mat)
    requires |s| == 4 && s[0] == m(0, 0) && s[1] == m(0, 1) && s[2] == m(1, 0) && s[3] == m(1, 1)
    ensures SameOn(Flat(s, 2), m, 2, 2)
  {
  }

  lemma InverseEntries(s0: real, s1: real, s2: real, s3: real, inv: real, m: Mat)
    requires s0 == m(0, 0) && s1 == m(0, 1) && s2 == m(1, 0) && s3 == m(1, 1)
    requires Det(m) != 0.0 && inv == 1.0 / Det(m)
    ensures Inverse2(m)(0, 0) == s3 * inv && Inverse2(m)(0, 1) == -s1 * inv
    ensures Inverse2(m)(1, 0) == -s2 * inv && Inverse2(m)(1, 1) == s0 * inv
  {
  }

  lemma SameSymmetric(p: Mat, q: Mat, n: nat)
    requires SameOn(p, q, n, n)
    ensures SameOn(q, p, n, n)
  {
  }

  lemma Dot4(u: Vec, v: Vec)
    ensures Dot(4, u, v) == u(0) * v(0) + u(1) * v(1) + u(2) * v(2) + u(3) * v(3)
  {
    assert Dot(3, u, v) == Dot(2, u, v) + Times(u(2), v(2));
    Dot2(u, v);
  }

  lemma TransitionApply(dt: real, x: Vec)
    ensures Dot(4, Row(Transition(dt), 0), x) == x(0) + dt * x(2)
    ensures Dot(4, Row(Transition(dt), 1), x) == x(1) + dt * x(3)
    ensures Dot(4, Row(Transition(dt), 2), x) == x(2)
    ensures Dot(4, Row(Transition(dt), 3), x) == x(3)
  {
    hide Dot, Times;
    Dot4(Row(Transition(dt), 0), x);
    Dot4(Row(Transition(dt), 1), x);
    Dot4(Row(Transition(dt), 2), x);
    Dot4(Row(Transition(dt), 3), x);
  }
}
