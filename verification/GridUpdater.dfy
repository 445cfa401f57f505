/** Inflation: an obstacle cell raises the cost of everything near it. */
module GridUpdater {
  import opened Arithmetic
  import opened Grids
  import opened OccupancyGrids
  import opened GridPaths

  /** Radii in metres; decay gives the cost beyond the inscribed radius from the
      squared distance in cells (the exponential kernel, truncated to a byte). */
  datatype Params = Params(inscribed: real, inflation: real, resolution: real, decay: nat -> Cost) {
    ghost predicate Valid() {
      resolution > 0.0 && forall n :: decay(n) < INSCRIBED
    }

    predicate Within(d2: nat, radius: real) {
      radius >= 0.0 && d2 as real * (resolution * resolution) <= radius * radius
    }

    /** The cost an obstacle at squared distance d2 puts on a cell. */
    function Kernel(d2: nat): Cost {
      if d2 == 0 then LETHAL
      else if !Within(d2, inflation) then FREE
      else if Within(d2, inscribed) then INSCRIBED
      else decay(d2)
    }

    /** The robot may not stand on o nor within the smaller radius of it. */
    predicate Blocks(o: Cell, c: Cell) {
      o == c || (Within(Dist2(c, o), inflation) && Within(Dist2(c, o), inscribed))
    }
  }

  // ---- what inflation does to the whole field ----

  /** The field raised pointwise to at least f. */
  function Raised(g: Grid, f: Cell -> Cost): (r: Grid)
    ensures r.width == g.width && r.height == g.height
  {
    var cells := seq<Cost>(|g.cells|, k requires 0 <= k < |g.cells| => MaxCost(g.cells[k], f(CellAt(g, k))));
    assert g.Valid() && |cells| == g.width * g.height;
    GridData(g.width, g.height, cells)
  }

  function CellAt(g: Grid, k: nat): (c: Cell)
    requires k < |g.cells|
    ensures g.Inside(c) && c.y * g.width + c.x == k
  {
    CellOfIndex(k, g.width, g.height);
    Cell(k % g.width, k / g.width)
  }

  lemma RaisedAt(g: Grid, f: Cell -> Cost, c: Cell)
    requires g.Inside(c)
    ensures Raised(g, f).At(c) == MaxCost(g.At(c), f(c))
  {
    IndexInRange(c, g.width, g.height);
    var k := c.y * g.width + c.x;
    IndexInjective(CellAt(g, k), c, g.width);
  }

  function Inflated(p: Params, g: Grid, o: Cell): Grid {
    Raised(g, c => p.Kernel(Dist2(c, o)))
  }

  function InflatedAll(p: Params, g: Grid, os: seq<Cell>): (r: Grid)
    ensures r.width == g.width && r.height == g.height
  {
    if os == [] then g else Inflated(p, InflatedAll(p, g, os[..|os| - 1]), os[|os| - 1])
  }

  lemma InflatedAt(p: Params, g: Grid, o: Cell, c: Cell)
    requires g.Inside(c)
    ensures Inflated(p, g, o).At(c) == MaxCost(g.At(c), p.Kernel(Dist2(c, o)))
  {
    RaisedAt(g, d => p.Kernel(Dist2(d, o)), c);
  }

  /** The cost after a batch is the largest offer: an upper bound that is attained. */
  lemma {:induction false} BatchIsMaximum(p: Params, g: Grid, os: seq<Cell>, c: Cell)
    requires g.Inside(c)
    ensures var v := InflatedAll(p, g, os).At(c);
      && v >= g.At(c) && (forall o :: o in os ==> v >= p.Kernel(Dist2(c, o)))
      && (v == g.At(c) || exists o :: o in os && v == p.Kernel(Dist2(c, o)))
  {
    if os != [] {
      var n := |os| - 1;
      BatchIsMaximum(p, g, os[..n], c);
      InflatedAt(p, InflatedAll(p, g, os[..n]), os[n], c);
    }
  }

  /** Order and repetition of the obstacles do not matter. */
  lemma BatchOrderIrrelevant(p: Params, g: Grid, a: seq<Cell>, b: seq<Cell>)
    requires forall o :: o in a <==> o in b
    ensures InflatedAll(p, g, a) == InflatedAll(p, g, b)
  {
    forall c: Cell | g.Inside(c) ensures InflatedAll(p, g, a).At(c) == InflatedAll(p, g, b).At(c) {
      BatchIsMaximum(p, g, a, c);
      BatchIsMaximum(p, g, b, c);
    }
    SameCells(InflatedAll(p, g, a), InflatedAll(p, g, b));
  }

  /** Exactly the cells no obstacle blocks stay traversable. */
  lemma ClearanceExact(p: Params, g: Grid, os: seq<Cell>, c: Cell)
    requires p.Valid()
    ensures InflatedAll(p, g, os).Traversable(c) <==>
            g.Traversable(c) && forall o :: o in os ==> !p.Blocks(o, c)
  {
    if g.Inside(c) {
      BatchIsMaximum(p, g, os, c);
      forall o ensures p.Kernel(Dist2(c, o)) >= INSCRIBED <==> p.Blocks(o, c) {
        ZeroDistance(c, o);
      }
    }
  }

  /** What obstacle o asks for at a cell it does not block: the decay inside the inflation
      radius, nothing outside. */
  predicate Reaches(p: Params, o: Cell, c: Cell) {
    p.inflation >= 0.0 && Dist2(c, o) as real * (p.resolution * p.resolution) <= p.inflation * p.inflation
  }

  /** The gradient: a cell that no obstacle blocks costs at least what it did and at least the
      decay of every obstacle that reaches it, and no more than the largest of these. */
  lemma GradientExact(p: Params, g: Grid, os: seq<Cell>, c: Cell)
    requires g.Inside(c) && forall o :: o in os ==> !p.Blocks(o, c)
    ensures var v := InflatedAll(p, g, os).At(c);
      && v >= g.At(c)
      && (forall o :: o in os && Reaches(p, o, c) ==> v >= p.decay(Dist2(c, o)))
      && (v == g.At(c) || exists o :: o in os && Reaches(p, o, c) && v == p.decay(Dist2(c, o)))
  {
    hide Params.Kernel, Params.Blocks, Params.Within, Dist2, Reaches, InflatedAll;
    BatchIsMaximum(p, g, os, c);
    forall o | o in os
      ensures p.Kernel(Dist2(c, o)) == if Reaches(p, o, c) then p.decay(Dist2(c, o)) else FREE
    {
      OfferUnblocked(p, o, c);
    }
  }

  lemma OfferUnblocked(p: Params, o: Cell, c: Cell)
    requires !p.Blocks(o, c)
    ensures p.Kernel(Dist2(c, o)) == if Reaches(p, o, c) then p.decay(Dist2(c, o)) else FREE
  {
    ZeroDistance(c, o);
    hide Dist2;
  }

  /** An obstacle body is LETHAL, the ring around it INSCRIBED unless a body stands there. */
  lemma BlockedExact(p: Params, g: Grid, os: seq<Cell>, c: Cell)
    requires p.Valid() && g.Inside(c) && g.At(c) < INSCRIBED && exists o :: o in os && p.Blocks(o, c)
    ensures InflatedAll(p, g, os).At(c) == if c in os then LETHAL else INSCRIBED
  {
    BatchIsMaximum(p, g, os, c);
    forall o | o in os
      ensures p.Kernel(Dist2(c, o)) == LETHAL <==> o == c
      ensures p.Kernel(Dist2(c, o)) >= INSCRIBED <==> p.Blocks(o, c)
    {
      ZeroDistance(c, o);
    }
  }

  /** Beyond the inflation radius of every obstacle nothing changes. */
  lemma FarUnchanged(p: Params, g: Grid, os: seq<Cell>, c: Cell)
    requires g.Inside(c) && forall o :: o in os ==> o != c && !Reaches(p, o, c)
    ensures InflatedAll(p, g, os).At(c) == g.At(c)
  {
    GradientExact(p, g, os, c);
  }

  lemma ZeroDistance(a: Cell, b: Cell)
    ensures Dist2(a, b) == 0 <==> a == b
  {
    var dx, dy := a.x - b.x, a.y - b.y;
    SquareNonNegative(dx);
    SquareNonNegative(dy);
    assert dx != 0 ==> dx * dx > 0;
    assert dy != 0 ==> dy * dy > 0;
  }

  /** Every cell of a legal path over the inflated field keeps clear of every obstacle. */
  lemma PathKeepsClear(p: Params, g: Grid, os: seq<Cell>, path: seq<Cell>, s: Cell, t: Cell)
    requires p.Valid()
    requires LegalPath(InflatedAll(p, g, os), path, s, t) && InflatedAll(p, g, os).Traversable(s)
    ensures forall c, o :: c in path && o in os ==> !p.Blocks(o, c)
  {
    forall i, o | 0 <= i < |path| && o in os ensures !p.Blocks(o, path[i]) {
      if i > 0 {
        assert EdgeAt(InflatedAll(p, g, os), path, i - 1);
      }
      ClearanceExact(p, g, os, path[i]);
    }
  }

  // ---- the loops over the buffer ----

  /** Kernel applied to the cells of `done`, the rest still as in g0. */
  ghost predicate Partly(p: Params, g0: Grid, g: Grid, o: Cell, done: iset<Cell>) {
    && g.width == g0.width && g.height == g0.height
    && forall c: Cell :: g.Inside(c) ==>
         g.At(c) == if c == o || c in done then MaxCost(g0.At(c), p.Kernel(Dist2(c, o))) else g0.At(c)
  }

  /** Offsets before (dx, dy) in row-major order of a window of half-width n. */
  ghost function WindowBefore(o: Cell, n: int, dx: int, dy: int): iset<Cell> {
    iset c: Cell | -n <= c.x - o.x <= n && -n <= c.y - o.y &&
                   (c.y - o.y < dy || (c.y - o.y == dy && c.x - o.x < dx))
  }

  function Ceil(x: real): int {
    -((-x).Floor)
  }

  /** Every cell the kernel can reach lies in the window of half-width ceil(radius / resolution). */
  lemma WindowCovers(p: Params, o: Cell, c: Cell)
    requires p.Valid() && c != o && p.Within(Dist2(c, o), p.inflation)
    ensures var n := Ceil(p.inflation / p.resolution); -n <= c.x - o.x <= n && -n <= c.y - o.y <= n
  {
    var dx, dy := c.x - o.x, c.y - o.y;
    SquareNonNegative(dx);
    SquareNonNegative(dy);
    OffsetBound(dx, Dist2(c, o), p);
    OffsetBound(dy, Dist2(c, o), p);
  }

  lemma OffsetBound(k: int, d2: nat, p: Params)
    requires p.Valid() && k * k <= d2 && p.Within(d2, p.inflation)
    ensures var n := Ceil(p.inflation / p.resolution); -n <= k <= n
  {
    var m := if k < 0 then -k else k;
    hide Ceil;
    assert m * m == k * k;
    RootBound(m as real, d2 as real, p.resolution, p.inflation);
    QuotientBound(m as real, p.resolution, p.inflation);
    CeilAbove(m, p.inflation / p.resolution);
  }

  lemma CeilAbove(m: int, x: real)
    requires m as real <= x
    ensures m <= Ceil(x)
  {
  }

  lemma RootBound(m: real, d2: real, res: real, r: real)
    requires m >= 0.0 && res > 0.0 && r >= 0.0
    requires m * m <= d2 && d2 * (res * res) <= r * r
    ensures m * res <= r
  {
    ScaleLess(m * m, d2, res * res);
    assert (m * m) * (res * res) == (m * res) * (m * res);
    if m * res > r {
      SquareLess(r, m * res);
    }
  }

  lemma PutExtendsPartly(p: Params, g0: Grid, g: Grid, o: Cell, done: iset<Cell>, c: Cell)
    requires Partly(p, g0, g, o, done) && c !in done && c != o
    ensures Partly(p, g0, g.Put(c, MaxCost(g.At(c), p.Kernel(Dist2(c, o)))), o, done + iset{c})
  {
    var v := MaxCost(g.At(c), p.Kernel(Dist2(c, o)));
    forall d: Cell | g.Inside(d)
      ensures g.Put(c, v).At(d) ==
              if d == o || d in done + iset{c} then MaxCost(g0.At(d), p.Kernel(Dist2(d, o))) else g0.At(d)
    {
      PutAt(g, c, v, d);
    }
  }

  lemma FreeExtendsPartly(p: Params, g0: Grid, g: Grid, o: Cell, done: iset<Cell>, c: Cell)
    requires Partly(p, g0, g, o, done) && (c == o || p.Kernel(Dist2(c, o)) == FREE)
    ensures Partly(p, g0, g, o, done + iset{c})
  {
  }

  lemma PartlyDone(p: Params, g0: Grid, g: Grid, o: Cell, done: iset<Cell>)
    requires Partly(p, g0, g, o, done)
    requires forall c :: c != o && c !in done ==> p.Kernel(Dist2(c, o)) == FREE
    ensures g == Inflated(p, g0, o)
  {
    forall c: Cell | g.Inside(c) ensures g.At(c) == Inflated(p, g0, o).At(c) {
      InflatedAt(p, g0, o, c);
    }
    SameCells(g, Inflated(p, g0, o));
  }

  lemma CentreStarts(p: Params, g0: Grid, o: Cell)
    ensures Partly(p, g0, g0.Put(o, LETHAL), o, iset{})
  {
    forall c ensures g0.Put(o, LETHAL).At(c) == if o == c && g0.Inside(o) then LETHAL else g0.At(c) {
      PutAt(g0, o, LETHAL, c);
    }
    ZeroDistance(o, o);
  }

  /** The window seen so far grows by one cell. */
  lemma WindowStep(o: Cell, n: int, dx: int, dy: int)
    requires -n <= dx <= n && -n <= dy
    ensures WindowBefore(o, n, dx + 1, dy) == WindowBefore(o, n, dx, dy) + iset{Cell(o.x + dx, o.y + dy)}
    ensures Cell(o.x + dx, o.y + dy) !in WindowBefore(o, n, dx, dy)
  {
  }

  lemma OutsideWindow(p: Params, o: Cell, c: Cell)
    requires p.Valid() && c != o
    requires var n := Ceil(p.inflation / p.resolution); !(-n <= c.x - o.x <= n && -n <= c.y - o.y <= n)
    ensures p.Kernel(Dist2(c, o)) == FREE
  {
    ZeroDistance(c, o);
    if p.Within(Dist2(c, o), p.inflation) {
      WindowCovers(p, o, c);
    }
  }

  method Inflate(p: Params, grid: OccupancyGrid, o: Cell)
    requires p.Valid() && grid.Valid()
    modifies grid.cells
    ensures grid.View() == Inflated(p, old(grid.View()), o)
  {
    hide Partly, Params.Kernel, Inflated, GridData.Put, Dist2;
    ghost var g0 := grid.View();
    grid.SetCost(o, LETHAL);
    CentreStarts(p, g0, o);
    var n := Ceil(p.inflation / p.resolution);
    assert WindowBefore(o, n, -n, -n) == iset{};
    var dy := -n;
    while dy <= n
      invariant -n <= dy
      invariant Partly(p, g0, grid.View(), o, WindowBefore(o, n, -n, dy))
    {
      var dx := -n;
      while dx <= n
        invariant -n <= dx <= n + 1
        invariant Partly(p, g0, grid.View(), o, WindowBefore(o, n, dx, dy))
      {
        InflateCell(p, grid, o, dx, dy, g0, WindowBefore(o, n, dx, dy));
        WindowStep(o, n, dx, dy);
        dx := dx + 1;
      }
      assert WindowBefore(o, n, n + 1, dy) == WindowBefore(o, n, -n, dy + 1);
      dy := dy + 1;
    }
    forall c | c != o && c !in WindowBefore(o, n, -n, dy)
      ensures p.Kernel(Dist2(c, o)) == FREE
    {
      OutsideWindow(p, o, c);
    }
    PartlyDone(p, g0, grid.View(), o, WindowBefore(o, n, -n, dy));
  }

  /** The body of the window loop, at offset (dx, dy). */
  method InflateCell(p: Params, grid: OccupancyGrid, o: Cell, dx: int, dy: int,
                     ghost g0: Grid, ghost done: iset<Cell>)
    requires p.Valid() && grid.Valid() && Cell(o.x + dx, o.y + dy) !in done
    requires Partly(p, g0, grid.View(), o, done)
    modifies grid.cells
    ensures Partly(p, g0, grid.View(), o, done + iset{Cell(o.x + dx, o.y + dy)})
  {
    var c := Cell(o.x + dx, o.y + dy);
    ghost var g := grid.View();
    ZeroDistance(c, o);
    if dx == 0 && dy == 0 {
      FreeExtendsPartly(p, g0, g, o, done, c);
      return;
    }
    SquareNonNegative(dx);
    SquareNonNegative(dy);
    var d2: nat := dx * dx + dy * dy;
    if !p.Within(d2, p.inflation) {
      FreeExtendsPartly(p, g0, g, o, done, c);
      return;
    }
    var cost := if p.Within(d2, p.inscribed) then INSCRIBED else p.decay(d2);
    PutExtendsPartly(p, g0, g, o, done, c);
    grid.SetCostMax(c, cost);
  }

  /** The obstacles without the one at index skip (if there is one). */
  function Skipping(os: seq<Cell>, skip: nat): (r: seq<Cell>)
    ensures forall o :: o in r <==> exists i :: 0 <= i < |os| && i != skip && os[i] == o
  {
    if skip < |os| then
      var r := os[..skip] + os[skip + 1..];
      assert forall i :: 0 <= i < |os| && i != skip ==> os[i] == r[if i < skip then i else i - 1];
      r
    else os
  }

  method MarkObstacles(p: Params, grid: OccupancyGrid, os: seq<Cell>, skip: nat)
    requires p.Valid() && grid.Valid()
    modifies grid.cells
    ensures grid.View() == InflatedAll(p, old(grid.View()), Skipping(os, skip))
  {
    ghost var g0 := grid.View();
    for i := 0 to |os|
      invariant grid.View() == InflatedAll(p, g0, Skipping(os[..i], skip))
    {
      assert os[..i + 1] == os[..i] + [os[i]];
      if i == skip {
        assert Skipping(os[..i + 1], skip) == os[..i];
        continue;
      }
      var before, after := Skipping(os[..i], skip), Skipping(os[..i + 1], skip);
      assert after == before + [os[i]];
      assert after[..|after| - 1] == before;
      Inflate(p, grid, os[i]);
    }
    assert os[..|os|] == os;
  }
}
