/** Ray tracing: cells a ray crosses are cleared, the cell it hits becomes LETHAL. */
module ScanToGrid {
  import opened Arithmetic
  import opened Grids
  import opened OccupancyGrids
  import opened GridPaths
  import opened GridUpdater

  function Max(a: nat, b: nat): nat {
    if a < b then b else a
  }

  function Sign(from: int, to: int): int {
    if from < to then 1 else -1
  }

  /** Cells from a to b along the longer axis. */
  function Steps(a: Cell, b: Cell): nat {
    Max(Abs(b.x - a.x), Abs(b.y - a.y))
  }

  /** The k-th offset on the shorter axis (length v) after k steps of the longer
      (length u > 0): k * v / u rounded to the nearest cell, halves rounded down. */
  function Minor(u: nat, v: nat, k: nat): int
    requires u > 0
  {
    (2 * k * v + u - 1) / (2 * u)
  }

  /** Minor is the one integer whose doubled error lies in [-u, u). */
  lemma MinorUnique(u: nat, v: nat, k: nat, m: int)
    requires 0 < u && -(u as int) <= 2 * (m * u - k * v) < u
    ensures Minor(u, v, k) == m
  {
    assert m * (2 * u) == 2 * (m * u) && 2 * k * v == 2 * (k * v);
    DivUnique(2 * k * v + u - 1, 2 * u, m);
  }

  lemma MinorError(u: nat, v: nat, k: nat)
    requires 0 < u
    ensures -(u as int) <= 2 * (Minor(u, v, k) * u - k * v) < u
  {
    var m := Minor(u, v, k);
    DivBounds(2 * k * v + u - 1, 2 * u);
    assert m * (2 * u) == 2 * (m * u) && 2 * k * v == 2 * (k * v);
  }

  /** Offsets along x and y, both non-negative, of the k-th cell of the segment. */
  function OffX(dx: nat, dy: nat, k: nat): int {
    if dx == 0 then 0 else if dx >= dy then k else Minor(dy, dx, k)
  }

  function OffY(dx: nat, dy: nat, k: nat): int {
    if dy == 0 then 0 else if dx >= dy then Minor(dx, dy, k) else k
  }

  /** The ideal digital segment from a to b, in closed form. */
  function LineCell(a: Cell, b: Cell, k: nat): Cell {
    var dx, dy := Abs(b.x - a.x), Abs(b.y - a.y);
    Cell(a.x + Sign(a.x, b.x) * OffX(dx, dy, k), a.y + Sign(a.y, b.y) * OffY(dx, dy, k))
  }

  /** The decision variable after k steps. */
  ghost function Err(dx: nat, dy: nat, k: nat): int {
    dx - dy + OffY(dx, dy, k) * dx - OffX(dx, dy, k) * dy
  }

  lemma FlatStep(dx: nat, dy: nat, k: nat)
    requires dx >= dy && dx > 0
    ensures 2 * Err(dx, dy, k) > -(dy as int)
    ensures OffY(dx, dy, k + 1) == OffY(dx, dy, k) + if 2 * Err(dx, dy, k) < dx then 1 else 0
  {
    if dy > 0 {
      MinorError(dx, dy, k);
      if dx == dy {
        MinorUnique(dx, dy, k, k);
        MinorUnique(dx, dy, k + 1, k + 1);
      }
      var m := Minor(dx, dy, k);
      assert (k + 1) * dy == k * dy + dy && (m + 1) * dx == m * dx + dx;
      MinorUnique(dx, dy, k + 1, if 2 * Err(dx, dy, k) < dx then m + 1 else m);
    } else {
      assert k * dy == 0;
    }
  }

  lemma SteepStep(dx: nat, dy: nat, k: nat)
    requires dy > dx
    ensures 2 * Err(dx, dy, k) < dx
    ensures OffX(dx, dy, k + 1) == OffX(dx, dy, k) + if 2 * Err(dx, dy, k) > -(dy as int) then 1 else 0
  {
    if dx > 0 {
      MinorError(dy, dx, k);
      var m := Minor(dy, dx, k);
      assert (k + 1) * dx == k * dx + dx && (m + 1) * dy == m * dy + dy;
      MinorUnique(dy, dx, k + 1, if 2 * Err(dx, dy, k) > -(dy as int) then m + 1 else m);
    } else {
      assert k * dx == 0;
    }
  }

  /** The two tests on the doubled error, and the axis steps they order. */
  ghost function RightStep(dx: nat, dy: nat, k: nat): int {
    if 2 * Err(dx, dy, k) > -(dy as int) then 1 else 0
  }

  ghost function DownStep(dx: nat, dy: nat, k: nat): int {
    if 2 * Err(dx, dy, k) < dx then 1 else 0
  }

  lemma OffsetStep(dx: nat, dy: nat, k: nat)
    requires k < Max(dx, dy)
    ensures OffX(dx, dy, k + 1) == OffX(dx, dy, k) + RightStep(dx, dy, k)
    ensures OffY(dx, dy, k + 1) == OffY(dx, dy, k) + DownStep(dx, dy, k)
  {
    if dx >= dy {
      FlatStep(dx, dy, k);
    } else {
      SteepStep(dx, dy, k);
    }
  }

  lemma ErrStart(dx: nat, dy: nat)
    ensures Err(dx, dy, 0) == dx - dy
  {
    if dx >= dy && dy > 0 {
      MinorUnique(dx, dy, 0, 0);
    } else if dy > dx && dx > 0 {
      MinorUnique(dy, dx, 0, 0);
    }
  }

  lemma ProductStep(m: int, n: int, u: int)
    requires n == m || n == m + 1
    ensures n * u == m * u + if n == m then 0 else u
  {
  }

  lemma ErrStep(dx: nat, dy: nat, k: nat)
    requires k < Max(dx, dy)
    ensures Err(dx, dy, k + 1) ==
            Err(dx, dy, k)
            - (if RightStep(dx, dy, k) == 1 then dy else 0)
            + (if DownStep(dx, dy, k) == 1 then dx else 0)
  {
    OffsetStep(dx, dy, k);
    ProductStep(OffX(dx, dy, k), OffX(dx, dy, k + 1), dy);
    ProductStep(OffY(dx, dy, k), OffY(dx, dy, k + 1), dx);
  }

  lemma LineStep(a: Cell, b: Cell, k: nat)
    requires k < Steps(a, b)
    ensures var dx, dy, c := Abs(b.x - a.x), Abs(b.y - a.y), LineCell(a, b, k);
      LineCell(a, b, k + 1) == Cell(c.x + Sign(a.x, b.x) * RightStep(dx, dy, k),
                                    c.y + Sign(a.y, b.y) * DownStep(dx, dy, k))
  {
    OffsetStep(Abs(b.x - a.x), Abs(b.y - a.y), k);
  }

  lemma LineEnds(a: Cell, b: Cell)
    ensures LineCell(a, b, 0) == a && LineCell(a, b, Steps(a, b)) == b
  {
    var dx, dy := Abs(b.x - a.x), Abs(b.y - a.y);
    if dx >= dy && dy > 0 {
      MinorUnique(dx, dy, 0, 0);
      MinorUnique(dx, dy, dx, dy);
    } else if dy > dx && dx > 0 {
      MinorUnique(dy, dx, 0, 0);
      MinorUnique(dy, dx, dy, dx);
    }
  }

  /** The segment never returns to a cell, so it meets b only at its end. */
  lemma LineDistinct(a: Cell, b: Cell, j: nat, k: nat)
    requires j < k <= Steps(a, b)
    ensures LineCell(a, b, j) != LineCell(a, b, k)
  {
  }

  /** Consecutive cells of the segment touch, at a side or a corner. */
  lemma LineConnected(a: Cell, b: Cell, k: nat)
    requires k < Steps(a, b)
    ensures Adjacent(LineCell(a, b, k), LineCell(a, b, k + 1))
  {
    LineStep(a, b, k);
    LineDistinct(a, b, k, k + 1);
  }

  /** No cell is more than half a cell away from the ideal segment along the shorter axis. */
  lemma LineStaysClose(a: Cell, b: Cell, k: nat)
    requires k <= Steps(a, b)
    ensures var c := LineCell(a, b, k);
      var dx, dy := Abs(b.x - a.x), Abs(b.y - a.y);
      var i, j := Abs(c.x - a.x), Abs(c.y - a.y);
      2 * Abs(i * dy - j * dx) <= Max(dx, dy)
  {
    var dx, dy := Abs(b.x - a.x), Abs(b.y - a.y);
    OffsetsNonNegative(dx, dy, k);
    if dx >= dy && dy > 0 {
      MinorError(dx, dy, k);
    } else if dy > dx && dx > 0 {
      MinorError(dy, dx, k);
    }
  }

  lemma MinorNonNegative(u: nat, v: nat, k: nat)
    ensures u > 0 ==> Minor(u, v, k) >= 0
  {
    MulNonNegative(2 * k, v);
    if u > 0 {
      DivNonNegative(2 * k * v + u - 1, 2 * u);
    }
  }

  lemma OffsetsNonNegative(dx: nat, dy: nat, k: nat)
    ensures OffX(dx, dy, k) >= 0 && OffY(dx, dy, k) >= 0
  {
    MinorNonNegative(dx, dy, k);
    MinorNonNegative(dy, dx, k);
  }

  // ---- the effect on the field ----

  /** The first n cells of the segment cleared, in order. */
  function ClearedLine(g: Grid, a: Cell, b: Cell, n: nat): (r: Grid)
    ensures r.width == g.width && r.height == g.height
  {
    if n == 0 then g else Cleared(ClearedLine(g, a, b, n - 1), LineCell(a, b, n - 1))
  }

  function RayTraced(g: Grid, a: Cell, b: Cell): (r: Grid)
    ensures r.width == g.width && r.height == g.height
  {
    ClearedLine(g, a, b, Steps(a, b)).Put(b, LETHAL)
  }

  method Bresenham(grid: OccupancyGrid, a: Cell, b: Cell)
    requires grid.Valid()
    modifies grid.cells
    ensures grid.View() == RayTraced(old(grid.View()), a, b)
  {
    hide LineCell, Err, Cleared;
    ghost var g0 := grid.View();
    var dx: int, dy: int := Abs(b.x - a.x), Abs(b.y - a.y);
    var sx, sy := Sign(a.x, b.x), Sign(a.y, b.y);
    var err := dx - dy;
    var x, y := a.x, a.y;
    ghost var k: nat := 0;
    LineEnds(a, b);
    ErrStart(dx, dy);
    while true
      invariant k <= Steps(a, b)
      invariant Cell(x, y) == LineCell(a, b, k) && err == Err(dx, dy, k)
      invariant grid.View() == ClearedLine(g0, a, b, k)
      decreases Steps(a, b) - k
    {
      if x == b.x && y == b.y {
        if k < Steps(a, b) {
          LineDistinct(a, b, k, Steps(a, b));
        }
        grid.SetCost(Cell(x, y), LETHAL);
        break;
      }
      grid.SetFreeIfNotLethal(Cell(x, y));
      LineStep(a, b, k);
      ErrStep(dx, dy, k);
      var e2 := 2 * err;
      if e2 > -dy { err := err - dy; x := x + sx; }
      if e2 < dx { err := err + dx; y := y + sy; }
      k := k + 1;
    }
  }

  // ---- a whole scan, and runs that mix scans with inflation ----

  /** A range reading: out of range, or the cell it ends in. */
  datatype Ray = Invalid | Hit(cell: Cell)

  function Scanned(g: Grid, a: Cell, rays: seq<Ray>): (r: Grid)
    ensures r.width == g.width && r.height == g.height
  {
    if rays == [] then g
    else
      var before, ray := Scanned(g, a, rays[..|rays| - 1]), rays[|rays| - 1];
      if ray.Hit? then RayTraced(before, a, ray.cell) else before
  }

  method Raytrace(grid: OccupancyGrid, a: Cell, rays: seq<Ray>)
    requires grid.Valid()
    modifies grid.cells
    ensures grid.View() == Scanned(old(grid.View()), a, rays)
  {
    ghost var g0 := grid.View();
    for i := 0 to |rays|
      invariant grid.View() == Scanned(g0, a, rays[..i])
    {
      assert rays[..i + 1][..i] == rays[..i];
      if rays[i].Invalid? { continue; }
      Bresenham(grid, a, rays[i].cell);
    }
    assert rays[..|rays|] == rays;
  }

  ghost predicate Crosses(a: Cell, b: Cell, c: Cell, n: nat) {
    exists k: nat :: k < n && LineCell(a, b, k) == c
  }

  lemma {:induction false} ClearedLineAt(g: Grid, a: Cell, b: Cell, n: nat, c: Cell)
    requires g.Inside(c)
    ensures ClearedLine(g, a, b, n).At(c) ==
            if g.At(c) < LETHAL && Crosses(a, b, c, n) then FREE else g.At(c)
  {
    if n > 0 {
      ClearedLineAt(g, a, b, n - 1, c);
      PutAt(ClearedLine(g, a, b, n - 1), LineCell(a, b, n - 1), FREE, c);
      assert Crosses(a, b, c, n) <==> Crosses(a, b, c, n - 1) || LineCell(a, b, n - 1) == c;
    }
  }

  ghost predicate CrossedByAny(a: Cell, rays: seq<Ray>, c: Cell) {
    exists r :: r in rays && r.Hit? && Crosses(a, r.cell, c, Steps(a, r.cell))
  }

  /** What a scan leaves in a cell: LETHAL if it was, or if any ray hits it;
      otherwise FREE if any ray crosses it; otherwise what was there. */
  lemma {:induction false} ScanAt(g: Grid, a: Cell, rays: seq<Ray>, c: Cell)
    requires g.Inside(c)
    ensures Scanned(g, a, rays).At(c) ==
            if g.At(c) == LETHAL || Hit(c) in rays then LETHAL
            else if CrossedByAny(a, rays, c) then FREE
            else g.At(c)
  {
    if rays != [] {
      var n := |rays| - 1;
      var before, ray := Scanned(g, a, rays[..n]), rays[n];
      ScanAt(g, a, rays[..n], c);
      assert rays == rays[..n] + [ray];
      if ray.Hit? {
        RayAt(before, a, ray.cell, c);
      }
      assert CrossedByAny(a, rays, c) <==>
        CrossedByAny(a, rays[..n], c) || (ray.Hit? && Crosses(a, ray.cell, c, Steps(a, ray.cell)));
    }
  }

  lemma RayAt(g: Grid, a: Cell, b: Cell, c: Cell)
    requires g.Inside(c)
    ensures RayTraced(g, a, b).At(c) ==
            if c == b then LETHAL
            else if g.At(c) < LETHAL && Crosses(a, b, c, Steps(a, b)) then FREE
            else g.At(c)
  {
    ClearedLineAt(g, a, b, Steps(a, b), c);
    PutAt(ClearedLine(g, a, b, Steps(a, b)), b, LETHAL, c);
  }

  /** The order of the rays, and repeated rays, do not matter. */
  lemma ScanOrderIrrelevant(g: Grid, a: Cell, rays: seq<Ray>, rays': seq<Ray>)
    requires forall r :: r in rays <==> r in rays'
    ensures Scanned(g, a, rays) == Scanned(g, a, rays')
  {
    forall c: Cell | g.Inside(c) ensures Scanned(g, a, rays).At(c) == Scanned(g, a, rays').At(c) {
      ScanAt(g, a, rays, c);
      ScanAt(g, a, rays', c);
      assert CrossedByAny(a, rays, c) <==> CrossedByAny(a, rays', c);
    }
    SameCells(Scanned(g, a, rays), Scanned(g, a, rays'));
  }

  datatype Update = Scan(origin: Cell, rays: seq<Ray>) | Mark(obstacle: Cell)

  function Applied(p: Params, g: Grid, u: Update): (r: Grid)
    ensures r.width == g.width && r.height == g.height
  {
    match u
    case Scan(origin, rays) => Scanned(g, origin, rays)
    case Mark(obstacle) => Inflated(p, g, obstacle)
  }

  function Updated(p: Params, g: Grid, us: seq<Update>): (r: Grid)
    ensures r.width == g.width && r.height == g.height
  {
    if us == [] then g else Applied(p, Updated(p, g, us[..|us| - 1]), us[|us| - 1])
  }

  predicate MakesLethal(u: Update, c: Cell) {
    match u
    case Scan(_, rays) => Hit(c) in rays
    case Mark(obstacle) => obstacle == c
  }

  lemma AppliedLethal(p: Params, g: Grid, u: Update, c: Cell)
    requires p.Valid() && g.Inside(c)
    ensures Applied(p, g, u).At(c) == LETHAL <==> g.At(c) == LETHAL || MakesLethal(u, c)
  {
    match u {
      case Scan(origin, rays) => ScanAt(g, origin, rays, c);
      case Mark(obstacle) =>
        InflatedAt(p, g, obstacle, c);
        ZeroDistance(c, obstacle);
    }
  }

  /** Over any mix of scans and inflations a cell is LETHAL exactly if it was at the
      start or some update put an obstacle there: the LETHAL set only grows. */
  lemma {:induction false} LethalExact(p: Params, g: Grid, us: seq<Update>, c: Cell)
    requires p.Valid() && g.Inside(c)
    ensures Updated(p, g, us).At(c) == LETHAL <==>
            g.At(c) == LETHAL || exists u :: u in us && MakesLethal(u, c)
  {
    if us != [] {
      var n := |us| - 1;
      LethalExact(p, g, us[..n], c);
      AppliedLethal(p, Updated(p, g, us[..n]), us[n], c);
      assert us == us[..n] + [us[n]];
    }
  }
}
