/** Legal moves, path costs and the octile heuristic of the grid planner. */
module GridPaths {
  import opened Grids

  const CARDINAL: real := 1.0
  const DIAGONAL: real := 1.41421356

  function Abs(n: int): nat {
    if n < 0 then -n else n
  }

  function Heuristic(a: Cell, b: Cell): real {
    Octile(Abs(a.x - b.x), Abs(a.y - b.y))
  }

  function Octile(dx: nat, dy: nat): real {
    (if dx < dy then dx else dy) as real * 1.41421356 + Abs(dx - dy) as real * 1.0
  }

  predicate Adjacent(a: Cell, b: Cell) {
    a != b && Abs(a.x - b.x) <= 1 && Abs(a.y - b.y) <= 1
  }

  predicate IsDiagonal(a: Cell, b: Cell) {
    a.x != b.x && a.y != b.y
  }

  /** One legal move: the target is traversable and a diagonal cuts no corner. */
  predicate Edge(g: Grid, a: Cell, b: Cell) {
    && Adjacent(a, b)
    && g.Traversable(b)
    && (IsDiagonal(a, b) ==> g.Traversable(Cell(b.x, a.y)) && g.Traversable(Cell(a.x, b.y)))
  }

  function StepCost(g: Grid, a: Cell, b: Cell): real {
    (if IsDiagonal(a, b) then DIAGONAL else CARDINAL) + g.At(b) as real / 253.0
  }

  ghost predicate EdgeAt(g: Grid, p: seq<Cell>, i: nat)
    requires i + 1 < |p|
  {
    Edge(g, p[i], p[i + 1])
  }

  ghost predicate LegalPath(g: Grid, p: seq<Cell>, s: Cell, t: Cell) {
    && |p| > 0 && p[0] == s && p[|p| - 1] == t
    && forall i: nat :: i + 1 < |p| ==> EdgeAt(g, p, i)
  }

  ghost function PathCost(g: Grid, p: seq<Cell>): real {
    if |p| <= 1 then 0.0
    else PathCost(g, p[..|p| - 1]) + StepCost(g, p[|p| - 2], p[|p| - 1])
  }

  lemma PathPrefix(g: Grid, p: seq<Cell>, s: Cell, t: Cell, n: nat)
    requires LegalPath(g, p, s, t) && 0 < n <= |p|
    ensures LegalPath(g, p[..n], s, p[n - 1])
  {
    forall i: nat | i + 1 < n ensures EdgeAt(g, p[..n], i) {
      assert EdgeAt(g, p, i);
    }
  }

  lemma StepCostFloor(g: Grid, a: Cell, b: Cell)
    ensures StepCost(g, a, b) >= if IsDiagonal(a, b) then DIAGONAL else CARDINAL
  {
    assert g.At(b) as real / 253.0 >= 0.0;
  }

  lemma AbsStep(m: int, n: int)
    ensures Abs(m - n) <= 1 ==> Abs(m) <= Abs(n) + 1 && Abs(n) <= Abs(m) + 1
  {
  }

  /** The octile distance never drops by more than the bare price of a move. */
  lemma HeuristicStep(a: Cell, b: Cell, t: Cell)
    requires Adjacent(a, b)
    ensures Heuristic(a, t) <= Heuristic(b, t) + if IsDiagonal(a, b) then DIAGONAL else CARDINAL
  {
    hide Octile;
    AbsStep(a.x - t.x, b.x - t.x);
    AbsStep(a.y - t.y, b.y - t.y);
    OctileMove(Abs(a.x - t.x), Abs(a.y - t.y), Abs(b.x - t.x), Abs(b.y - t.y));
  }

  lemma HeuristicConsistent(g: Grid, t: Cell)
    ensures Consistent(g, c => Heuristic(c, t))
  {
    var h := c => Heuristic(c, t);
    forall a, b | Edge(g, a, b) ensures h(a) <= StepCost(g, a, b) + h(b) {
      HeuristicStep(a, b, t);
      StepCostFloor(g, a, b);
    }
  }

  lemma OctileMove(ux: nat, uy: nat, vx: nat, vy: nat)
    requires ux <= vx + 1 && vx <= ux + 1 && uy <= vy + 1 && vy <= uy + 1
    ensures Octile(ux, uy) <= Octile(vx, vy) + DIAGONAL
    ensures ux == vx || uy == vy ==> Octile(ux, uy) <= Octile(vx, vy) + CARDINAL
  {
    OctileAsMax(ux, uy);
    OctileAsMax(vx, vy);
  }

  /** Octile = longer side + (D - 1) x shorter side. */
  lemma OctileAsMax(dx: nat, dy: nat)
    ensures dx <= dy ==> Octile(dx, dy) == dy as real + dx as real * 0.41421356
    ensures dy <= dx ==> Octile(dx, dy) == dx as real + dy as real * 0.41421356
  {
  }

  /** An estimate of the price to go that no legal move can beat. */
  ghost predicate Consistent(g: Grid, h: Cell -> real) {
    forall a, b {:trigger Edge(g, a, b)} :: Edge(g, a, b) ==> h(a) <= StepCost(g, a, b) + h(b)
  }

  /** Along any path suffix a consistent estimate never exceeds the price. */
  lemma {:induction false} EstimateAlong(g: Grid, p: seq<Cell>, s: Cell, t: Cell, i: nat, h: Cell -> real)
    requires LegalPath(g, p, s, t) && i < |p| && Consistent(g, h)
    ensures h(p[i]) <= PathCost(g, p) - PathCost(g, p[..i + 1]) + h(t)
    decreases |p|
  {
    if i == |p| - 1 {
      assert p[..i + 1] == p;
    } else {
      var q := p[..|p| - 1];
      PathPrefix(g, p, s, t, |p| - 1);
      EstimateAlong(g, q, s, q[|q| - 1], i, h);
      assert q[..i + 1] == p[..i + 1];
      EstimateStep(g, h, p, |p| - 2);
    }
  }

  lemma EstimateStep(g: Grid, h: Cell -> real, p: seq<Cell>, i: nat)
    requires Consistent(g, h) && i + 1 < |p| && EdgeAt(g, p, i)
    ensures h(p[i]) <= StepCost(g, p[i], p[i + 1]) + h(p[i + 1])
  {
  }

  lemma {:induction false} PathCostMonotone(g: Grid, p: seq<Cell>, n: nat)
    requires 0 < n <= |p|
    ensures 0.0 <= PathCost(g, p[..n]) <= PathCost(g, p)
    decreases |p|
  {
    if |p| == 1 {
      assert p[..n] == p;
    } else {
      assert StepCost(g, p[|p| - 2], p[|p| - 1]) >= 0.0;
      var q := p[..|p| - 1];
      if n == |p| {
        assert p[..n] == p;
        PathCostMonotone(g, q, |q|);
        assert q[..|q|] == q;
      } else {
        PathCostMonotone(g, q, n);
        assert q[..n] == p[..n];
      }
    }
  }
}
