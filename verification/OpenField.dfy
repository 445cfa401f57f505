/** What paths cost: counted move by move, and in closed form where the cost is uniform. */
module OpenField {
  import opened Arithmetic
  import opened Grids
  import opened GridPaths
  import opened AStarPlanner

  // ---- the price of a path, counted ----

  function Diagonals(p: seq<Cell>): nat {
    if |p| <= 1 then 0
    else Diagonals(p[..|p| - 1]) + if p[|p| - 2].x != p[|p| - 1].x && p[|p| - 2].y != p[|p| - 1].y then 1 else 0
  }

  /** Sum of the costs of all cells but the first. */
  function Entered(g: Grid, p: seq<Cell>): int {
    if |p| <= 1 then 0 else Entered(g, p[..|p| - 1]) + g.At(p[|p| - 1])
  }

  /** A path pays 1 for a straight move, 1.41421356 for a diagonal one, and for every cell it
      enters its cost as a fraction of 253. */
  lemma {:induction false} PathCostExact(g: Grid, p: seq<Cell>)
    requires |p| > 0
    ensures Diagonals(p) <= |p| - 1
    ensures PathCost(g, p) ==
            (|p| - 1 - Diagonals(p)) as real + 1.41421356 * Diagonals(p) as real + Entered(g, p) as real / 253.0
    decreases |p|
  {
    if |p| > 1 {
      PathCostExact(g, p[..|p| - 1]);
    }
  }

  // ---- uniform cost ----

  ghost predicate Uniform(g: Grid, v: Cost) {
    v < INSCRIBED && forall c: Cell :: g.Inside(c) ==> g.At(c) == v
  }

  function Longer(a: Cell, b: Cell): nat {
    var dx, dy := Abs(a.x - b.x), Abs(a.y - b.y);
    if dx < dy then dy else dx
  }

  /** The octile distance, and the cost of one cell for every move. */
  function Direct(v: Cost, a: Cell, b: Cell): real {
    Heuristic(a, b) + Toll(Longer(a, b), v)
  }

  /** What n cells of cost v add. */
  function Toll(n: nat, v: Cost): real {
    n as real * (v as real / 253.0)
  }

  function Sign(n: int): int {
    if n < 0 then -1 else if n > 0 then 1 else 0
  }

  /** One move from b toward a, diagonal as long as both coordinates differ. */
  function Toward(b: Cell, a: Cell): Cell {
    Cell(b.x + Sign(a.x - b.x), b.y + Sign(a.y - b.y))
  }

  lemma TowardCloser(a: Cell, b: Cell)
    requires a != b
    ensures Longer(a, Toward(b, a)) == Longer(a, b) - 1
    ensures Adjacent(Toward(b, a), b)
    ensures Heuristic(a, b) == Heuristic(a, Toward(b, a)) + if IsDiagonal(Toward(b, a), b) then DIAGONAL else CARDINAL
  {
  }

  function Stroll(a: Cell, b: Cell): (p: seq<Cell>)
    ensures |p| > 0 && p[0] == a && p[|p| - 1] == b
    decreases Longer(a, b)
  {
    if a == b then [a]
    else
      TowardCloser(a, b);
      Stroll(a, Toward(b, a)) + [b]
  }

  lemma Between(g: Grid, a: Cell, b: Cell)
    requires g.Inside(a) && g.Inside(b)
    ensures var c := Toward(b, a);
      g.Inside(c) && g.Inside(Cell(b.x, c.y)) && g.Inside(Cell(c.x, b.y))
  {
  }

  lemma UniformEdge(g: Grid, v: Cost, a: Cell, b: Cell)
    requires Uniform(g, v) && g.Inside(a) && g.Inside(b) && a != b
    ensures var c := Toward(b, a);
      && Edge(g, c, b)
      && StepCost(g, c, b) == (if IsDiagonal(c, b) then DIAGONAL else CARDINAL) + v as real / 253.0
  {
    Between(g, a, b);
    TowardCloser(a, b);
  }

  lemma OneMore(n: nat, v: Cost)
    ensures Toll(n + 1, v) == Toll(n, v) + v as real / 253.0
  {
    Distribute(v as real / 253.0, n as real, 1.0);
  }

  lemma {:induction false} StrollIsDirect(g: Grid, v: Cost, a: Cell, b: Cell)
    requires Uniform(g, v) && g.Inside(a) && g.Inside(b)
    ensures LegalPath(g, Stroll(a, b), a, b) && PathCost(g, Stroll(a, b)) == Direct(v, a, b)
    decreases Longer(a, b)
  {
    hide Uniform, Edge, StepCost, Heuristic, Toward, Longer, Adjacent, LegalPath, PathCost, IsDiagonal;
    if a == b {
      NoDistance(a);
      Standing(g, a);
    } else {
      var c := Toward(b, a);
      TowardCloser(a, b);
      Between(g, a, b);
      StrollIsDirect(g, v, a, c);
      UniformEdge(g, v, a, b);
      OneMore(Longer(a, c), v);
      PathExtended(g, Stroll(a, c), a, c, b);
    }
  }

  lemma PathExtended(g: Grid, p: seq<Cell>, a: Cell, c: Cell, b: Cell)
    requires LegalPath(g, p, a, c) && Edge(g, c, b)
    ensures LegalPath(g, p + [b], a, b) && PathCost(g, p + [b]) == PathCost(g, p) + StepCost(g, c, b)
  {
    hide Edge, StepCost;
    var q := p + [b];
    assert q[..|q| - 1] == p;
    forall k: nat | k + 1 < |q| ensures EdgeAt(g, q, k) {
      if k + 1 < |p| {
        assert EdgeAt(g, p, k);
      }
    }
  }

  lemma Standing(g: Grid, a: Cell)
    ensures LegalPath(g, [a], a, a) && PathCost(g, [a]) == 0.0
  {
  }

  lemma NoDistance(a: Cell)
    ensures Heuristic(a, a) == 0.0 && Longer(a, a) == 0
  {
  }

  /** Where the cost is uniform the direct price never drops by more than the price of a move. */
  lemma DirectConsistent(g: Grid, v: Cost, t: Cell)
    requires Uniform(g, v)
    ensures Consistent(g, c => Direct(v, c, t))
  {
    var h := c => Direct(v, c, t);
    hide Edge, StepCost, Direct;
    forall a, b | Edge(g, a, b) ensures h(a) <= StepCost(g, a, b) + h(b) {
      EdgeUniform(g, v, a, b);
      DirectStep(v, a, b, t);
    }
  }

  lemma EdgeUniform(g: Grid, v: Cost, a: Cell, b: Cell)
    requires Uniform(g, v) && Edge(g, a, b)
    ensures Adjacent(a, b)
    ensures StepCost(g, a, b) == (if IsDiagonal(a, b) then DIAGONAL else CARDINAL) + v as real / 253.0
  {
  }

  lemma DirectStep(v: Cost, a: Cell, b: Cell, t: Cell)
    requires Adjacent(a, b)
    ensures Direct(v, a, t) <= (if IsDiagonal(a, b) then DIAGONAL else CARDINAL) + v as real / 253.0 + Direct(v, b, t)
  {
    LongerStep(a, b, t);
    HeuristicStep(a, b, t);
    hide Heuristic, Longer, IsDiagonal, Adjacent, Toll;
    MoreSteps(Longer(a, t), Longer(b, t), v);
  }

  lemma LongerStep(a: Cell, b: Cell, t: Cell)
    requires Adjacent(a, b)
    ensures Longer(a, t) <= Longer(b, t) + 1
  {
  }

  lemma MoreSteps(m: nat, n: nat, v: Cost)
    requires m <= n + 1
    ensures Toll(m, v) <= Toll(n, v) + v as real / 253.0
  {
    OneMore(n, v);
    ScaleLess(m as real, (n + 1) as real, v as real / 253.0);
  }

  /** On a field of uniform cost the cheapest legal path costs the octile distance plus the cost
      of one cell for every move of the longer side. */
  lemma CheapestExact(g: Grid, v: Cost, s: Cell, t: Cell)
    requires Uniform(g, v) && g.Inside(s) && g.Inside(t)
    ensures exists p :: LegalPath(g, p, s, t) && PathCost(g, p) == Direct(v, s, t)
    ensures forall p :: LegalPath(g, p, s, t) ==> PathCost(g, p) >= Direct(v, s, t)
  {
    hide Uniform, Heuristic, Longer, Edge;
    StrollIsDirect(g, v, s, t);
    DirectConsistent(g, v, t);
    forall p | LegalPath(g, p, s, t) ensures PathCost(g, p) >= Direct(v, s, t) {
      EstimateAlong(g, p, s, t, 0, c => Direct(v, c, t));
      NoDistance(t);
    }
  }

  /** With a weight of at most 1 and iterations enough, the planner finds such a path. */
  method PlanOpenField(g: Grid, v: Cost, params: Params, start: Cell, goal: Cell) returns (path: seq<Cell>)
    requires Uniform(g, v) && g.Inside(start) && g.Inside(goal)
    requires 0.0 <= params.heuristicWeight <= 1.0 && params.maxIterations >= 8 * (g.width * g.height) + 1
    ensures LegalPath(g, path, start, goal) && PathCost(g, path) == Direct(v, start, goal)
  {
    hide Uniform, Direct, Edge, NearestIn;
    CheapestExact(g, v, start, goal);
    FreeEverywhere(g, v, start);
    FreeEverywhere(g, v, goal);
    path := Plan(g, params, start, goal);
    ghost var p :| LegalPath(g, p, start, goal) && PathCost(g, p) == Direct(v, start, goal);
    assert Reachable(g, start, goal);
    assert path != [] ==> PathCost(g, path) <= Allowed(params.heuristicWeight, PathCost(g, p));
  }

  lemma FreeEverywhere(g: Grid, v: Cost, c: Cell)
    requires Uniform(g, v) && g.Inside(c)
    ensures g.Traversable(c)
  {
  }
}
