/** Cost-aware weighted A* with lazy deletion and no reopening of closed cells. */
module AStarPlanner {
  import opened Arithmetic
  import opened Grids
  import opened GridPaths
  import opened Sequences

  datatype Params = Params(maxIterations: int, heuristicWeight: real, snapCells: real)

  /** A search node; h already carries the heuristic weight. */
  datatype Node = Node(cell: Cell, g: real, h: real, parent: int) {
    function F(): real { g + h }
  }

  const DX: seq<int> := [-1, 0, 1, -1, 1, -1, 0, 1]
  const DY: seq<int> := [-1, -1, -1, 0, 0, 1, 1, 1]

  function Neighbour(c: Cell, i: nat): Cell
    requires i < 8
  {
    Cell(c.x + DX[i], c.y + DY[i])
  }

  /** max(1, w): the suboptimality factor of heuristic weight w. */
  function Factor(w: real): real {
    if w < 1.0 then 1.0 else w
  }

  /** What a search with weight w may pay where the cheapest price is `price`. */
  function Allowed(w: real, price: real): real {
    Factor(w) * price
  }

  function Weighted(w: real, estimate: real): real {
    estimate * w
  }

  /** The fixed data of one search. */
  datatype Query = Query(g: Grid, s: Cell, t: Cell, w: real, h: Cell -> real) {
    function Root(): Node {
      Node(s, 0.0, Weighted(w, h(s)), -1)
    }

    function Child(cur: Node, ci: int, b: Cell): Node {
      Node(b, cur.g + StepCost(g, cur.cell, b), Weighted(w, h(b)), ci)
    }

    /** A node is the root or a legal move away from an earlier closed node. */
    ghost predicate Derived(closed: seq<Node>, bound: nat, n: Node)
      requires bound <= |closed|
    {
      n == Root() ||
      (0 <= n.parent < bound &&
       Edge(g, closed[n.parent].cell, n.cell) &&
       n == Child(closed[n.parent], n.parent, n.cell))
    }
  }

  /** Some open entry reaches c at price at most bound. */
  ghost predicate HasEntry(open: multiset<Node>, c: Cell, bound: real) {
    exists o :: o in open && o.cell == c && o.g <= bound
  }

  ghost predicate WithinFactor(q: Query, n: Node) {
    forall p :: LegalPath(q.g, p, q.s, n.cell) ==> n.g <= Allowed(q.w, PathCost(q.g, p))
  }

  ghost predicate ClosedTree(q: Query, closed: seq<Node>) {
    && (forall i :: 0 <= i < |closed| ==> q.Derived(closed, i, closed[i]))
    && (forall i, j :: 0 <= i < j < |closed| ==> closed[i].cell != closed[j].cell)
  }

  ghost predicate VisitedIs(closed: seq<Node>, visited: set<Cell>) {
    && (forall i :: 0 <= i < |closed| ==> closed[i].cell in visited)
    && (forall c :: c in visited ==> exists i :: 0 <= i < |closed| && closed[i].cell == c)
  }

  /** Every legal move out of a closed cell into an unvisited one is on offer. */
  ghost predicate Frontier(q: Query, closed: seq<Node>, visited: set<Cell>, open: multiset<Node>) {
    && (q.s !in visited ==> HasEntry(open, q.s, 0.0))
    && (forall i, b :: 0 <= i < |closed| && b !in visited && Edge(q.g, closed[i].cell, b) ==>
          HasEntry(open, b, q.Child(closed[i], i, b).g))
  }

  ghost predicate SearchInv(q: Query, closed: seq<Node>, visited: set<Cell>, open: multiset<Node>) {
    && ClosedTree(q, closed)
    && VisitedIs(closed, visited)
    && Frontier(q, closed, visited, open)
    && (forall o :: o in open ==> q.Derived(closed, |closed|, o))
    && (forall i :: 0 <= i < |closed| ==> WithinFactor(q, closed[i]))
  }

  predicate IsMinimal(open: multiset<Node>, cur: Node) {
    cur in open && forall o :: o in open ==> cur.F() <= o.F()
  }

  // ---- the suboptimality argument ----

  lemma WeightedMonotone(w: real, a: real, b: real)
    requires w >= 0.0 && a <= b
    ensures Weighted(w, a) <= Weighted(w, b)
  {
    ScaleLess(a, b, w);
  }

  lemma WeightedSum(w: real, a: real, b: real)
    ensures Weighted(w, a + b) == Weighted(w, a) + Weighted(w, b)
  {
  }

  lemma WeightedAllowed(w: real, a: real)
    requires a >= 0.0
    ensures Weighted(w, a) <= Allowed(w, a)
  {
    ScaleLess(w, Factor(w), a);
    assert w * a == a * w;
  }

  lemma AllowedSum(w: real, a: real, b: real)
    ensures Allowed(w, a + b) == Allowed(w, a) + Allowed(w, b)
  {
    Distribute(Factor(w), a, b);
  }

  lemma ScaleBound(w: real, prefix: real, rest: real, g1: real, h1: real, h2: real, cur: real)
    requires w >= 0.0 && rest >= 0.0
    requires g1 <= Allowed(w, prefix)
    requires h1 <= rest + h2
    requires cur + Weighted(w, h2) <= g1 + Weighted(w, h1)
    ensures cur <= Allowed(w, prefix + rest)
  {
    hide Weighted, Allowed;
    WeightedMonotone(w, h1, rest + h2);
    WeightedSum(w, rest, h2);
    WeightedAllowed(w, rest);
    AllowedSum(w, prefix, rest);
  }

  lemma ScaleStep(w: real, price: real, step: real, g1: real)
    requires step >= 0.0 && g1 <= Allowed(w, price)
    ensures g1 + step <= Allowed(w, price + step)
  {
    ProductNonNegative(Factor(w) - 1.0, step);
  }

  /** The first cell of a path that is not visited yet. */
  lemma FirstUnvisited(p: seq<Cell>, visited: set<Cell>) returns (i: nat)
    requires |p| > 0 && p[|p| - 1] !in visited
    ensures i < |p| && p[i] !in visited
    ensures i > 0 ==> p[i - 1] in visited
  {
    i := 0;
    while p[i] in visited
      invariant i < |p|
      invariant i > 0 ==> p[i - 1] in visited
      decreases |p| - i
    {
      i := i + 1;
    }
  }

  /** An open entry on the path, at the path's first unvisited cell. */
  lemma EntryOnPath(q: Query, closed: seq<Node>, visited: set<Cell>, open: multiset<Node>,
                    p: seq<Cell>, t: Cell, i: nat)
    requires VisitedIs(closed, visited) && Frontier(q, closed, visited, open)
    requires forall k :: 0 <= k < |closed| ==> WithinFactor(q, closed[k])
    requires LegalPath(q.g, p, q.s, t) && i < |p| && p[i] !in visited
    requires i > 0 ==> p[i - 1] in visited
    ensures HasEntry(open, p[i], Allowed(q.w, PathCost(q.g, p[..i + 1])))
  {
    if i > 0 {
      var k :| 0 <= k < |closed| && closed[k].cell == p[i - 1];
      EntryAfter(q, closed[k], k, p, t, i);
      assert EdgeAt(q.g, p, i - 1);
      EntryWeaken(open, p[i], q.Child(closed[k], k, p[i]).g, Allowed(q.w, PathCost(q.g, p[..i + 1])));
    }
  }

  lemma EntryWeaken(open: multiset<Node>, c: Cell, low: real, high: real)
    requires HasEntry(open, c, low) && low <= high
    ensures HasEntry(open, c, high)
  {
  }

  /** Stepping along the path from a bounded closed node stays in the bound. */
  lemma EntryAfter(q: Query, n: Node, k: int, p: seq<Cell>, t: Cell, i: nat)
    requires WithinFactor(q, n)
    requires LegalPath(q.g, p, q.s, t) && 0 < i < |p| && n.cell == p[i - 1]
    ensures q.Child(n, k, p[i]).g <= Allowed(q.w, PathCost(q.g, p[..i + 1]))
  {
    PathPrefix(q.g, p, q.s, t, i);
    assert p[..i + 1][..i] == p[..i];
    ScaleStep(q.w, PathCost(q.g, p[..i]), StepCost(q.g, p[i - 1], p[i]), n.g);
  }

  /** The popped node is no dearer than its factor times a path through an open entry. */
  lemma MinimalEntryBound(q: Query, o: Node, cur: Node, prefix: real, total: real)
    requires q.w >= 0.0 && prefix <= total
    requires q.h(o.cell) <= total - prefix + q.h(cur.cell)
    requires o.g <= Allowed(q.w, prefix)
    requires o.h == Weighted(q.w, q.h(o.cell)) && cur.h == Weighted(q.w, q.h(cur.cell))
    requires cur.F() <= o.F()
    ensures cur.g <= Allowed(q.w, total)
  {
    assert prefix + (total - prefix) == total;
    ScaleBound(q.w, prefix, total - prefix, o.g, q.h(o.cell), q.h(cur.cell), cur.g);
  }

  lemma OpenEntryBound(q: Query, open: multiset<Node>, cur: Node, p: seq<Cell>, i: nat)
    requires q.w >= 0.0 && IsMinimal(open, cur) && Consistent(q.g, q.h)
    requires forall o :: o in open ==> o.h == Weighted(q.w, q.h(o.cell))
    requires LegalPath(q.g, p, q.s, cur.cell) && i < |p|
    requires HasEntry(open, p[i], Allowed(q.w, PathCost(q.g, p[..i + 1])))
    ensures cur.g <= Allowed(q.w, PathCost(q.g, p))
  {
    var prefix, total := PathCost(q.g, p[..i + 1]), PathCost(q.g, p);
    var o :| o in open && o.cell == p[i] && o.g <= Allowed(q.w, prefix);
    EstimateAlong(q.g, p, q.s, cur.cell, i, q.h);
    PathCostMonotone(q.g, p, i + 1);
    MinimalEntryBound(q, o, cur, prefix, total);
  }

  /** A popped unvisited node is within the factor of every path to its cell. */
  lemma PoppedWithinFactor(q: Query, closed: seq<Node>, visited: set<Cell>, open: multiset<Node>, cur: Node)
    requires SearchInv(q, closed, visited, open) && q.w >= 0.0 && Consistent(q.g, q.h)
    requires IsMinimal(open, cur) && cur.cell !in visited
    ensures WithinFactor(q, cur)
  {
    forall p | LegalPath(q.g, p, q.s, cur.cell)
      ensures cur.g <= Allowed(q.w, PathCost(q.g, p))
    {
      var i := FirstUnvisited(p, visited);
      EntryOnPath(q, closed, visited, open, p, cur.cell, i);
      OpenEntryBound(q, open, cur, p, i);
    }
  }

  // ---- what each step of the search keeps ----

  /** Dropping a stale entry of a visited cell. */
  lemma SkipKeepsInv(q: Query, closed: seq<Node>, visited: set<Cell>, open: multiset<Node>, cur: Node)
    requires SearchInv(q, closed, visited, open)
    requires cur in open && cur.cell in visited
    ensures SearchInv(q, closed, visited, open - multiset{cur})
  {
    var rest := open - multiset{cur};
    forall c, bound | c !in visited && HasEntry(open, c, bound)
      ensures HasEntry(rest, c, bound)
    {
      var o :| o in open && o.cell == c && o.g <= bound;
      assert o in rest;
    }
  }

  /** The open list after cur was closed as number ci and its moves were pushed. */
  ghost predicate Expanded(q: Query, visited: set<Cell>, before: multiset<Node>, cur: Node, ci: nat,
                           after: multiset<Node>)
  {
    && (forall o :: o in before && o.cell != cur.cell ==> o in after)
    && (forall o :: o in after ==>
          o in before || (Edge(q.g, cur.cell, o.cell) && o == q.Child(cur, ci, o.cell)))
    && (forall b :: Edge(q.g, cur.cell, b) && b !in visited ==> q.Child(cur, ci, b) in after)
  }

  lemma RestExpanded(q: Query, visited: set<Cell>, open: multiset<Node>, cur: Node, ci: nat, after: multiset<Node>)
    requires Expanded(q, visited, open - multiset{cur}, cur, ci, after)
    ensures Expanded(q, visited, open, cur, ci, after)
  {
    assert forall o :: o in open && o.cell != cur.cell ==> o in open - multiset{cur};
  }

  lemma ExpandKeepsFrontier(q: Query, closed: seq<Node>, visited: set<Cell>, open: multiset<Node>,
                            cur: Node, after: multiset<Node>)
    requires Frontier(q, closed, visited, open)
    requires Expanded(q, visited + {cur.cell}, open, cur, |closed|, after)
    ensures Frontier(q, closed + [cur], visited + {cur.cell}, after)
  {
    var closed', visited' := closed + [cur], visited + {cur.cell};
    forall c, bound | c !in visited' && HasEntry(open, c, bound)
      ensures HasEntry(after, c, bound)
    {
      var o :| o in open && o.cell == c && o.g <= bound;
      assert o in after;
    }
    forall i, b | 0 <= i < |closed'| && b !in visited' && Edge(q.g, closed'[i].cell, b)
      ensures HasEntry(after, b, q.Child(closed'[i], i, b).g)
    {
      if i < |closed| {
        assert Edge(q.g, closed[i].cell, b);
      } else {
        assert q.Child(cur, i, b) in after;
      }
    }
  }

  lemma ExpandKeepsInv(q: Query, closed: seq<Node>, visited: set<Cell>, open: multiset<Node>,
                       cur: Node, after: multiset<Node>)
    requires SearchInv(q, closed, visited, open) && q.w >= 0.0 && Consistent(q.g, q.h)
    requires IsMinimal(open, cur) && cur.cell !in visited
    requires Expanded(q, visited + {cur.cell}, open, cur, |closed|, after)
    ensures SearchInv(q, closed + [cur], visited + {cur.cell}, after)
  {
    hide Frontier, VisitedIs, ClosedTree, WithinFactor, Edge;
    PoppedWithinFactor(q, closed, visited, open, cur);
    ExpandKeepsFrontier(q, closed, visited, open, cur, after);
    VisitedGrows(closed, visited, cur);
    TreeGrows(q, closed, visited, cur);
    assert forall o :: o in after ==> q.Derived(closed + [cur], |closed| + 1, o) by {
      DerivedGrows(q, closed, cur, open, after);
    }
  }

  /** The queue is ordered by price plus weight times estimate, for every entry ever open. */
  lemma EntriesScored(q: Query, closed: seq<Node>, visited: set<Cell>, open: multiset<Node>, o: Node)
    requires SearchInv(q, closed, visited, open) && o in open
    ensures o.F() == o.g + q.w * q.h(o.cell)
  {
    hide Frontier, VisitedIs, ClosedTree, WithinFactor, Edge;
    DerivedScore(q, closed, |closed|, o);
  }

  lemma DerivedScore(q: Query, closed: seq<Node>, bound: nat, n: Node)
    requires bound <= |closed| && q.Derived(closed, bound, n)
    ensures n.h == q.w * q.h(n.cell)
  {
    hide Edge;
  }

  lemma TreeGrows(q: Query, closed: seq<Node>, visited: set<Cell>, cur: Node)
    requires ClosedTree(q, closed) && VisitedIs(closed, visited)
    requires q.Derived(closed, |closed|, cur) && cur.cell !in visited
    ensures ClosedTree(q, closed + [cur])
  {
    var closed' := closed + [cur];
    forall i | 0 <= i < |closed'| ensures q.Derived(closed', i, closed'[i]) {
      if i < |closed| {
        assert q.Derived(closed, i, closed[i]);
      }
    }
  }

  lemma DerivedGrows(q: Query, closed: seq<Node>, cur: Node, open: multiset<Node>, after: multiset<Node>)
    requires forall o :: o in open ==> q.Derived(closed, |closed|, o)
    requires forall o :: o in after ==>
      o in open || (Edge(q.g, cur.cell, o.cell) && o == q.Child(cur, |closed|, o.cell))
    ensures forall o :: o in after ==> q.Derived(closed + [cur], |closed| + 1, o)
  {
    forall o | o in after ensures q.Derived(closed + [cur], |closed| + 1, o) {
      if o in open {
        assert q.Derived(closed, |closed|, o);
      }
    }
  }

  lemma VisitedGrows(closed: seq<Node>, visited: set<Cell>, cur: Node)
    requires VisitedIs(closed, visited)
    ensures VisitedIs(closed + [cur], visited + {cur.cell})
  {
    var closed' := closed + [cur];
    forall c | c in visited + {cur.cell} ensures exists i :: 0 <= i < |closed'| && closed'[i].cell == c {
      if c == cur.cell {
        assert closed'[|closed|].cell == c;
      } else {
        var i :| 0 <= i < |closed| && closed[i].cell == c;
        assert closed'[i].cell == c;
      }
    }
  }

  lemma InitialInv(q: Query)
    ensures SearchInv(q, [], {}, multiset{q.Root()})
  {
    var o := q.Root();
    assert o in multiset{o} && o.cell == q.s && o.g <= 0.0;
  }

  // ---- the exits of the search ----

  ghost predicate Reachable(g: Grid, s: Cell, t: Cell) {
    exists p :: LegalPath(g, p, s, t)
  }

  /** With nothing left open, the visited cells are all that can be reached. */
  lemma ExhaustedMeansUnreachable(q: Query, closed: seq<Node>, visited: set<Cell>)
    requires SearchInv(q, closed, visited, multiset{}) && q.t !in visited
    ensures !Reachable(q.g, q.s, q.t)
  {
    forall p | LegalPath(q.g, p, q.s, q.t) ensures false {
      var i := FirstUnvisited(p, visited);
      EntryOnPath(q, closed, visited, multiset{}, p, q.t, i);
    }
  }

  /** Every closed cell but the start is a traversable cell of the grid. */
  lemma ClosedInGrid(q: Query, closed: seq<Node>, visited: set<Cell>, open: multiset<Node>)
    requires SearchInv(q, closed, visited, open) && q.g.Inside(q.s)
    ensures |closed| <= q.g.width * q.g.height
  {
    var all := GridCells(q.g.width, q.g.height);
    GridSize(q.g.width, q.g.height);
    var cells := seq(|closed|, i requires 0 <= i < |closed| => closed[i].cell);
    forall i | 0 <= i < |closed| ensures cells[i] in all {
      assert q.Derived(closed, i, closed[i]);
    }
    Pigeonhole(cells, all);
  }

  // ---- reading the path back ----

  /** The cells from the root to closed node i. */
  ghost function Trace(q: Query, closed: seq<Node>, i: nat): (p: seq<Cell>)
    requires i < |closed| && ClosedTree(q, closed)
    ensures |p| > 0
  {
    assert q.Derived(closed, i, closed[i]);
    if closed[i].parent < 0 then [closed[i].cell]
    else Trace(q, closed, closed[i].parent) + [closed[i].cell]
  }

  lemma {:induction false} TraceIsPath(q: Query, closed: seq<Node>, i: nat)
    requires i < |closed| && ClosedTree(q, closed)
    ensures LegalPath(q.g, Trace(q, closed, i), q.s, closed[i].cell)
    ensures PathCost(q.g, Trace(q, closed, i)) == closed[i].g
  {
    assert q.Derived(closed, i, closed[i]);
    if closed[i].parent >= 0 {
      var j := closed[i].parent;
      TraceIsPath(q, closed, j);
      var head, p := Trace(q, closed, j), Trace(q, closed, i);
      assert p[..|p| - 1] == head;
      forall k: nat | k + 1 < |p| ensures EdgeAt(q.g, p, k) {
        if k + 1 < |head| {
          assert EdgeAt(q.g, head, k);
        }
      }
    }
  }

  ghost predicate AmongFirst(closed: seq<Node>, n: nat, c: Cell)
    requires n <= |closed|
  {
    exists k :: 0 <= k < n && closed[k].cell == c
  }

  lemma {:induction false} TraceRepeatsNothing(q: Query, closed: seq<Node>, i: nat)
    requires i < |closed| && ClosedTree(q, closed)
    ensures NoRepeats(Trace(q, closed, i))
    ensures forall c :: c in Trace(q, closed, i) ==> AmongFirst(closed, i + 1, c)
  {
    assert q.Derived(closed, i, closed[i]);
    if closed[i].parent >= 0 {
      var j := closed[i].parent;
      TraceRepeatsNothing(q, closed, j);
      var head := Trace(q, closed, j);
      forall c | c in head ensures AmongFirst(closed, i + 1, c) && c != closed[i].cell {
        assert AmongFirst(closed, j + 1, c);
      }
      NoRepeatsAppend(head, closed[i].cell);
    }
  }

  // ---- the planner ----

  lemma {:induction false} MinimalExists(open: multiset<Node>)
    requires open != multiset{}
    ensures exists cur :: IsMinimal(open, cur)
  {
    var o :| o in open;
    var rest := open - multiset{o};
    if rest == multiset{} {
      forall x | x in open ensures x == o {
        assert x == o || x in rest;
      }
      assert IsMinimal(open, o);
    } else {
      MinimalExists(rest);
      var m :| IsMinimal(rest, m);
      var best := if o.F() <= m.F() then o else m;
      forall x | x in open ensures best.F() <= x.F() {
        assert x == o || x in rest;
      }
      assert IsMinimal(open, best);
    }
  }

  /** The queue yields an entry of least f; which one among equals is not promised. */
  method PopMin(open: multiset<Node>) returns (cur: Node, rest: multiset<Node>)
    requires open != multiset{}
    ensures IsMinimal(open, cur) && cur in open && rest == open - multiset{cur}
  {
    MinimalExists(open);
    cur :| IsMinimal(open, cur);
    rest := open - multiset{cur};
  }

  method Expand(q: Query, visited: set<Cell>, open: multiset<Node>, cur: Node, ci: nat)
    returns (after: multiset<Node>)
    ensures Expanded(q, visited, open, cur, ci, after)
    ensures |after| <= |open| + 8
  {
    after := open;
    for i := 0 to 8
      invariant forall o :: o in open ==> o in after
      invariant forall o :: o in after ==>
        o in open || (Edge(q.g, cur.cell, o.cell) && o == q.Child(cur, ci, o.cell))
      invariant forall k: nat :: k < i ==>
        var b := Neighbour(cur.cell, k);
        Edge(q.g, cur.cell, b) && b !in visited ==> q.Child(cur, ci, b) in after
      invariant |after| <= |open| + i
    {
      var n := Neighbour(cur.cell, i);
      if !q.g.Traversable(n) { continue; }
      if n in visited { continue; }
      var diag := DX[i] != 0 && DY[i] != 0;
      if diag {
        if !q.g.Traversable(Cell(cur.cell.x + DX[i], cur.cell.y)) ||
           !q.g.Traversable(Cell(cur.cell.x, cur.cell.y + DY[i])) { continue; }
      }
      var step := (if diag then DIAGONAL else CARDINAL) + q.g.At(n) as real / 253.0;
      after := after + multiset{Node(n, cur.g + step, Weighted(q.w, q.h(n)), ci)};
    }
    forall b | Edge(q.g, cur.cell, b) && b !in visited
      ensures q.Child(cur, ci, b) in after
    {
      var k := DirectionOf(cur.cell, b);
      assert b == Neighbour(cur.cell, k);
    }
  }

  lemma DirectionOf(a: Cell, b: Cell) returns (k: nat)
    requires Adjacent(a, b)
    ensures k < 8 && b == Neighbour(a, k)
  {
    var i := (b.y - a.y + 1) * 3 + (b.x - a.x + 1);
    k := if i < 4 then i else i - 1;
  }

  ghost function TraceOrNone(q: Query, closed: seq<Node>, i: int): seq<Cell>
    requires i < |closed| && ClosedTree(q, closed)
  {
    if i >= 0 then Trace(q, closed, i) else []
  }

  lemma {:induction false} TraceShort(q: Query, closed: seq<Node>, i: nat)
    requires i < |closed| && ClosedTree(q, closed)
    ensures |Trace(q, closed, i)| <= i + 1
  {
    assert q.Derived(closed, i, closed[i]);
    if closed[i].parent >= 0 {
      TraceShort(q, closed, closed[i].parent);
    }
  }

  lemma TraceStep(q: Query, closed: seq<Node>, i: nat)
    requires i < |closed| && ClosedTree(q, closed)
    ensures closed[i].parent < i
    ensures Trace(q, closed, i) == TraceOrNone(q, closed, closed[i].parent) + [closed[i].cell]
  {
    assert q.Derived(closed, i, closed[i]);
  }

  lemma Shifted(a: seq<Cell>, c: Cell, b: seq<Cell>)
    ensures (a + [c]) + b == a + ([c] + b)
  {
  }

  /** parents chain from gi back to the root, reversed. */
  method Reconstruct(ghost q: Query, closed: seq<Node>, gi: nat) returns (path: seq<Cell>)
    requires gi < |closed| && ClosedTree(q, closed)
    ensures path == Trace(q, closed, gi)
  {
    assert Reversed<Cell>([]) == [];
    hide Trace, ClosedTree, Reversed;
    path := [];
    var idx := gi as int;
    while 0 <= idx < |closed|
      invariant idx < |closed|
      invariant Trace(q, closed, gi) == TraceOrNone(q, closed, idx) + Reversed(path)
      decreases idx
    {
      TraceStep(q, closed, idx);
      ReversedAppend(path, closed[idx].cell);
      Shifted(TraceOrNone(q, closed, closed[idx].parent), closed[idx].cell, Reversed(path));
      path := path + [closed[idx].cell];
      idx := closed[idx].parent;
    }
    path := Reversed(path);
  }

  /** The search between two iterations. */
  datatype Stage = Stage(closed: seq<Node>, visited: set<Cell>, open: multiset<Node>)

  /** One iteration: a cheapest entry is taken out. It is stale, or its cell, not the goal, is closed
      and its moves are pushed. */
  ghost predicate Iterates(q: Query, a: Stage, b: Stage) {
    exists cur :: IsMinimal(a.open, cur) &&
      var rest := a.open - multiset{cur};
      if cur.cell in a.visited then b == a.(open := rest)
      else
        && cur.cell != q.t && b.closed == a.closed + [cur] && b.visited == a.visited + {cur.cell}
        && Expanded(q, b.visited, rest, cur, |a.closed|, b.open)
  }

  ghost predicate IterationAt(q: Query, stages: seq<Stage>, k: nat)
    requires k + 1 < |stages|
  {
    Iterates(q, stages[k], stages[k + 1])
  }

  ghost predicate SearchRun(q: Query, stages: seq<Stage>, iterations: int) {
    && |stages| == iterations + 1 > 0 && stages[0] == Stage([], {}, multiset{q.Root()})
    && forall k: nat :: k < iterations ==> IterationAt(q, stages, k)
  }

  /** So many iterations can go by without the goal being taken out. */
  ghost predicate CapReached(q: Query, iterations: nat) {
    exists stages :: SearchRun(q, stages, iterations)
  }

  lemma RunStarts(q: Query, stages: seq<Stage>)
    requires stages == [Stage([], {}, multiset{q.Root()})]
    ensures SearchRun(q, stages, 0)
  {
  }

  lemma Longer(q: Query, stages: seq<Stage>, iterations: nat, next: Stage) returns (longer: seq<Stage>)
    requires SearchRun(q, stages, iterations) && |stages| == iterations + 1
    requires Iterates(q, stages[iterations], next)
    ensures SearchRun(q, longer, iterations + 1) && |longer| == iterations + 2 && longer[iterations + 1] == next
  {
    hide Iterates;
    longer := stages + [next];
    forall k: nat | k < iterations + 1 ensures IterationAt(q, longer, k) {
      if k < iterations {
        assert IterationAt(q, stages, k);
      }
    }
  }

  lemma StageSkips(q: Query, a: Stage, cur: Node)
    requires IsMinimal(a.open, cur) && cur.cell in a.visited
    ensures Iterates(q, a, a.(open := a.open - multiset{cur}))
  {
  }

  lemma StageExpands(q: Query, a: Stage, cur: Node, after: multiset<Node>)
    requires IsMinimal(a.open, cur) && cur.cell !in a.visited && cur.cell != q.t
    requires Expanded(q, a.visited + {cur.cell}, a.open - multiset{cur}, cur, |a.closed|, after)
    ensures Iterates(q, a, Stage(a.closed + [cur], a.visited + {cur.cell}, after))
  {
    hide Expanded;
    var b := Stage(a.closed + [cur], a.visited + {cur.cell}, after);
    assert IsMinimal(a.open, cur);
  }

  method Search(q: Query, maxIterations: int) returns (path: seq<Cell>)
    requires q.w >= 0.0 && Consistent(q.g, q.h) && q.g.Inside(q.s)
    ensures path != [] ==>
      && LegalPath(q.g, path, q.s, q.t) && NoRepeats(path)
      && forall p :: LegalPath(q.g, p, q.s, q.t) ==>
           PathCost(q.g, path) <= Allowed(q.w, PathCost(q.g, p))
    ensures |path| <= maxIterations || path == []
    ensures path == [] && maxIterations >= 8 * (q.g.width * q.g.height) + 1 ==> !Reachable(q.g, q.s, q.t)
    ensures path == [] ==> !Reachable(q.g, q.s, q.t) || CapReached(q, if maxIterations < 0 then 0 else maxIterations)
  {
    hide SearchRun, Iterates, SearchInv, ClosedTree, Consistent, LegalPath, NoRepeats, Allowed, PathCost, Trace,
         Reachable, IsMinimal, Expanded;
    var closed: seq<Node> := [];
    var visited: set<Cell> := {};
    var open := multiset{q.Root()};
    InitialInv(q);
    var iter := 0;
    ghost var stages := [Stage(closed, visited, open)];
    RunStarts(q, stages);
    while open != multiset{} && iter < maxIterations
      invariant SearchInv(q, closed, visited, open)
      invariant q.t !in visited
      invariant iter + |open| <= 8 * |closed| + 1
      invariant |closed| <= iter <= maxIterations || iter == |closed| == 0
      invariant SearchRun(q, stages, iter) && |stages| == iter + 1
      invariant stages[iter] == Stage(closed, visited, open)
      decreases maxIterations - iter
    {
      iter := iter + 1;
      var cur, rest := PopMin(open);
      ghost var now := Stage(closed, visited, open);
      if cur.cell in visited {
        SkipKeepsInv(q, closed, visited, open, cur);
        StageSkips(q, now, cur);
        open := rest;
        stages := Longer(q, stages, iter - 1, Stage(closed, visited, open));
        continue;
      }
      var ci := |closed|;
      if cur.cell == q.t {
        GoalClosed(q, closed, visited, open, cur);
        path := Reconstruct(q, closed + [cur], ci);
        TraceShort(q, closed + [cur], ci);
        return;
      }
      var after := Expand(q, visited + {cur.cell}, rest, cur, ci);
      RestExpanded(q, visited + {cur.cell}, open, cur, ci, after);
      ExpandKeepsInv(q, closed, visited, open, cur, after);
      StageExpands(q, now, cur, after);
      visited := visited + {cur.cell};
      closed := closed + [cur];
      open := after;
      stages := Longer(q, stages, iter - 1, Stage(closed, visited, open));
    }
    path := [];
    assert CapReached(q, iter);
    ClosedInGrid(q, closed, visited, open);
    if open == multiset{} {
      ExhaustedMeansUnreachable(q, closed, visited);
    }
  }

  lemma GoalClosed(q: Query, closed: seq<Node>, visited: set<Cell>, open: multiset<Node>, cur: Node)
    requires SearchInv(q, closed, visited, open) && q.w >= 0.0 && Consistent(q.g, q.h)
    requires IsMinimal(open, cur) && cur.cell !in visited && cur.cell == q.t
    ensures ClosedTree(q, closed + [cur])
    ensures var path := Trace(q, closed + [cur], |closed|);
      && LegalPath(q.g, path, q.s, q.t) && NoRepeats(path)
      && forall p :: LegalPath(q.g, p, q.s, q.t) ==>
           PathCost(q.g, path) <= Allowed(q.w, PathCost(q.g, p))
  {
    PoppedWithinFactor(q, closed, visited, open, cur);
    assert q.Derived(closed, |closed|, cur);
    TreeGrows(q, closed, visited, cur);
    TraceIsPath(q, closed + [cur], |closed|);
    TraceRepeatsNothing(q, closed + [cur], |closed|);
  }

  // ---- endpoint snapping and the whole plan ----

  predicate InDisc(c: Cell, d: Cell, r: real) {
    Dist2(c, d) as real <= r * r
  }

  /** a comes before b in the scan of the disc, row by row. */
  predicate Precedes(a: Cell, b: Cell) {
    a.y < b.y || (a.y == b.y && a.x < b.x)
  }

  /** d is the nearest traversable cell of the disc around c, the first of them in the scan. */
  ghost predicate NearestIn(g: Grid, r: real, c: Cell, d: Cell) {
    && g.Traversable(d) && InDisc(c, d, r)
    && forall e :: g.Traversable(e) && InDisc(c, e, r) ==>
         Dist2(c, d) < Dist2(c, e) || (Dist2(c, d) == Dist2(c, e) && !Precedes(e, d))
  }

  ghost predicate Snaps(g: Grid, r: real, c: Cell, d: Cell) {
    if g.Traversable(c) then d == c else r > 0.0 && NearestIn(g, r, c, d)
  }

  ghost predicate Hopeless(g: Grid, r: real, c: Cell) {
    !g.Traversable(c) && (r > 0.0 ==> forall e :: g.Traversable(e) ==> !InDisc(c, e, r))
  }

  lemma SquareBound(n: int, r: real)
    requires r > 0.0 && (n * n) as real <= r * r
    ensures -r.Floor <= n <= r.Floor
  {
    if n as real > r {
      SquareLess(r, n as real);
    } else if -n as real > r {
      SquareLess(r, -n as real);
    }
  }

  /** The square window of half-width floor(r) covers the whole disc. */
  lemma DiscInWindow(c: Cell, d: Cell, r: real)
    requires r > 0.0 && InDisc(c, d, r)
    ensures -r.Floor <= d.x - c.x <= r.Floor && -r.Floor <= d.y - c.y <= r.Floor
  {
    var dx, dy := d.x - c.x, d.y - c.y;
    assert dx * dx + dy * dy == Dist2(c, d);
    assert dx * dx >= 0 && dy * dy >= 0;
    SquareBound(dx, r);
    SquareBound(dy, r);
  }

  /** Best so far: b is the nearest candidate among the cells scanned. */
  ghost predicate BestOf(g: Grid, r: real, c: Cell, scanned: iset<Cell>, found: bool, b: Cell) {
    && (found ==> g.Traversable(b) && InDisc(c, b, r))
    && (forall e :: e in scanned && g.Traversable(e) && InDisc(c, e, r) ==>
          found && (Dist2(c, b) < Dist2(c, e) || (Dist2(c, b) == Dist2(c, e) && !Precedes(e, b))))
    && (found ==> b in scanned)
  }

  /** Cells before offset (dx, dy) in the scan order. */
  ghost function ScannedBefore(c: Cell, n: int, dx: int, dy: int): iset<Cell> {
    iset e: Cell | -n <= e.x - c.x <= n && -n <= e.y - c.y &&
                   (e.y - c.y < dy || (e.y - c.y == dy && e.x - c.x < dx))
  }

  /** One more cell in the scan: it becomes the best one exactly if it is nearer than the best so far. */
  lemma BestStep(g: Grid, r: real, c: Cell, n: int, dx: int, dy: int, found: bool, b: Cell)
    requires -n <= dx <= n && -n <= dy <= n
    requires BestOf(g, r, c, ScannedBefore(c, n, dx, dy), found, b)
    ensures Dist2(c, Cell(c.x + dx, c.y + dy)) == dx * dx + dy * dy
    ensures var e := Cell(c.x + dx, c.y + dy);
      var taken := g.Traversable(e) && InDisc(c, e, r) && (!found || Dist2(c, e) < Dist2(c, b));
      BestOf(g, r, c, ScannedBefore(c, n, dx + 1, dy), found || taken, if taken then e else b)
  {
    var e := Cell(c.x + dx, c.y + dy);
    assert ScannedBefore(c, n, dx + 1, dy) == ScannedBefore(c, n, dx, dy) + iset{e};
  }

  /** The whole window scanned: the best cell is the nearest of the disc. */
  lemma BestOfAll(g: Grid, r: real, c: Cell, found: bool, b: Cell)
    requires r > 0.0 && !g.Traversable(c)
    requires BestOf(g, r, c, ScannedBefore(c, r.Floor, -r.Floor, r.Floor + 1), found, b)
    ensures if found then Snaps(g, r, c, b) else Hopeless(g, r, c)
  {
    forall e | g.Traversable(e) && InDisc(c, e, r)
      ensures e in ScannedBefore(c, r.Floor, -r.Floor, r.Floor + 1)
    {
      DiscInWindow(c, e, r);
    }
  }

  method SnapEndpoint(g: Grid, r: real, c: Cell) returns (found: bool, snapped: Cell)
    ensures found ==> Snaps(g, r, c, snapped)
    ensures !found ==> Hopeless(g, r, c) && snapped == c
  {
    snapped := c;
    if g.Traversable(c) { return true, c; }
    if r <= 0.0 { return false, c; }
    var n := r.Floor;
    var best := c;
    found := false;
    for dy := -n to n + 1
      invariant BestOf(g, r, c, ScannedBefore(c, n, -n, dy), found, best)
    {
      for dx := -n to n + 1
        invariant BestOf(g, r, c, ScannedBefore(c, n, dx, dy), found, best)
      {
        var e := Cell(c.x + dx, c.y + dy);
        BestStep(g, r, c, n, dx, dy, found, best);
        if (dx * dx + dy * dy) as real > r * r { continue; }
        if !g.Traversable(e) { continue; }
        if !found || Dist2(c, e) < Dist2(c, best) {
          best, found := e, true;
        }
      }
      assert ScannedBefore(c, n, n + 1, dy) == ScannedBefore(c, n, -n, dy + 1);
    }
    BestOfAll(g, r, c, found, best);
    if found { snapped := best; }
  }

  lemma PathTraversable(g: Grid, p: seq<Cell>, s: Cell, t: Cell)
    requires LegalPath(g, p, s, t) && g.Traversable(s)
    ensures forall c :: c in p ==> g.Traversable(c)
  {
    forall i | 0 <= i < |p| ensures g.Traversable(p[i]) {
      if i > 0 {
        assert EdgeAt(g, p, i - 1);
      }
    }
  }

  /** From a to b in one move to a neighbour, past no corner. */
  predicate KeepsOff(g: Grid, a: Cell, b: Cell) {
    var dx, dy := b.x - a.x, b.y - a.y;
    && -1 <= dx <= 1 && -1 <= dy <= 1 && !(dx == 0 && dy == 0)
    && g.Traversable(Cell(a.x + dx, a.y)) && g.Traversable(Cell(a.x, a.y + dy))
  }

  lemma PathKeepsOff(g: Grid, p: seq<Cell>, s: Cell, t: Cell)
    requires LegalPath(g, p, s, t) && g.Traversable(s)
    ensures forall i: nat :: i + 1 < |p| ==> KeepsOff(g, p[i], p[i + 1])
  {
    PathTraversable(g, p, s, t);
    forall i: nat | i + 1 < |p| ensures KeepsOff(g, p[i], p[i + 1]) {
      assert EdgeAt(g, p, i);
      assert p[i] in p && p[i + 1] in p;
    }
  }

  function OctileQuery(g: Grid, s: Cell, t: Cell, w: real): Query {
    Query(g, s, t, w, c => Heuristic(c, t))
  }

  /** The goal is out of reach, or all iterations go by before it is taken out. */
  ghost predicate FindsNothing(g: Grid, params: Params, s: Cell, t: Cell) {
    || !Reachable(g, s, t)
    || CapReached(OctileQuery(g, s, t, params.heuristicWeight),
                  if params.maxIterations < 0 then 0 else params.maxIterations)
  }

  method Plan(g: Grid, params: Params, start: Cell, goal: Cell) returns (path: seq<Cell>)
    requires params.heuristicWeight >= 0.0
    ensures path != [] ==> var s, t := path[0], path[|path| - 1];
      && Snaps(g, params.snapCells, start, s) && Snaps(g, params.snapCells, goal, t)
      && LegalPath(g, path, s, t) && NoRepeats(path)
      && (forall c :: c in path ==> g.Traversable(c))
      && (forall i: nat :: i + 1 < |path| ==> KeepsOff(g, path[i], path[i + 1]))
      && (|path| <= params.maxIterations || path == [s])
      && forall p :: LegalPath(g, p, s, t) ==>
           PathCost(g, path) <= Allowed(params.heuristicWeight, PathCost(g, p))
    ensures path == [] && params.maxIterations >= 8 * (g.width * g.height) + 1 ==>
      || Hopeless(g, params.snapCells, start)
      || Hopeless(g, params.snapCells, goal)
      || exists s, t :: Snaps(g, params.snapCells, start, s) && Snaps(g, params.snapCells, goal, t) &&
                        !Reachable(g, s, t)
    ensures path == [] ==>
      || Hopeless(g, params.snapCells, start)
      || Hopeless(g, params.snapCells, goal)
      || exists s, t :: Snaps(g, params.snapCells, start, s) && Snaps(g, params.snapCells, goal, t) &&
                        FindsNothing(g, params, s, t)
  {
    hide CapReached, Reachable, Consistent;
    var r := params.snapCells;
    var foundS, s := SnapEndpoint(g, r, start);
    if !foundS { return []; }
    var foundT, t := SnapEndpoint(g, r, goal);
    if !foundT { return []; }
    if s == t {
      StayingIsFree(g, params.heuristicWeight, s);
      return [s];
    }
    HeuristicConsistent(g, t);
    var q := OctileQuery(g, s, t, params.heuristicWeight);
    path := Search(q, params.maxIterations);
    if path != [] {
      PathTraversable(g, path, s, t);
      PathKeepsOff(g, path, s, t);
    }
  }

  lemma StayingIsFree(g: Grid, w: real, s: Cell)
    ensures LegalPath(g, [s], s, s) && NoRepeats([s])
    ensures forall p :: LegalPath(g, p, s, s) ==> PathCost(g, [s]) <= Allowed(w, PathCost(g, p))
  {
    forall p | LegalPath(g, p, s, s) ensures PathCost(g, [s]) <= Allowed(w, PathCost(g, p)) {
      PathCostMonotone(g, p, 1);
      ProductNonNegative(Factor(w), PathCost(g, p));
    }
  }
}
