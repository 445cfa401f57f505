/** DBSCAN over Cartesian points, with a worklist that grows while it is scanned. */
module ClusterDetector {
  import opened Sequences

  datatype Point = Point(x: real, y: real)

  const UNVISITED: int := -1
  const NOISE: int := -2

  /** The input of one run. */
  datatype Scan = Scan(points: seq<Point>, eps: real, minPts: int) {
    predicate Near(i: nat, j: nat)
      requires i < |points| && j < |points|
    {
      var dx, dy := points[i].x - points[j].x, points[i].y - points[j].y;
      dx * dx + dy * dy <= eps * eps
    }

    /** Indices below k, other than i, within eps of point i. */
    function Region(i: nat, k: nat): (r: seq<nat>)
      requires i < |points| && k <= |points|
      ensures forall j: nat :: j in r <==> j < k && j != i && Near(i, j)
    {
      if k == 0 then []
      else if k - 1 != i && Near(i, k - 1) then Region(i, k - 1) + [k - 1]
      else Region(i, k - 1)
    }

    function Neighbours(i: nat): seq<nat>
      requires i < |points|
    {
      Region(i, |points|)
    }

    predicate Adjacent(i: nat, j: nat) {
      i < |points| && j < |points| && i != j && Near(i, j)
    }

    /** The seed test counts the point itself. */
    predicate Core(i: nat)
      requires i < |points|
    {
      |Neighbours(i)| + 1 >= minPts
    }

    /** The expansion test does not. */
    predicate Strong(i: nat)
      requires i < |points|
    {
      |Neighbours(i)| >= minPts
    }
  }

  /** A neighbourhood holds exactly the other points within eps... */
  lemma NeighboursExact(s: Scan, i: nat, j: nat)
    requires i < |s.points| && j < |s.points|
    ensures j in s.Neighbours(i) <==> j != i && SquaredDistance(s.points[i], s.points[j]) <= s.eps * s.eps
  {
    SquareExpands(s.points[i].x, s.points[j].x);
    SquareExpands(s.points[i].y, s.points[j].y);
  }

  predicate Ascends(r: seq<nat>) {
    forall a, b :: 0 <= a < b < |r| ==> r[a] < r[b]
  }

  /** ...in index order. */
  lemma {:induction false} RegionAscends(s: Scan, i: nat, k: nat)
    requires i < |s.points| && k <= |s.points|
    ensures Ascends(s.Region(i, k))
  {
    if k > 0 {
      RegionAscends(s, i, k - 1);
      var before := s.Region(i, k - 1);
      forall a | 0 <= a < |before| ensures before[a] < k - 1 {
        assert before[a] in before;
      }
    }
  }

  function SquaredDistance(a: Point, b: Point): real {
    (a.x * a.x - 2.0 * a.x * b.x + b.x * b.x) + (a.y * a.y - 2.0 * a.y * b.y + b.y * b.y)
  }

  lemma SquareExpands(a: real, b: real)
    ensures (a - b) * (a - b) == a * a - 2.0 * a * b + b * b
  {
  }

  lemma AdjacentSymmetric(s: Scan, i: nat, j: nat)
    ensures s.Adjacent(i, j) <==> s.Adjacent(j, i)
  {
    if i < |s.points| && j < |s.points| {
      SquareOfNegated(s.points[i].x - s.points[j].x, s.points[j].x - s.points[i].x);
      SquareOfNegated(s.points[i].y - s.points[j].y, s.points[j].y - s.points[i].y);
    }
  }

  lemma SquareOfNegated(a: real, b: real)
    requires a == -b
    ensures a * a == b * b
  {
  }

  // ---- what a labelling means ----

  ghost predicate LinkAt(s: Scan, p: seq<nat>, k: nat)
    requires k + 1 < |p|
  {
    s.Adjacent(p[k], p[k + 1])
  }

  /** p leads from a to b by eps-steps inside cluster c; all points between the ends are strong. */
  ghost predicate Chain(s: Scan, labels: seq<int>, c: int, p: seq<nat>, a: nat, b: nat)
    requires |labels| == |s.points|
  {
    && |p| > 0 && p[0] == a && p[|p| - 1] == b
    && (forall k :: 0 <= k < |p| ==> p[k] < |labels| && labels[p[k]] == c)
    && (forall k: nat :: k + 1 < |p| ==> LinkAt(s, p, k))
    && (forall k :: 0 < k < |p| - 1 ==> s.Strong(p[k]))
  }

  ghost predicate Linked(s: Scan, labels: seq<int>, c: int, a: nat, b: nat)
    requires |labels| == |s.points|
  {
    exists p :: Chain(s, labels, c, p, a, b)
  }

  /** The points whose neighbourhood was merged: seeds and labelled strong cores. */
  predicate Expands(s: Scan, seeds: seq<nat>, x: nat)
    requires x < |s.points|
  {
    s.Strong(x) || x in seeds
  }

  /** A correct labelling with one cluster per seed. */
  ghost predicate Labelled(s: Scan, labels: seq<int>, seeds: seq<nat>) {
    && |labels| == |s.points|
    && (forall x: nat :: x < |labels| ==> labels[x] == UNVISITED || labels[x] == NOISE || 0 <= labels[x] < |seeds|)
    && (forall c :: 0 <= c < |seeds| ==> seeds[c] < |labels| && labels[seeds[c]] == c && s.Core(seeds[c]))
    // noise is never a core
    && (forall x: nat :: x < |labels| && labels[x] == NOISE ==> !s.Core(x))
    // whatever is within eps of an expanded point is in some cluster
    && (forall x: nat, y: nat :: x < |labels| && labels[x] >= 0 && Expands(s, seeds, x) && s.Adjacent(x, y) ==>
          labels[y] >= 0)
    // adjacent strong cores share the label as soon as one has it
    && (forall x: nat, y: nat :: x < |labels| && labels[x] >= 0 && s.Adjacent(x, y) && s.Strong(x) && s.Strong(y) ==>
          labels[y] == labels[x])
    // every member is tied to its seed
    && (forall x: nat :: x < |labels| && labels[x] >= 0 ==> Linked(s, labels, labels[x], seeds[labels[x]], x))
  }

  /** What the scan order adds: seeds are found in index order, no core precedes the seed of
      its cluster, and an expanded point has no neighbour in a later cluster. */
  ghost predicate Ordered(s: Scan, labels: seq<int>, seeds: seq<nat>) {
    && |labels| == |s.points|
    && (forall c, d :: 0 <= c < d < |seeds| ==> seeds[c] < seeds[d])
    && (forall x: nat :: x < |labels| && labels[x] >= 0 && s.Core(x) ==>
          labels[x] < |seeds| && seeds[labels[x]] <= x)
    && (forall x: nat, y: nat :: x < |labels| && labels[x] >= 0 && Expands(s, seeds, x) && s.Adjacent(x, y) ==>
          labels[y] <= labels[x])
  }

  // ---- the expansion of one cluster ----

  /** Labels move only from unvisited or noise to the new cluster. */
  ghost predicate Grown(before: seq<int>, labels: seq<int>, c: int) {
    && |labels| == |before|
    && forall x: nat :: x < |labels| ==> labels[x] == before[x] || (before[x] < 0 && labels[x] == c)
  }

  /** The worklist, with the member each entry was found from. */
  ghost predicate Found(s: Scan, labels: seq<int>, c: int, seed: nat, work: seq<nat>, from: seq<nat>)
    requires |labels| == |s.points| && seed < |labels|
  {
    && |from| == |work|
    && forall k :: 0 <= k < |work| ==>
         && work[k] < |labels| && from[k] < |labels| && labels[from[k]] == c
         && (from[k] == seed || s.Strong(from[k])) && s.Adjacent(from[k], work[k])
  }

  /** Neighbourhoods of expanded members are in the worklist. */
  ghost predicate Merged(s: Scan, labels: seq<int>, c: int, seed: nat, work: seq<nat>)
    requires |labels| == |s.points|
  {
    forall x: nat, y: nat :: x < |labels| && labels[x] == c && (x == seed || s.Strong(x)) && s.Adjacent(x, y) ==>
      y in work
  }

  ghost predicate Tied(s: Scan, labels: seq<int>, c: int, seed: nat)
    requires |labels| == |s.points|
  {
    forall x: nat :: x < |labels| && labels[x] == c ==> Linked(s, labels, c, seed, x)
  }

  ghost predicate Expanding(s: Scan, before: seq<int>, labels: seq<int>, seeds: seq<nat>, seed: nat,
                            work: seq<nat>, from: seq<nat>, j: nat) {
    && Labelled(s, before, seeds) && Grown(before, labels, |seeds|) && |labels| == |s.points|
    && seed < |labels| && before[seed] == UNVISITED && labels[seed] == |seeds| && s.Core(seed)
    && Found(s, labels, |seeds|, seed, work, from)
    && Merged(s, labels, |seeds|, seed, work)
    && Tied(s, labels, |seeds|, seed)
    && j <= |work| && forall k :: 0 <= k < j ==> labels[work[k]] >= 0
  }

  lemma ChainKept(s: Scan, labels: seq<int>, labels': seq<int>, c: int, a: nat, b: nat)
    requires |labels| == |labels'| == |s.points| && Linked(s, labels, c, a, b)
    requires forall x: nat :: x < |labels| && labels[x] == c ==> labels'[x] == c
    ensures Linked(s, labels', c, a, b)
  {
    var p :| Chain(s, labels, c, p, a, b);
    assert Chain(s, labels', c, p, a, b);
  }

  lemma AdjacentInRange(s: Scan, i: nat, j: nat)
    ensures s.Adjacent(i, j) ==> i < |s.points| && j < |s.points|
  {
  }

  lemma ChainExtended(s: Scan, labels: seq<int>, c: int, a: nat, b: nat, q: nat)
    requires |labels| == |s.points| && Linked(s, labels, c, a, b)
    requires s.Adjacent(b, q) && labels[q] == c && (b == a || s.Strong(b))
    ensures Linked(s, labels, c, a, q)
  {
    hide Scan.Adjacent, Scan.Strong;
    assert s.Adjacent(b, q) ==> q < |labels| by { AdjacentInRange(s, b, q); }
    var p0 :| Chain(s, labels, c, p0, a, b);
    var p := if b == a then [a, q] else p0 + [q];
    forall k: nat | k + 1 < |p| ensures LinkAt(s, p, k) {
      if b != a && k + 1 < |p0| {
        assert LinkAt(s, p0, k);
      }
    }
    assert Chain(s, labels, c, p, a, q);
  }

  lemma StartExpanding(s: Scan, before: seq<int>, seeds: seq<nat>, seed: nat)
    requires Labelled(s, before, seeds) && seed < |before| && before[seed] == UNVISITED && s.Core(seed)
    ensures var work := s.Neighbours(seed);
      Expanding(s, before, before[seed := |seeds|], seeds, seed, work, seq(|work|, _ => seed), 0)
  {
    var labels, work := before[seed := |seeds|], s.Neighbours(seed);
    var from := seq(|work|, _ => seed);
    forall k | 0 <= k < |work| ensures s.Adjacent(from[k], work[k]) {
      var y := work[k];
      assert y in work;
    }
    assert Chain(s, labels, |seeds|, [seed], seed, seed);
    assert Merged(s, labels, |seeds|, seed, work);
  }

  /** Labelling a further entry of the worklist. */
  lemma LabelNext(s: Scan, before: seq<int>, labels: seq<int>, seeds: seq<nat>, seed: nat,
                  work: seq<nat>, from: seq<nat>, j: nat)
    requires Expanding(s, before, labels, seeds, seed, work, from, j) && j < |work| && labels[work[j]] < 0
    ensures var labels' := labels[work[j] := |seeds|];
      && Grown(before, labels', |seeds|) && Found(s, labels', |seeds|, seed, work, from)
      && Tied(s, labels', |seeds|, seed)
      && forall k :: 0 <= k < j + 1 ==> labels'[work[k]] >= 0
  {
    hide Labelled, Merged, Linked;
    var c, q := |seeds|, work[j];
    var labels' := labels[q := c];
    forall x: nat | x < |labels'| && labels'[x] == c ensures Linked(s, labels', c, seed, x) {
      if x == q {
        ChainKept(s, labels, labels', c, seed, from[j]);
        ChainExtended(s, labels', c, seed, from[j], q);
      } else {
        ChainKept(s, labels, labels', c, seed, x);
      }
    }
  }

  lemma NoiseIsWeak(s: Scan, labels: seq<int>, seeds: seq<nat>, x: nat)
    requires Labelled(s, labels, seeds) && x < |labels| && labels[x] == NOISE
    ensures !s.Strong(x)
  {
  }

  /** An entry that is not expanded: noise taken in, or a point with too few neighbours. */
  lemma TakeWeak(s: Scan, before: seq<int>, labels: seq<int>, seeds: seq<nat>, seed: nat,
                 work: seq<nat>, from: seq<nat>, j: nat)
    requires Expanding(s, before, labels, seeds, seed, work, from, j) && j < |work| && labels[work[j]] < 0
    requires labels[work[j]] == NOISE || !s.Strong(work[j])
    ensures Expanding(s, before, labels[work[j] := |seeds|], seeds, seed, work, from, j + 1)
  {
    LabelNext(s, before, labels, seeds, seed, work, from, j);
    hide Labelled, Tied, Found, Scan.Strong;
    var q := work[j];
    if labels[q] == NOISE {
      NoiseIsWeak(s, before, seeds, q);
    }
    var labels' := labels[q := |seeds|];
    forall x: nat, y: nat | x < |labels'| && labels'[x] == |seeds| && (x == seed || s.Strong(x)) && s.Adjacent(x, y)
      ensures y in work
    {
      assert x != q;
    }
  }

  /** An unvisited strong core: its neighbourhood joins the worklist. */
  lemma TakeStrong(s: Scan, before: seq<int>, labels: seq<int>, seeds: seq<nat>, seed: nat,
                   work: seq<nat>, from: seq<nat>, j: nat)
    requires Expanding(s, before, labels, seeds, seed, work, from, j) && j < |work|
    requires labels[work[j]] == UNVISITED && s.Strong(work[j])
    ensures var q, more := work[j], s.Neighbours(work[j]);
      Expanding(s, before, labels[q := |seeds|], seeds, seed, work + more, from + seq(|more|, _ => q), j + 1)
  {
    LabelNext(s, before, labels, seeds, seed, work, from, j);
    hide Labelled, Tied, Scan.Strong;
    var q, more := work[j], s.Neighbours(work[j]);
    var labels', work', from' := labels[q := |seeds|], work + more, from + seq(|more|, _ => q);
    forall x: nat, y: nat | x < |labels'| && labels'[x] == |seeds| && (x == seed || s.Strong(x)) && s.Adjacent(x, y)
      ensures y in work'
    {
      if x == q {
        assert y in more;
      } else {
        assert y in work;
      }
    }
    MoreFound(s, labels', |seeds|, seed, work, from, q);
    assert forall k :: 0 <= k < j + 1 ==> work'[k] == work[k];
  }

  lemma MoreFound(s: Scan, labels: seq<int>, c: int, seed: nat, work: seq<nat>, from: seq<nat>, q: nat)
    requires |labels| == |s.points| && seed < |labels| && Found(s, labels, c, seed, work, from)
    requires q < |labels| && labels[q] == c && s.Strong(q)
    ensures var more := s.Neighbours(q); Found(s, labels, c, seed, work + more, from + seq(|more|, _ => q))
  {
    var more := s.Neighbours(q);
    var work', from' := work + more, from + seq(|more|, _ => q);
    forall k | 0 <= k < |work'|
      ensures work'[k] < |labels| && from'[k] < |labels| && labels[from'[k]] == c
      ensures (from'[k] == seed || s.Strong(from'[k])) && s.Adjacent(from'[k], work'[k])
    {
      if k >= |work| {
        var y := more[k - |work|];
        assert y in more;
        assert work'[k] == y && from'[k] == q;
      }
    }
  }

  /** The worklist is used up: one more cluster is complete. */
  lemma FinishExpanding(s: Scan, before: seq<int>, labels: seq<int>, seeds: seq<nat>, seed: nat,
                        work: seq<nat>, from: seq<nat>)
    requires Expanding(s, before, labels, seeds, seed, work, from, |work|)
    ensures Labelled(s, labels, seeds + [seed])
  {
    hide Linked, Scan.Strong, Scan.Core, Scan.Adjacent;
    var c, seeds' := |seeds|, seeds + [seed];
    forall x: nat, y: nat | x < |labels| && labels[x] >= 0 && Expands(s, seeds', x) && s.Adjacent(x, y)
      ensures y < |labels| && labels[y] >= 0
    {
      ExpandedCovered(s, before, labels, seeds, seed, work, from, x, y);
    }
    forall x: nat, y: nat | x < |labels| && labels[x] >= 0 && s.Adjacent(x, y) && s.Strong(x) && s.Strong(y)
      ensures labels[y] == labels[x]
    {
      ExpandedCovered(s, before, labels, seeds, seed, work, from, x, y);
      AdjacentSymmetric(s, x, y);
    }
    forall x: nat | x < |labels| && labels[x] >= 0 ensures Linked(s, labels, labels[x], seeds'[labels[x]], x) {
      if labels[x] != c {
        ChainKept(s, before, labels, labels[x], seeds[labels[x]], x);
      }
    }
  }

  lemma ExpandedCovered(s: Scan, before: seq<int>, labels: seq<int>, seeds: seq<nat>, seed: nat,
                        work: seq<nat>, from: seq<nat>, x: nat, y: nat)
    requires Expanding(s, before, labels, seeds, seed, work, from, |work|)
    requires x < |labels| && labels[x] >= 0 && Expands(s, seeds + [seed], x) && s.Adjacent(x, y)
    ensures y < |labels| && labels[y] >= 0
  {
    hide Linked, Tied, Found;
    if labels[x] == |seeds| && (x == seed || s.Strong(x)) {
      assert y in work;
    } else {
      assert before[x] >= 0 && Expands(s, seeds, x);
    }
  }

  // ---- the algorithm ----

  method RegionQuery(s: Scan, idx: nat) returns (result: seq<nat>)
    requires idx < |s.points|
    ensures result == s.Neighbours(idx)
  {
    result := [];
    for i := 0 to |s.points|
      invariant result == s.Region(idx, i)
    {
      if i == idx { continue; }
      var dx := s.points[idx].x - s.points[i].x;
      var dy := s.points[idx].y - s.points[i].y;
      if dx * dx + dy * dy <= s.eps * s.eps {
        result := result + [i];
      }
    }
  }

  function Unvisited(labels: seq<int>): set<nat> {
    set x: nat | x < |labels| && labels[x] == UNVISITED
  }

  /** Grows the cluster of `seed` until its worklist is used up. */
  method Expand(s: Scan, labels: array<int>, ghost seeds: seq<nat>, cluster: int, seed: nat)
    requires labels.Length == |s.points| && Labelled(s, labels[..], seeds) && cluster == |seeds|
    requires seed < labels.Length && labels[seed] == UNVISITED && s.Core(seed)
    modifies labels
    ensures Labelled(s, labels[..], seeds + [seed]) && Grown(old(labels[..]), labels[..], cluster)
    ensures labels[seed] == cluster
  {
    hide Labelled, Expanding, Grown;
    ghost var before := labels[..];
    StartExpanding(s, before, seeds, seed);
    var work := RegionQuery(s, seed);
    ghost var from: seq<nat> := seq(|work|, _ => seed);
    labels[seed] := cluster;
    assert labels[..] == before[seed := |seeds|];
    var j := 0;
    while j < |work|
      invariant j <= |work| && Expanding(s, before, labels[..], seeds, seed, work, from, j)
      decreases Unvisited(labels[..]), |work| - j
    {
      EntryInRange(s, before, labels[..], seeds, seed, work, from, j);
      var q := work[j];
      ghost var was := labels[..];
      if labels[q] == NOISE {
        TakeWeak(s, before, was, seeds, seed, work, from, j);
        labels[q] := cluster;
        assert labels[..] == was[q := |seeds|];
        LessUnvisited(was, q, |seeds|);
      } else if labels[q] == UNVISITED {
        labels[q] := cluster;
        assert labels[..] == was[q := |seeds|];
        LessUnvisited(was, q, |seeds|);
        var more := RegionQuery(s, q);
        if |more| >= s.minPts {
          TakeStrong(s, before, was, seeds, seed, work, from, j);
          work := work + more;
          from := from + seq(|more|, _ => q);
        } else {
          TakeWeak(s, before, was, seeds, seed, work, from, j);
        }
      } else {
        SkipTaken(s, before, was, seeds, seed, work, from, j);
      }
      j := j + 1;
    }
    FinishExpanding(s, before, labels[..], seeds, seed, work, from);
    GrownBySeed(s, before, labels[..], seeds, seed, work, from);
  }

  lemma EntryInRange(s: Scan, before: seq<int>, labels: seq<int>, seeds: seq<nat>, seed: nat,
                     work: seq<nat>, from: seq<nat>, j: nat)
    requires Expanding(s, before, labels, seeds, seed, work, from, j) && j < |work|
    ensures work[j] < |labels| == |s.points|
    ensures labels[work[j]] == UNVISITED || labels[work[j]] == NOISE || labels[work[j]] >= 0
  {
  }

  lemma LessUnvisited(labels: seq<int>, q: nat, c: nat)
    requires q < |labels|
    ensures labels[q] == UNVISITED ==> Unvisited(labels[q := c]) < Unvisited(labels)
    ensures labels[q] != UNVISITED ==> Unvisited(labels[q := c]) == Unvisited(labels)
  {
    if labels[q] == UNVISITED {
      assert q in Unvisited(labels) && q !in Unvisited(labels[q := c]);
    }
  }

  lemma SkipTaken(s: Scan, before: seq<int>, labels: seq<int>, seeds: seq<nat>, seed: nat,
                  work: seq<nat>, from: seq<nat>, j: nat)
    requires Expanding(s, before, labels, seeds, seed, work, from, j) && j < |work| && labels[work[j]] >= 0
    ensures Expanding(s, before, labels, seeds, seed, work, from, j + 1)
  {
    hide Labelled, Found, Merged, Tied, Grown;
  }

  lemma GrownBySeed(s: Scan, before: seq<int>, labels: seq<int>, seeds: seq<nat>, seed: nat,
                    work: seq<nat>, from: seq<nat>)
    requires Expanding(s, before, labels, seeds, seed, work, from, |work|)
    ensures Grown(before, labels, |seeds|) && labels[seed] == |seeds|
  {
  }

  lemma MarkNoise(s: Scan, labels: seq<int>, seeds: seq<nat>, i: nat)
    requires Labelled(s, labels, seeds) && i < |labels| && labels[i] == UNVISITED && !s.Core(i)
    ensures Labelled(s, labels[i := NOISE], seeds)
  {
    hide Linked, Scan.Strong, Scan.Core;
    var labels' := labels[i := NOISE];
    forall x: nat | x < |labels'| && labels'[x] >= 0 ensures Linked(s, labels', labels'[x], seeds[labels'[x]], x) {
      ChainKept(s, labels, labels', labels[x], seeds[labels[x]], x);
    }
    forall x: nat, y: nat | x < |labels'| && labels'[x] >= 0 && s.Adjacent(x, y) && s.Strong(x) && s.Strong(y)
      ensures labels'[y] == labels'[x]
    {
      assert labels[y] == labels[x];
    }
  }

  lemma MarkKeepsOrder(s: Scan, labels: seq<int>, seeds: seq<nat>, i: nat)
    requires Ordered(s, labels, seeds) && i < |labels| && labels[i] == UNVISITED
    ensures Ordered(s, labels[i := NOISE], seeds)
  {
    hide Scan.Strong, Scan.Core, Scan.Adjacent;
    AllAdjacentInRange(s);
  }

  lemma AllAdjacentInRange(s: Scan)
    ensures forall x: nat, y: nat :: s.Adjacent(x, y) ==> x < |s.points| && y < |s.points|
  {
  }

  /** A new cluster seeded behind everything visited keeps the order. */
  lemma ExpandKeepsOrder(s: Scan, before: seq<int>, labels: seq<int>, seeds: seq<nat>, seed: nat)
    requires Labelled(s, before, seeds) && Ordered(s, before, seeds) && Grown(before, labels, |seeds|)
    requires Labelled(s, labels, seeds + [seed]) && seed < |labels| && labels[seed] == |seeds|
    requires forall x :: 0 <= x < seed ==> before[x] != UNVISITED
    requires forall c :: 0 <= c < |seeds| ==> seeds[c] < seed
    ensures Ordered(s, labels, seeds + [seed])
  {
    hide Linked, Scan.Strong, Scan.Core, Scan.Adjacent;
    AllAdjacentInRange(s);
    var seeds' := seeds + [seed];
    forall x: nat | x < |labels| && labels[x] >= 0 && s.Core(x)
      ensures labels[x] < |seeds'| && seeds'[labels[x]] <= x
    {
      if labels[x] == before[x] {
        assert seeds'[before[x]] == seeds[before[x]];
      } else {
        assert before[x] == UNVISITED;
      }
    }
    forall x: nat, y: nat | x < |labels| && labels[x] >= 0 && Expands(s, seeds', x) && s.Adjacent(x, y)
      ensures y < |labels| && labels[y] <= labels[x]
    {
      if labels[x] < |seeds| {
        assert labels[x] == before[x] && Expands(s, seeds, x);
      }
    }
  }

  lemma NothingLabelled(s: Scan, labels: seq<int>)
    requires |labels| == |s.points| && forall x :: 0 <= x < |labels| ==> labels[x] == UNVISITED
    ensures Labelled(s, labels, []) && Ordered(s, labels, [])
  {
  }

  /** Step 2 of the detector. seeds names one core per cluster; the search stops early once
      maxObjects clusters were found. */
  method Label(s: Scan, maxObjects: int) returns (labels: array<int>, clusters: nat, ghost seeds: seq<nat>)
    ensures fresh(labels) && labels.Length == |s.points|
    ensures clusters == |seeds| && Labelled(s, labels[..], seeds) && Ordered(s, labels[..], seeds)
    ensures clusters <= Most(1, maxObjects)
    ensures clusters < Most(1, maxObjects) ==> forall x :: 0 <= x < |s.points| ==> labels[x] != UNVISITED
    ensures clusters < Most(1, maxObjects) ==> (Standard(s, labels[..]) <==> WellConnected(s))
  {
    hide Labelled, Ordered, Grown, Standard, WellConnected;
    labels := new int[|s.points|](_ => UNVISITED);
    clusters, seeds := 0, [];
    NothingLabelled(s, labels[..]);
    for i := 0 to |s.points|
      invariant fresh(labels) && clusters == |seeds| && Labelled(s, labels[..], seeds)
      invariant Ordered(s, labels[..], seeds) && forall c :: 0 <= c < |seeds| ==> seeds[c] < i
      invariant clusters == 0 || clusters < maxObjects
      invariant forall x :: 0 <= x < i ==> labels[x] != UNVISITED
    {
      if labels[i] != UNVISITED { continue; }
      var neighbours := RegionQuery(s, i);
      ghost var was := labels[..];
      if |neighbours| + 1 < s.minPts {
        MarkNoise(s, was, seeds, i);
        MarkKeepsOrder(s, was, seeds, i);
        labels[i] := NOISE;
        assert labels[..] == was[i := NOISE];
        continue;
      }
      Expand(s, labels, seeds, clusters, i);
      GrownVisited(was, labels[..], clusters, i);
      ExpandKeepsOrder(s, was, labels[..], seeds, i);
      seeds := seeds + [i];
      clusters := clusters + 1;
      if clusters >= maxObjects { break; }
    }
    if clusters < Most(1, maxObjects) {
      StandardIff(s, labels[..], seeds);
    }
  }

  function Most(a: int, b: int): int {
    if a < b then b else a
  }

  lemma GrownVisited(before: seq<int>, labels: seq<int>, c: nat, i: nat)
    requires Grown(before, labels, c) && i < |labels| && labels[i] == c
    requires forall x :: 0 <= x < i ==> before[x] != UNVISITED
    ensures forall x :: 0 <= x < i + 1 ==> labels[x] != UNVISITED
  {
    forall x | 0 <= x < i + 1 ensures labels[x] != UNVISITED {
      if x < i {
        var y: nat := x;
        assert labels[y] == before[y] || labels[y] == c;
      }
    }
  }

  // ---- what a reader may conclude ----

  ghost predicate StrongPath(s: Scan, p: seq<nat>) {
    && |p| > 0 && (forall k :: 0 <= k < |p| ==> p[k] < |s.points| && s.Strong(p[k]))
    && forall k: nat :: k + 1 < |p| ==> LinkAt(s, p, k)
  }

  /** Strong cores joined by a path of strong cores are in one cluster as soon as the first is
      in any. */
  lemma {:induction false} StrongPathShares(s: Scan, labels: seq<int>, seeds: seq<nat>, p: seq<nat>)
    requires Labelled(s, labels, seeds) && StrongPath(s, p) && labels[p[0]] >= 0
    ensures labels[p[|p| - 1]] == labels[p[0]]
    decreases |p|
  {
    hide Linked;
    if |p| > 1 {
      assert LinkAt(s, p, 0);
      var q := p[1..];
      forall k: nat | k + 1 < |q| ensures LinkAt(s, q, k) {
        assert LinkAt(s, p, k + 1);
      }
      StrongPathShares(s, labels, seeds, q);
    }
  }

  /** A point left as noise is within eps of no expanded point. */
  lemma NoiseIsFar(s: Scan, labels: seq<int>, seeds: seq<nat>, x: nat, y: nat)
    requires Labelled(s, labels, seeds) && x < |labels| && labels[x] == NOISE
    requires y < |labels| && labels[y] >= 0 && Expands(s, seeds, y)
    ensures !s.Adjacent(x, y)
  {
    hide Linked;
    AdjacentSymmetric(s, x, y);
  }

  /** What standard DBSCAN promises: a labelled core takes all points within eps into a
      cluster, and the cores among them into its own. */
  ghost predicate Standard(s: Scan, labels: seq<int>)
    requires |labels| == |s.points|
  {
    forall x: nat, y: nat :: x < |labels| && labels[x] >= 0 && s.Core(x) && s.Adjacent(x, y) ==>
      labels[y] >= 0 && (s.Core(y) ==> labels[y] == labels[x])
  }

  /** On every labelling, the promise is kept where no core with exactly minPts - 1 neighbours
      is within eps of another core. */
  lemma StandardWithIsolatedWeakCores(s: Scan, labels: seq<int>, seeds: seq<nat>)
    requires Labelled(s, labels, seeds)
    requires forall x: nat, y: nat :: s.Adjacent(x, y) && s.Core(x) && s.Core(y) ==> s.Strong(x)
    ensures Standard(s, labels)
  {
    hide Scan.Adjacent, Scan.Core, Scan.Strong;
    AllAdjacentInRange(s);
    forall x: nat, y: nat | x < |labels| && labels[x] >= 0 && s.Core(x) && s.Adjacent(x, y)
      ensures y < |labels| && labels[y] >= 0 && (s.Core(y) ==> labels[y] == labels[x])
    {
      AdjacentSymmetric(s, x, y);
      if !s.Strong(x) {
        var z := FoundFrom(s, labels, seeds, x);
        StrongIsCore(s, z);
        AdjacentSymmetric(s, x, z);
        SeedExpands(s, labels, seeds, labels[x]);
      }
      assert Expands(s, seeds, x);
    }
  }

  lemma SeedExpands(s: Scan, labels: seq<int>, seeds: seq<nat>, c: nat)
    requires Labelled(s, labels, seeds) && c < |seeds|
    ensures seeds[c] < |labels| == |s.points| && Expands(s, seeds, seeds[c])
  {
    hide Linked;
    var seed := seeds[c];
    assert seed in seeds;
  }

  lemma StrongIsCore(s: Scan, x: nat)
    requires x < |s.points|
    ensures s.Strong(x) ==> s.Core(x)
  {
  }

  /** A member that is no seed stands next to the point it was found from. */
  lemma FoundFrom(s: Scan, labels: seq<int>, seeds: seq<nat>, x: nat) returns (z: nat)
    requires Labelled(s, labels, seeds) && x < |labels| && labels[x] >= 0
    ensures z < |labels| && (z == seeds[labels[x]] || s.Strong(z))
    ensures x != seeds[labels[x]] ==> s.Adjacent(z, x)
    ensures s.Core(seeds[labels[x]])
  {
    hide Scan.Adjacent, Scan.Core, Scan.Strong;
    var seed := seeds[labels[x]];
    assert Linked(s, labels, labels[x], seed, x);
    var p :| Chain(s, labels, labels[x], p, seed, x);
    z := seed;
    if |p| > 1 {
      assert LinkAt(s, p, |p| - 2);
      z := p[|p| - 2];
    }
  }

  // ---- exactly when standard DBSCAN is met ----

  /** p leads from a to b by eps-steps. */
  ghost predicate Walk(s: Scan, p: seq<nat>, a: nat, b: nat) {
    && |p| > 0 && p[0] == a && p[|p| - 1] == b
    && (forall k :: 0 <= k < |p| ==> p[k] < |s.points|)
    && (forall k: nat :: k + 1 < |p| ==> LinkAt(s, p, k))
  }

  ghost predicate CoreWalk(s: Scan, p: seq<nat>, a: nat, b: nat) {
    Walk(s, p, a, b) && forall k :: 0 <= k < |p| ==> s.Core(p[k])
  }

  ghost predicate StrongWalk(s: Scan, p: seq<nat>, a: nat, b: nat) {
    Walk(s, p, a, b) && forall k :: 0 < k < |p| - 1 ==> s.Strong(p[k])
  }

  /** a and b are cores joined by eps-steps from core to core: one cluster of standard DBSCAN. */
  ghost predicate Joined(s: Scan, a: nat, b: nat) {
    exists p :: CoreWalk(s, p, a, b)
  }

  ghost predicate StronglyJoined(s: Scan, a: nat, b: nat) {
    exists p :: StrongWalk(s, p, a, b)
  }

  /** The core of lowest index among those it is joined to. */
  ghost predicate First(s: Scan, m: nat) {
    m < |s.points| && s.Core(m) && forall b :: Joined(s, b, m) ==> m <= b
  }

  /** The points the detector expands if all goes well. */
  ghost predicate Spreads(s: Scan, z: nat) {
    z < |s.points| && (s.Strong(z) || First(s, z))
  }

  /** From the first core of each joined group strong cores lead to every other one, and
      whatever else is within eps of a core is within eps of a strong or first core. */
  ghost predicate WellConnected(s: Scan) {
    && (forall m, x :: First(s, m) && Joined(s, m, x) ==> StronglyJoined(s, m, x))
    && (forall x: nat, y: nat :: s.Adjacent(x, y) && s.Core(x) && !s.Core(y) ==>
          exists z: nat :: Spreads(s, z) && s.Adjacent(z, y))
  }

  lemma JoinedItself(s: Scan, a: nat)
    requires a < |s.points| && s.Core(a)
    ensures Joined(s, a, a)
  {
    assert CoreWalk(s, [a], a, a);
  }

  lemma JoinedCores(s: Scan, a: nat, b: nat)
    requires Joined(s, a, b)
    ensures a < |s.points| && b < |s.points| && s.Core(a) && s.Core(b)
  {
    var p :| CoreWalk(s, p, a, b);
    assert s.Core(p[0]) && s.Core(p[|p| - 1]);
  }

  lemma JoinedTransitive(s: Scan, a: nat, b: nat, c: nat)
    requires Joined(s, a, b) && Joined(s, b, c)
    ensures Joined(s, a, c)
  {
    hide Scan.Adjacent, Scan.Core;
    var p :| CoreWalk(s, p, a, b);
    var q :| CoreWalk(s, q, b, c);
    var r := p + q[1..];
    forall k: nat | k + 1 < |r| ensures LinkAt(s, r, k) {
      if k + 1 < |p| {
        assert LinkAt(s, p, k);
      } else {
        assert LinkAt(s, q, k - (|p| - 1));
      }
    }
    assert CoreWalk(s, r, a, c);
  }

  lemma JoinedSymmetric(s: Scan, a: nat, b: nat)
    requires Joined(s, a, b)
    ensures Joined(s, b, a)
  {
    hide Scan.Adjacent, Scan.Core;
    var p :| CoreWalk(s, p, a, b);
    var r := seq(|p|, k requires 0 <= k < |p| => p[|p| - 1 - k]);
    forall k: nat | k + 1 < |r| ensures LinkAt(s, r, k) {
      assert LinkAt(s, p, |p| - 2 - k);
      AdjacentSymmetric(s, r[k], r[k + 1]);
    }
    assert CoreWalk(s, r, b, a);
  }

  lemma JoinedNext(s: Scan, a: nat, x: nat, y: nat)
    requires Joined(s, a, x) && s.Adjacent(x, y) && y < |s.points| && s.Core(y)
    ensures Joined(s, a, y)
  {
    hide Scan.Adjacent, Scan.Core;
    JoinedCores(s, a, x);
    var p := [x, y];
    assert LinkAt(s, p, 0);
    assert CoreWalk(s, p, x, y);
    JoinedTransitive(s, a, x, y);
  }

  lemma {:induction false} FirstExists(s: Scan, x: nat) returns (m: nat)
    requires x < |s.points| && s.Core(x)
    ensures First(s, m) && Joined(s, m, x)
    decreases x
  {
    hide Scan.Core, Joined;
    if b: nat :| b < x && Joined(s, b, x) {
      JoinedCores(s, b, x);
      m := FirstExists(s, b);
      JoinedTransitive(s, m, b, x);
    } else {
      m := x;
      JoinedItself(s, x);
    }
  }

  /** A core is joined to the seed of its cluster, strong cores leading to it. */
  lemma MemberJoined(s: Scan, labels: seq<int>, seeds: seq<nat>, x: nat)
    requires Labelled(s, labels, seeds) && x < |labels| && labels[x] >= 0
    ensures StronglyJoined(s, seeds[labels[x]], x)
    ensures s.Core(x) ==> Joined(s, seeds[labels[x]], x)
  {
    hide Scan.Adjacent, Scan.Core, Scan.Strong;
    var seed := seeds[labels[x]];
    assert Linked(s, labels, labels[x], seed, x) && s.Core(seed);
    var p :| Chain(s, labels, labels[x], p, seed, x);
    assert StrongWalk(s, p, seed, x);
    if s.Core(x) {
      forall k | 0 <= k < |p| ensures s.Core(p[k]) {
        StrongIsCore(s, p[k]);
      }
      assert CoreWalk(s, p, seed, x);
    }
  }

  lemma CoreLabelled(s: Scan, labels: seq<int>, seeds: seq<nat>, x: nat)
    requires Labelled(s, labels, seeds) && x < |labels| && labels[x] != UNVISITED && s.Core(x)
    ensures 0 <= labels[x] < |seeds|
  {
    hide Linked;
  }

  ghost predicate Complete(s: Scan, labels: seq<int>, seeds: seq<nat>) {
    && Labelled(s, labels, seeds) && Ordered(s, labels, seeds)
    && forall x :: 0 <= x < |labels| ==> labels[x] != UNVISITED
  }

  /** The first core of a group is the seed of its cluster. */
  lemma FirstIsSeed(s: Scan, labels: seq<int>, seeds: seq<nat>, m: nat)
    requires Complete(s, labels, seeds) && First(s, m)
    ensures 0 <= labels[m] < |seeds| && seeds[labels[m]] == m
  {
    hide Linked, Joined, Scan.Core, Scan.Strong, Scan.Adjacent;
    CoreLabelled(s, labels, seeds, m);
    MemberJoined(s, labels, seeds, m);
  }

  /** Whatever is joined to a first core is in its cluster or a later one. */
  lemma JoinedNotEarlier(s: Scan, labels: seq<int>, seeds: seq<nat>, m: nat, z: nat)
    requires Complete(s, labels, seeds) && First(s, m) && Joined(s, m, z)
    ensures z < |labels| && 0 <= labels[m] <= labels[z]
  {
    hide Labelled, Joined, StronglyJoined, Scan.Core, Scan.Strong, Scan.Adjacent;
    JoinedCores(s, m, z);
    FirstIsSeed(s, labels, seeds, m);
    assert |labels| == |s.points|;
    CoreLabelled(s, labels, seeds, z);
    MemberJoined(s, labels, seeds, z);
    JoinedSymmetric(s, m, z);
    JoinedTransitive(s, seeds[labels[z]], z, m);
  }

  /** Along strong cores the label of the first core is handed on. */
  lemma {:induction false} HandedOn(s: Scan, labels: seq<int>, seeds: seq<nat>, m: nat, x: nat, p: seq<nat>, k: nat)
    requires Complete(s, labels, seeds) && First(s, m) && Joined(s, m, x) && StrongWalk(s, p, m, x)
    requires k < |p|
    ensures p[k] < |labels| && labels[p[k]] == labels[m] && Joined(s, m, p[k])
  {
    hide Labelled, Ordered, Joined, First, Scan.Core, Scan.Strong, Scan.Adjacent;
    SameSize(s, labels, seeds);
    if k == 0 {
      JoinedCores(s, m, x);
      JoinedItself(s, m);
    } else {
      HandedOn(s, labels, seeds, m, x, p, k - 1);
      assert LinkAt(s, p, k - 1);
      if k < |p| - 1 {
        StrongIsCore(s, p[k]);
        JoinedNext(s, m, p[k - 1], p[k]);
      }
      FirstIsSeed(s, labels, seeds, m);
      HandOn(s, labels, seeds, m, p[k - 1], p[k]);
    }
  }

  lemma SameSize(s: Scan, labels: seq<int>, seeds: seq<nat>)
    requires Labelled(s, labels, seeds)
    ensures |labels| == |s.points|
  {
  }

  lemma HandOn(s: Scan, labels: seq<int>, seeds: seq<nat>, m: nat, x: nat, y: nat)
    requires Complete(s, labels, seeds) && First(s, m) && Joined(s, m, y)
    requires x < |labels| && labels[x] == labels[m] && s.Adjacent(x, y)
    requires s.Strong(x) || (x == m && 0 <= labels[m] < |seeds| && seeds[labels[m]] == m)
    ensures y < |labels| && labels[y] == labels[m]
  {
    hide Linked, Joined, First, Scan.Core, Scan.Strong, Scan.Adjacent;
    JoinedNotEarlier(s, labels, seeds, m, y);
    if x == m {
      SeedExpands(s, labels, seeds, labels[m]);
    }
    assert Expands(s, seeds, x);
  }

  lemma ConnectedIsStandard(s: Scan, labels: seq<int>, seeds: seq<nat>)
    requires Complete(s, labels, seeds) && WellConnected(s)
    ensures |labels| == |s.points| && Standard(s, labels)
  {
    hide Labelled, Ordered, Joined, First, Scan.Core, Scan.Strong, Scan.Adjacent;
    SameSize(s, labels, seeds);
    AllAdjacentInRange(s);
    forall x: nat, y: nat | x < |labels| && labels[x] >= 0 && s.Core(x) && s.Adjacent(x, y)
      ensures y < |labels| && labels[y] >= 0 && (s.Core(y) ==> labels[y] == labels[x])
    {
      if s.Core(y) {
        var m := FirstExists(s, x);
        JoinedNext(s, m, x, y);
        GroupShares(s, labels, seeds, m, x);
        GroupShares(s, labels, seeds, m, y);
      } else {
        var z: nat :| Spreads(s, z) && s.Adjacent(z, y);
        SpreadsIsExpanded(s, labels, seeds, z);
        ExpandedTakes(s, labels, seeds, z, y);
      }
    }
  }

  lemma GroupShares(s: Scan, labels: seq<int>, seeds: seq<nat>, m: nat, x: nat)
    requires Complete(s, labels, seeds) && WellConnected(s) && First(s, m) && Joined(s, m, x)
    ensures x < |labels| && m < |labels| && labels[x] == labels[m] >= 0
  {
    hide Labelled, Ordered, Joined, First, Scan.Core, Scan.Strong, Scan.Adjacent;
    SameSize(s, labels, seeds);
    JoinedCores(s, m, x);
    FirstIsSeed(s, labels, seeds, m);
    assert StronglyJoined(s, m, x);
    var p :| StrongWalk(s, p, m, x);
    HandedOn(s, labels, seeds, m, x, p, |p| - 1);
  }

  lemma SpreadsIsExpanded(s: Scan, labels: seq<int>, seeds: seq<nat>, z: nat)
    requires Complete(s, labels, seeds) && Spreads(s, z)
    ensures z < |labels| && labels[z] >= 0 && Expands(s, seeds, z)
  {
    hide Labelled, Ordered, First, Scan.Core, Scan.Strong, Scan.Adjacent;
    SameSize(s, labels, seeds);
    if s.Strong(z) {
      StrongIsCore(s, z);
      CoreLabelled(s, labels, seeds, z);
    } else {
      FirstIsSeed(s, labels, seeds, z);
      SeedExpands(s, labels, seeds, labels[z]);
    }
  }

  lemma ExpandedTakes(s: Scan, labels: seq<int>, seeds: seq<nat>, z: nat, y: nat)
    requires Labelled(s, labels, seeds) && z < |labels| && labels[z] >= 0 && Expands(s, seeds, z) && s.Adjacent(z, y)
    ensures y < |labels| && labels[y] >= 0
  {
    hide Linked, Scan.Core, Scan.Strong;
  }

  /** Under the promise a whole group carries one label. */
  lemma {:induction false} GroupLabel(s: Scan, labels: seq<int>, p: seq<nat>, a: nat, b: nat, k: nat)
    requires |labels| == |s.points| && Standard(s, labels) && CoreWalk(s, p, a, b) && labels[a] >= 0 && k < |p|
    ensures labels[p[k]] == labels[a]
  {
    hide Scan.Core, Scan.Adjacent;
    if k > 0 {
      GroupLabel(s, labels, p, a, b, k - 1);
      assert LinkAt(s, p, k - 1);
    }
  }

  lemma JoinedLabel(s: Scan, labels: seq<int>, a: nat, b: nat)
    requires |labels| == |s.points| && Standard(s, labels) && Joined(s, a, b) && a < |labels| && labels[a] >= 0
    ensures b < |labels| && labels[b] == labels[a]
  {
    var p :| CoreWalk(s, p, a, b);
    GroupLabel(s, labels, p, a, b, |p| - 1);
  }

  /** Under the promise every seed is the first core of its group. */
  lemma SeedIsFirst(s: Scan, labels: seq<int>, seeds: seq<nat>, c: nat)
    requires Complete(s, labels, seeds) && Standard(s, labels) && c < |seeds|
    ensures First(s, seeds[c])
  {
    hide Linked, Standard, Joined, First, Scan.Core, Scan.Strong, Scan.Adjacent;
    var seed := seeds[c];
    assert s.Core(seed) && labels[seed] == c;
    var m := FirstExists(s, seed);
    FirstIsSeed(s, labels, seeds, m);
    JoinedLabel(s, labels, m, seed);
  }

  lemma StandardIsConnected(s: Scan, labels: seq<int>, seeds: seq<nat>)
    requires Complete(s, labels, seeds) && Standard(s, labels)
    ensures WellConnected(s)
  {
    hide Labelled, Ordered, Standard, Joined, StronglyJoined, First, Scan.Core, Scan.Strong, Scan.Adjacent;
    SameSize(s, labels, seeds);
    AllAdjacentInRange(s);
    forall m, x | First(s, m) && Joined(s, m, x) ensures StronglyJoined(s, m, x) {
      JoinedCores(s, m, x);
      FirstIsSeed(s, labels, seeds, m);
      JoinedLabel(s, labels, m, x);
      MemberJoined(s, labels, seeds, x);
    }
    forall x: nat, y: nat | s.Adjacent(x, y) && s.Core(x) && !s.Core(y)
      ensures exists z: nat :: Spreads(s, z) && s.Adjacent(z, y)
    {
      BorderSpread(s, labels, seeds, x, y);
    }
  }

  lemma BorderSpread(s: Scan, labels: seq<int>, seeds: seq<nat>, x: nat, y: nat)
    requires Complete(s, labels, seeds) && Standard(s, labels)
    requires s.Adjacent(x, y) && s.Core(x) && !s.Core(y)
    ensures exists z: nat :: Spreads(s, z) && s.Adjacent(z, y)
  {
    hide Labelled, Ordered, Joined, First, Scan.Core, Scan.Strong, Scan.Adjacent;
    SameSize(s, labels, seeds);
    AdjacentInRange(s, x, y);
    CoreLabelled(s, labels, seeds, x);
    assert labels[y] >= 0;
    var z := FoundFrom(s, labels, seeds, y);
    LabelInRange(s, labels, seeds, y);
    SeedIsFirst(s, labels, seeds, labels[y]);
    assert Spreads(s, z) && s.Adjacent(z, y);
  }

  lemma LabelInRange(s: Scan, labels: seq<int>, seeds: seq<nat>, y: nat)
    requires Labelled(s, labels, seeds) && y < |labels|
    ensures labels[y] < |seeds|
  {
    hide Linked;
  }

  /** A complete result is a standard one exactly if the input is well connected. */
  lemma StandardIff(s: Scan, labels: seq<int>, seeds: seq<nat>)
    requires Complete(s, labels, seeds)
    ensures |labels| == |s.points| && (Standard(s, labels) <==> WellConnected(s))
  {
    hide Labelled, Ordered, Standard, WellConnected;
    SameSize(s, labels, seeds);
    if Standard(s, labels) {
      StandardIsConnected(s, labels, seeds);
    }
    if WellConnected(s) {
      ConnectedIsStandard(s, labels, seeds);
    }
  }

  /** Four points in a row, one apart: the inner two have exactly minPts - 1 neighbours. */
  function Row4(): Scan {
    Scan([Point(0.0, 0.0), Point(1.0, 0.0), Point(2.0, 0.0), Point(3.0, 0.0)], 1.0, 3)
  }

  lemma Row4Shape()
    ensures forall x: nat, y: nat :: Row4().Adjacent(x, y) <==> x < 4 && y < 4 && (x == y + 1 || y == x + 1)
    ensures forall x: nat :: x < 4 ==> !Row4().Strong(x) && (Row4().Core(x) <==> x == 1 || x == 2)
  {
    var s := Row4();
    forall x: nat, y: nat | x < 4 && y < 4
      ensures s.Adjacent(x, y) <==> x == y + 1 || y == x + 1
    {
      Row4Near(x, y);
    }
    forall x: nat | x < 4
      ensures |s.Neighbours(x)| == if x == 1 || x == 2 then 2 else 1
    {
      Row4Near(x, 0);
      Row4Near(x, 1);
      Row4Near(x, 2);
      Row4Near(x, 3);
      assert s.Region(x, 0) == [];
      assert s.Region(x, 1) == if x == 1 then [0] else [];
      assert s.Region(x, 2) == s.Region(x, 1) + if x == 0 || x == 2 then [1] else [];
      assert s.Region(x, 3) == s.Region(x, 2) + if x == 1 || x == 3 then [2] else [];
      assert s.Region(x, 4) == s.Region(x, 3) + if x == 2 then [3] else [];
    }
  }

  lemma Row4Near(x: nat, y: nat)
    requires x < 4 && y < 4
    ensures Row4().Near(x, y) <==> x <= y + 1 && y <= x + 1
  {
    var s := Row4();
    assert s.points[x] == Point(x as real, 0.0) && s.points[y] == Point(y as real, 0.0);
    var d := x as real - y as real;
    assert s.Near(x, y) <==> d * d <= 1.0;
    if x <= y + 1 && y <= x + 1 {
      assert d == -1.0 || d == 0.0 || d == 1.0;
    } else if d >= 2.0 {
      assert d * d >= 2.0 * d;
    } else {
      assert d <= -2.0;
      assert -d * -d >= 2.0 * -d;
      assert -d * -d == d * d;
    }
  }

  lemma ShortLink(s: Scan, labels: seq<int>, c: int, a: nat, b: nat)
    requires |labels| == |s.points| && Linked(s, labels, c, a, b)
    requires forall x: nat :: x < |s.points| ==> !s.Strong(x)
    ensures a == b || s.Adjacent(a, b)
  {
    var p :| Chain(s, labels, c, p, a, b);
    var second := if |p| > 1 then p[1] else a;
    if |p| == 2 {
      assert LinkAt(s, p, 0) && second == b;
    }
  }

  /** On this input no complete labelling keeps the promise, whatever the order of the scan. */
  lemma WeakCoresBreakStandard(labels: seq<int>, seeds: seq<nat>)
    requires Labelled(Row4(), labels, seeds)
    requires forall x :: 0 <= x < |labels| ==> labels[x] != UNVISITED
    ensures !Standard(Row4(), labels)
  {
    hide Linked, Scan.Adjacent, Scan.Core, Scan.Strong;
    var s := Row4();
    Row4Shape();
    if Standard(s, labels) {
      var c := labels[1];
      assert s.Adjacent(1, 0) && s.Adjacent(1, 2) && s.Adjacent(2, 3);
      assert labels[2] == c;
      SameCluster(s, labels, seeds, 0, c);
      SameCluster(s, labels, seeds, 3, c);
      ShortLink(s, labels, c, seeds[c], 0);
      ShortLink(s, labels, c, seeds[c], 3);
    }
  }

  lemma SameCluster(s: Scan, labels: seq<int>, seeds: seq<nat>, x: nat, c: int)
    requires s == Row4() && Labelled(s, labels, seeds) && x < 4 && labels[x] >= 0
    requires labels[1] == c && labels[2] == c
    ensures labels[x] == c && 0 <= c < |seeds| && Linked(s, labels, c, seeds[c], x)
  {
    hide Linked, Scan.Adjacent;
    Row4Shape();
    var d := labels[x];
    assert s.Core(seeds[d]) && labels[seeds[d]] == d;
  }

  // ---- centroids ----

  datatype Cluster = Cluster(x: real, y: real, count: nat)

  /** Sum over the first n points with label c. */
  function SumX(s: Scan, labels: seq<int>, c: int, n: nat): real
    requires n <= |labels| == |s.points|
  {
    if n == 0 then 0.0 else SumX(s, labels, c, n - 1) + if labels[n - 1] == c then s.points[n - 1].x else 0.0
  }

  function SumY(s: Scan, labels: seq<int>, c: int, n: nat): real
    requires n <= |labels| == |s.points|
  {
    if n == 0 then 0.0 else SumY(s, labels, c, n - 1) + if labels[n - 1] == c then s.points[n - 1].y else 0.0
  }

  function Members(labels: seq<int>, c: int, n: nat): nat
    requires n <= |labels|
  {
    if n == 0 then 0 else Members(labels, c, n - 1) + if labels[n - 1] == c then 1 else 0
  }

  lemma {:induction false} SeedCounts(labels: seq<int>, c: int, n: nat, seed: nat)
    requires seed < n <= |labels| && labels[seed] == c
    ensures Members(labels, c, n) > 0
  {
    if seed < n - 1 {
      SeedCounts(labels, c, n - 1, seed);
    }
  }

  /** Each member adds its coordinates and counts once, wherever it stands... */
  lemma {:induction false} MemberAdds(s: Scan, labels: seq<int>, c: int, n: nat, x: nat)
    requires n <= |labels| == |s.points| && x < n && labels[x] != c
    ensures var more := labels[x := c];
      && SumX(s, more, c, n) == SumX(s, labels, c, n) + s.points[x].x
      && SumY(s, more, c, n) == SumY(s, labels, c, n) + s.points[x].y
      && Members(more, c, n) == Members(labels, c, n) + 1
  {
    if x < n - 1 {
      MemberAdds(s, labels, c, n - 1, x);
    } else {
      LaterLabel(s, labels, c, n - 1, x);
    }
  }

  lemma {:induction false} LaterLabel(s: Scan, labels: seq<int>, c: int, n: nat, x: nat)
    requires n <= x < |labels| == |s.points|
    ensures var more := labels[x := c];
      && SumX(s, more, c, n) == SumX(s, labels, c, n)
      && SumY(s, more, c, n) == SumY(s, labels, c, n)
      && Members(more, c, n) == Members(labels, c, n)
  {
    if n > 0 {
      LaterLabel(s, labels, c, n - 1, x);
    }
  }

  /** ...and where there is no member there is nothing to add. */
  lemma {:induction false} NoMember(s: Scan, labels: seq<int>, c: int, n: nat)
    requires n <= |labels| == |s.points| && forall x :: 0 <= x < n ==> labels[x] != c
    ensures SumX(s, labels, c, n) == SumY(s, labels, c, n) == 0.0 && Members(labels, c, n) == 0
  {
    if n > 0 {
      NoMember(s, labels, c, n - 1);
    }
  }

  /** On the near side of the line u x + v y = h. */
  predicate Beneath(u: real, v: real, h: real, x: real, y: real) {
    u * x + v * y <= h
  }

  /** The reported mean lies in the convex hull of the members: in every half-plane that holds them all. */
  lemma MeanInHull(s: Scan, labels: seq<int>, c: int, r: Cluster, u: real, v: real, h: real)
    requires |labels| == |s.points| && Reports(s, labels, c, r)
    requires forall x: nat :: x < |labels| && labels[x] == c ==> Beneath(u, v, h, s.points[x].x, s.points[x].y)
    ensures Beneath(u, v, h, r.x, r.y)
  {
    SumsBeneath(s, labels, c, u, v, h, |labels|);
    var n := r.count as real;
    assert u * (r.x * n) + v * (r.y * n) == (u * r.x + v * r.y) * n;
    Cancels(u * r.x + v * r.y, h, n);
  }

  lemma Cancels(a: real, b: real, n: real)
    requires n > 0.0
    ensures a * n <= b * n ==> a <= b
  {
    if a > b {
      Distributes(n, a - b, b);
    }
  }

  lemma {:induction false} SumsBeneath(s: Scan, labels: seq<int>, c: int, u: real, v: real, h: real, n: nat)
    requires n <= |labels| == |s.points|
    requires forall x: nat :: x < |labels| && labels[x] == c ==> Beneath(u, v, h, s.points[x].x, s.points[x].y)
    ensures u * SumX(s, labels, c, n) + v * SumY(s, labels, c, n) <= h * Members(labels, c, n) as real
  {
    if n > 0 {
      SumsBeneath(s, labels, c, u, v, h, n - 1);
      var k: nat := n - 1;
      if labels[k] == c {
        assert Beneath(u, v, h, s.points[k].x, s.points[k].y);
        Distributes(u, SumX(s, labels, c, k), s.points[k].x);
        Distributes(v, SumY(s, labels, c, k), s.points[k].y);
        Distributes(h, Members(labels, c, k) as real, 1.0);
      }
    }
  }

  lemma Distributes(a: real, x: real, y: real)
    ensures a * (x + y) == a * x + a * y
  {
  }

  /** Sums and sizes per cluster. */
  method Accumulate(s: Scan, labels: seq<int>, k: nat) returns (sx: array<real>, sy: array<real>, cnt: array<nat>)
    requires |labels| == |s.points| && forall x :: 0 <= x < |labels| ==> labels[x] < k
    ensures fresh(sx) && fresh(sy) && fresh(cnt) && sx.Length == sy.Length == cnt.Length == k
    ensures forall c :: 0 <= c < k ==> sx[c] == SumX(s, labels, c, |labels|)
    ensures forall c :: 0 <= c < k ==> sy[c] == SumY(s, labels, c, |labels|)
    ensures forall c :: 0 <= c < k ==> cnt[c] == Members(labels, c, |labels|)
  {
    sx, sy, cnt := new real[k](_ => 0.0), new real[k](_ => 0.0), new nat[k](_ => 0);
    for i := 0 to |labels|
      invariant forall c :: 0 <= c < k ==> sx[c] == SumX(s, labels, c, i)
      invariant forall c :: 0 <= c < k ==> sy[c] == SumY(s, labels, c, i)
      invariant forall c :: 0 <= c < k ==> cnt[c] == Members(labels, c, i)
    {
      if labels[i] >= 0 {
        var c := labels[i];
        sx[c] := sx[c] + s.points[i].x;
        sy[c] := sy[c] + s.points[i].y;
        cnt[c] := cnt[c] + 1;
      }
    }
  }

  /** A report of cluster c: its size and the mean of its members. */
  ghost predicate Reports(s: Scan, labels: seq<int>, c: int, r: Cluster)
    requires |labels| == |s.points|
  {
    && r.count == Members(labels, c, |labels|) > 0
    && r.x * r.count as real == SumX(s, labels, c, |labels|)
    && r.y * r.count as real == SumY(s, labels, c, |labels|)
  }

  /** The reports are those of a correct labelling that is complete unless the cap stopped it. */
  ghost predicate Detects(s: Scan, maxObjects: int, found: seq<Cluster>, labels: seq<int>, seeds: seq<nat>) {
    && Labelled(s, labels, seeds) && Ordered(s, labels, seeds) && |found| == |seeds|
    && (|found| < Most(1, maxObjects) ==> forall x :: 0 <= x < |labels| ==> labels[x] != UNVISITED)
    && forall c :: 0 <= c < |found| ==> Reports(s, labels, c, found[c])
  }

  /** Steps 2 and 3: every cluster is reported. */
  method Detect(s: Scan, maxObjects: int) returns (found: seq<Cluster>)
    ensures |found| <= Most(1, maxObjects)
    ensures exists labels, seeds :: Detects(s, maxObjects, found, labels, seeds)
  {
    hide Labelled, Ordered, SumX, SumY, Members;
    var buffer, k;
    ghost var seeds;
    buffer, k, seeds := Label(s, maxObjects);
    var ls := buffer[..];
    LabelsInRange(s, ls, seeds);
    var sx, sy, cnt := Accumulate(s, ls, k);
    var xs, ys, ns := sx[..], sy[..], cnt[..];
    found := [];
    for c := 0 to k
      invariant |found| == c
      invariant forall d :: 0 <= d < c ==> Reports(s, ls, d, found[d])
    {
      SeedCounts(ls, c, |ls|, seeds[c]);
      var n := ns[c] as real;
      Divides(xs[c], n);
      Divides(ys[c], n);
      found := found + [Cluster(xs[c] / n, ys[c] / n, ns[c])];
    }
    assert Detects(s, maxObjects, found, ls, seeds);
  }

  lemma Divides(a: real, n: real)
    requires n != 0.0
    ensures a / n * n == a
  {
  }

  lemma LabelsInRange(s: Scan, labels: seq<int>, seeds: seq<nat>)
    requires Labelled(s, labels, seeds)
    ensures forall x :: 0 <= x < |labels| ==> labels[x] < |seeds|
    ensures forall c :: 0 <= c < |seeds| ==> seeds[c] < |labels| && labels[seeds[c]] == c
  {
    forall x | 0 <= x < |labels| ensures labels[x] < |seeds| {
      var y: nat := x;
      assert labels[y] == UNVISITED || labels[y] == NOISE || labels[y] < |seeds|;
    }
  }
}
