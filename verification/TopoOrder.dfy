/** Dependency order of the declared children. */
module TopoOrder {
  import opened Sequences
  import opened SupervisorPolicy

  function Names(specs: seq<ChildSpec>): (ns: seq<Name>)
    ensures |ns| == |specs| && forall i :: 0 <= i < |specs| ==> ns[i] == specs[i].name
  {
    seq(|specs|, i requires 0 <= i < |specs| => specs[i].name)
  }

  /** b is a direct dependency of a. */
  ghost predicate Needs(specs: seq<ChildSpec>, a: Name, b: Name) {
    exists s :: s in specs && s.name == a && b in s.dependsOn
  }

  ghost predicate Known(specs: seq<ChildSpec>) {
    forall s, d :: s in specs && d in s.dependsOn ==> d in Names(specs)
  }

  ghost predicate ChainAt(specs: seq<ChildSpec>, c: seq<Name>, i: nat)
    requires i + 1 < |c|
  {
    Needs(specs, c[i], c[i + 1])
  }

  /** c runs along dependencies: each name needs the next. */
  ghost predicate Chain(specs: seq<ChildSpec>, c: seq<Name>) {
    forall i: nat :: i + 1 < |c| ==> ChainAt(specs, c, i)
  }

  ghost predicate Cyclic(specs: seq<ChildSpec>) {
    exists c :: |c| >= 2 && Chain(specs, c) && c[0] == c[|c| - 1]
  }

  /** Names unique, dependencies known, no cycle. */
  ghost predicate WellFormed(specs: seq<ChildSpec>) {
    NoRepeats(Names(specs)) && Known(specs) && !Cyclic(specs)
  }

  /** Every dependency of a listed name is listed before it. */
  ghost predicate DepsFirst(specs: seq<ChildSpec>, order: seq<Name>) {
    forall i, d :: 0 <= i < |order| && Needs(specs, order[i], d) ==> d in order[..i]
  }

  ghost predicate IsOrder(specs: seq<ChildSpec>, order: seq<Name>) {
    && NoRepeats(order)
    && (forall n :: n in order <==> n in Names(specs))
    && DepsFirst(specs, order)
  }

  // ---- an order exists exactly when the graph is acyclic ----

  /** Everything down a chain from order[p] stands before p. */
  lemma {:induction false} ChainDescends(specs: seq<ChildSpec>, order: seq<Name>, c: seq<Name>, p: nat, i: nat)
    requires DepsFirst(specs, order) && Chain(specs, c)
    requires p < |order| && 0 < i < |c| && c[0] == order[p]
    ensures c[i] in order[..p]
  {
    assert ChainAt(specs, c, i - 1);
    if i > 1 {
      ChainDescends(specs, order, c, p, i - 1);
      var q :| 0 <= q < p && order[q] == c[i - 1];
      assert c[i] in order[..q];
    }
  }

  lemma OrderMeansAcyclic(specs: seq<ChildSpec>, order: seq<Name>)
    requires IsOrder(specs, order)
    ensures !Cyclic(specs)
  {
    forall c | |c| >= 2 && Chain(specs, c) ensures c[0] != c[|c| - 1] {
      assert ChainAt(specs, c, 0);
      assert c[0] in Names(specs);
      var p :| 0 <= p < |order| && order[p] == c[0];
      ChainDescends(specs, order, c, p, |c| - 1);
    }
  }

  /** Names that each need another of the set. */
  ghost predicate Stuck(specs: seq<ChildSpec>, s: set<Name>) {
    forall n {:trigger NeedsWithin(specs, s, n)} :: n in s ==> NeedsWithin(specs, s, n)
  }

  ghost predicate NeedsWithin(specs: seq<ChildSpec>, s: set<Name>, n: Name) {
    exists d :: d in s && Needs(specs, n, d)
  }

  lemma ChainAppend(specs: seq<ChildSpec>, c: seq<Name>, d: Name)
    requires c != [] && Chain(specs, c) && Needs(specs, c[|c| - 1], d)
    ensures Chain(specs, c + [d])
  {
    forall i: nat | i + 1 < |c + [d]| ensures ChainAt(specs, c + [d], i) {
      if i + 1 < |c| {
        assert ChainAt(specs, c, i);
      }
    }
  }

  lemma ChainSlice(specs: seq<ChildSpec>, c: seq<Name>, i: nat, j: nat)
    requires i <= j <= |c| && Chain(specs, c)
    ensures Chain(specs, c[i..j])
  {
    forall k: nat | k + 1 < j - i ensures ChainAt(specs, c[i..j], k) {
      assert ChainAt(specs, c, i + k);
    }
  }

  lemma {:induction false} LongChain(specs: seq<ChildSpec>, s: set<Name>, start: Name, k: nat) returns (c: seq<Name>)
    requires Stuck(specs, s) && start in s
    ensures |c| == k + 1 && Chain(specs, c) && forall x :: x in c ==> x in s
  {
    if k == 0 {
      c := [start];
    } else {
      var b := LongChain(specs, s, start, k - 1);
      assert b[k - 1] in s && NeedsWithin(specs, s, b[k - 1]);
      var d :| d in s && Needs(specs, b[k - 1], d);
      ChainAppend(specs, b, d);
      c := b + [d];
    }
  }

  lemma StuckIsCyclic(specs: seq<ChildSpec>, s: set<Name>, start: Name)
    requires Stuck(specs, s) && start in s
    ensures Cyclic(specs)
  {
    var c := LongChain(specs, s, start, |s|);
    forall x | x in c ensures x in s {
      assert x == c[Index(c, x)];
    }
    if NoRepeats(c) {
      Pigeonhole(c, s);
    }
    var i, j :| 0 <= i < j < |c| && c[i] == c[j];
    ChainSlice(specs, c, i, j + 1);
    assert c[i..j + 1][0] == c[i..j + 1][j - i];
  }

  // ---- the algorithm ----

  method NamesUnique(specs: seq<ChildSpec>) returns (unique: bool, names: set<Name>)
    ensures unique <==> NoRepeats(Names(specs))
    ensures unique ==> forall n :: n in names <==> n in Names(specs)
  {
    names := {};
    for i := 0 to |specs|
      invariant NoRepeats(Names(specs[..i]))
      invariant forall n :: n in names <==> n in Names(specs[..i])
    {
      assert Names(specs[..i + 1]) == Names(specs[..i]) + [specs[i].name];
      if specs[i].name in names {
        var j :| 0 <= j < i && Names(specs[..i])[j] == specs[i].name;
        assert Names(specs)[j] == Names(specs)[i];
        return false, names;
      }
      names := names + {specs[i].name};
    }
    assert specs[..|specs|] == specs;
    unique := true;
  }

  method DepsKnown(specs: seq<ChildSpec>, names: set<Name>) returns (known: bool)
    requires forall n :: n in names <==> n in Names(specs)
    ensures known <==> Known(specs)
  {
    for i := 0 to |specs|
      invariant forall k, d :: 0 <= k < i && d in specs[k].dependsOn ==> d in names
    {
      var deps := specs[i].dependsOn;
      for j := 0 to |deps|
        invariant forall m :: 0 <= m < j ==> deps[m] in names
      {
        var d := deps[j];
        if d !in names {
          assert specs[i] in specs && d in specs[i].dependsOn;
          return false;
        }
      }
    }
    known := true;
  }

  /** Progress of the scan: what is placed, and what was seen waiting in a barren pass. */
  ghost predicate Placed(specs: seq<ChildSpec>, order: seq<Name>, done: set<Name>) {
    && NoRepeats(order)
    && (forall n :: n in order <==> n in done)
    && (forall n :: n in order ==> n in Names(specs))
    && DepsFirst(specs, order)
  }

  ghost predicate Waiting(s: ChildSpec, done: set<Name>) {
    exists d :: d in s.dependsOn && d !in done
  }

  lemma PlaceNext(specs: seq<ChildSpec>, order: seq<Name>, done: set<Name>, s: ChildSpec)
    requires NoRepeats(Names(specs)) && Placed(specs, order, done)
    requires s in specs && s.name !in done && !Waiting(s, done)
    ensures Placed(specs, order + [s.name], done + {s.name})
  {
    var order' := order + [s.name];
    var k :| 0 <= k < |specs| && specs[k] == s;
    assert Names(specs)[k] == s.name;
    forall i, d | 0 <= i < |order'| && Needs(specs, order'[i], d) ensures d in order'[..i] {
      if i < |order| {
        assert order'[..i] == order[..i];
      } else {
        var t :| t in specs && t.name == s.name && d in t.dependsOn;
        var m :| 0 <= m < |specs| && specs[m] == t;
        assert Names(specs)[m] == Names(specs)[k];
        assert order'[..i] == order;
      }
    }
  }

  // ---- ties are broken by declaration order ----

  /** Where n is declared. */
  ghost function Declared(specs: seq<ChildSpec>, n: Name): int {
    if n in Names(specs) then Index(Names(specs), n) else -1
  }

  /** n had to stand back when order[i] was placed: it needs a child that is declared after it, or
      that was not placed yet. */
  ghost predicate HeldBack(specs: seq<ChildSpec>, order: seq<Name>, i: nat, n: Name)
    requires i < |order|
  {
    exists d :: Needs(specs, n, d) && (Declared(specs, d) > Declared(specs, n) || d !in order[..i + 1])
  }

  /** A child comes after one that is declared later only if it was held back. */
  ghost predicate Stable(specs: seq<ChildSpec>, order: seq<Name>) {
    forall i: nat, j: nat :: i < j < |order| && Declared(specs, order[j]) < Declared(specs, order[i]) ==>
      HeldBack(specs, order, i, order[j])
  }

  /** Whoever is left was held back by everybody placed who is declared later. */
  ghost predicate LeftHeldBack(specs: seq<ChildSpec>, order: seq<Name>) {
    forall n, i: nat ::
      (n in Names(specs) && n !in order && i < |order| && Declared(specs, n) < Declared(specs, order[i])) ==>
        HeldBack(specs, order, i, n)
  }

  /** Whoever this pass has gone by is waiting for a child that is not placed or declared later. */
  ghost predicate GoneBy(specs: seq<ChildSpec>, order: seq<Name>, t: nat) {
    forall n :: n in Names(specs) && n !in order && Declared(specs, n) < t ==>
      exists d :: Needs(specs, n, d) && (Declared(specs, d) > Declared(specs, n) || d !in order)
  }

  lemma HeldBackEarlier(specs: seq<ChildSpec>, order: seq<Name>, x: Name, i: nat, n: Name)
    requires i < |order|
    ensures HeldBack(specs, order + [x], i, n) <==> HeldBack(specs, order, i, n)
  {
    assert (order + [x])[..i + 1] == order[..i + 1];
  }

  lemma PlaceStable(specs: seq<ChildSpec>, order: seq<Name>, t: nat, x: Name)
    requires Stable(specs, order) && LeftHeldBack(specs, order) && GoneBy(specs, order, t)
    requires x in Names(specs) && x !in order && Declared(specs, x) == t
    ensures Stable(specs, order + [x]) && LeftHeldBack(specs, order + [x]) && GoneBy(specs, order + [x], t)
  {
    hide Needs, HeldBack, Declared;
    var r := order + [x];
    forall i: nat, j: nat | i < j < |r| && Declared(specs, r[j]) < Declared(specs, r[i])
      ensures HeldBack(specs, r, i, r[j])
    {
      HeldBackEarlier(specs, order, x, i, r[j]);
    }
    forall n, i: nat | n in Names(specs) && n !in r && i < |r| && Declared(specs, n) < Declared(specs, r[i])
      ensures HeldBack(specs, r, i, n)
    {
      if i < |order| {
        HeldBackEarlier(specs, order, x, i, n);
      } else {
        HeldBackNow(specs, order, t, x, n);
      }
    }
    forall n | n in Names(specs) && n !in r && Declared(specs, n) < t
      ensures exists d :: Needs(specs, n, d) && (Declared(specs, d) > Declared(specs, n) || d !in r)
    {
      var d :| Needs(specs, n, d) && (Declared(specs, d) > Declared(specs, n) || d !in order);
      assert d in r ==> d in order || d == x;
    }
  }

  lemma HeldBackNow(specs: seq<ChildSpec>, order: seq<Name>, t: nat, x: Name, n: Name)
    requires GoneBy(specs, order, t) && n in Names(specs) && n !in order && Declared(specs, n) < t
    requires Declared(specs, x) == t
    ensures HeldBack(specs, order + [x], |order|, n)
  {
    hide Needs, Declared;
    var d :| Needs(specs, n, d) && (Declared(specs, d) > Declared(specs, n) || d !in order);
    assert (order + [x])[..|order| + 1] == order + [x];
    assert d in order + [x] ==> d in order || d == x;
  }

  lemma DeclaredAt(specs: seq<ChildSpec>, t: nat)
    requires NoRepeats(Names(specs)) && t < |specs|
    ensures specs[t].name in Names(specs) && Declared(specs, specs[t].name) == t
  {
    var n := specs[t].name;
    assert Names(specs)[t] == n;
  }

  /** The scan goes by a child that it placed, found placed, or found waiting. */
  lemma GoBy(specs: seq<ChildSpec>, order: seq<Name>, done: set<Name>, t: nat)
    requires NoRepeats(Names(specs)) && GoneBy(specs, order, t) && t < |specs|
    requires forall n :: n in order <==> n in done
    requires specs[t].name in done || Waiting(specs[t], done)
    ensures GoneBy(specs, order, t + 1)
  {
    hide Declared;
    DeclaredAt(specs, t);
    forall n | n in Names(specs) && n !in order && Declared(specs, n) < t + 1
      ensures exists d :: Needs(specs, n, d) && (Declared(specs, d) > Declared(specs, n) || d !in order)
    {
      if Declared(specs, n) == t {
        SameDeclared(specs, n, t);
        var d :| d in specs[t].dependsOn && d !in done;
        assert specs[t] in specs;
        assert Needs(specs, n, d);
      }
    }
  }

  lemma SameDeclared(specs: seq<ChildSpec>, n: Name, t: nat)
    requires n in Names(specs) && t < |specs| && Declared(specs, n) == t
    ensures n == specs[t].name
  {
  }

  method Ready(s: ChildSpec, done: set<Name>) returns (ready: bool)
    ensures ready <==> !Waiting(s, done)
  {
    ready := true;
    for j := 0 to |s.dependsOn|
      invariant forall m :: 0 <= m < j ==> s.dependsOn[m] in done
    {
      var d := s.dependsOn[j];
      if d !in done {
        assert d in s.dependsOn;
        return false;
      }
    }
  }

  /** One pass over the children in declaration order. */
  method Pass(specs: seq<ChildSpec>, order0: seq<Name>, done0: set<Name>)
    returns (order: seq<Name>, done: set<Name>, progress: bool)
    requires NoRepeats(Names(specs)) && Placed(specs, order0, done0)
    requires Stable(specs, order0) && LeftHeldBack(specs, order0)
    ensures Placed(specs, order, done) && |order| >= |order0|
    ensures Stable(specs, order) && LeftHeldBack(specs, order)
    ensures progress ==> |order| > |order0|
    ensures !progress ==> order == order0 && done == done0
    ensures !progress ==> forall s :: s in specs ==> s.name in done || Waiting(s, done)
  {
    hide Stable, LeftHeldBack, GoneBy;
    order, done, progress := order0, done0, false;
    NobodyGoneBy(specs, order);
    for i := 0 to |specs|
      invariant Placed(specs, order, done) && |order| >= |order0|
      invariant Stable(specs, order) && LeftHeldBack(specs, order) && GoneBy(specs, order, i)
      invariant progress ==> |order| > |order0|
      invariant !progress ==> order == order0 && done == done0
      invariant !progress ==> forall k :: 0 <= k < i ==> specs[k].name in done || Waiting(specs[k], done)
    {
      var s := specs[i];
      if s.name in done {
        GoBy(specs, order, done, i);
        continue;
      }
      var ready := Ready(s, done);
      if ready {
        DeclaredAt(specs, i);
        PlaceNext(specs, order, done, s);
        PlaceStable(specs, order, i, s.name);
        order := order + [s.name];
        done := done + {s.name};
        progress := true;
      }
      GoBy(specs, order, done, i);
    }
  }

  lemma NobodyGoneBy(specs: seq<ChildSpec>, order: seq<Name>)
    ensures GoneBy(specs, order, 0)
  {
    forall n ensures Declared(specs, n) < 0 ==> n !in Names(specs) {
    }
  }

  lemma PlacedSize(specs: seq<ChildSpec>, order: seq<Name>, done: set<Name>)
    requires NoRepeats(Names(specs)) && Placed(specs, order, done)
    ensures |order| <= |specs|
    ensures |order| == |specs| ==> IsOrder(specs, order)
  {
    var all := set n | n in Names(specs);
    assert forall n: Name :: n in order ==> n in all;
    Pigeonhole(order, all);
    AsManyAsNames(Names(specs));
    if |order| == |specs| {
      forall n | n in Names(specs) ensures n in order {
        if n !in order {
          Pigeonhole(order, all - {n});
        }
      }
    }
  }

  lemma {:induction false} AsManyAsNames(ns: seq<Name>)
    requires NoRepeats(ns)
    ensures |set n | n in ns| == |ns|
  {
    if ns != [] {
      var k := |ns| - 1;
      AsManyAsNames(ns[..k]);
      assert (set n | n in ns) == (set n | n in ns[..k]) + {ns[k]};
    }
  }

  lemma SomethingLeft(specs: seq<ChildSpec>, order: seq<Name>, done: set<Name>)
    requires NoRepeats(Names(specs)) && Placed(specs, order, done) && |order| < |specs|
    ensures exists n :: n in Names(specs) && n !in done
  {
    if forall n :: n in Names(specs) ==> n in done {
      AsManyAsNames(order);
      Pigeonhole(Names(specs), set n | n in order);
    }
  }

  /** A barren pass with names left over has found a cycle. */
  lemma BarrenIsCyclic(specs: seq<ChildSpec>, order: seq<Name>, done: set<Name>)
    requires NoRepeats(Names(specs)) && Known(specs) && Placed(specs, order, done) && |order| < |specs|
    requires forall s :: s in specs ==> s.name in done || Waiting(s, done)
    ensures Cyclic(specs)
  {
    var left := set n | n in Names(specs) && n !in done;
    forall n | n in left ensures NeedsWithin(specs, left, n) {
      var k :| 0 <= k < |specs| && specs[k].name == n;
      assert specs[k] in specs;
      var d :| d in specs[k].dependsOn && d !in done;
      assert d in left && Needs(specs, n, d);
    }
    SomethingLeft(specs, order, done);
    var n :| n in Names(specs) && n !in done;
    assert n in left;
    StuckIsCyclic(specs, left, n);
  }

  method Topo(specs: seq<ChildSpec>) returns (order: seq<Name>)
    ensures WellFormed(specs) ==> IsOrder(specs, order) && Stable(specs, order)
    ensures !WellFormed(specs) ==> order == []
  {
    order := [];
    var unique, names := NamesUnique(specs);
    if !unique { return; }
    var known := DepsKnown(specs, names);
    if !known { return; }
    var done: set<Name> := {};
    var progress := true;
    while |order| < |specs| && progress
      invariant Placed(specs, order, done) && Stable(specs, order) && LeftHeldBack(specs, order)
      invariant !progress ==> forall s :: s in specs ==> s.name in done || Waiting(s, done)
      decreases |specs| - |order|, progress
    {
      order, done, progress := Pass(specs, order, done);
      PlacedSize(specs, order, done);
    }
    PlacedSize(specs, order, done);
    if |order| == |specs| {
      OrderMeansAcyclic(specs, order);
    } else {
      BarrenIsCyclic(specs, order, done);
      order := [];
    }
  }
}
