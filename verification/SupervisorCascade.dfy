/** The one-pass scan finds exactly the transitive dependents, and the cascade stops them
    downstream first. */
module SupervisorCascade {
  import opened Sequences
  import opened SupervisorPolicy
  import opened SupervisorModel
  import opened SupervisorSafety

  ghost predicate LinkAt(c: Config, p: seq<Name>, i: nat)
    requires i + 1 < |p|
  {
    p[i] in c.children && p[i + 1] in c.Deps(p[i])
  }

  /** p leads from a child down its dependencies, one direct dependency at a time. */
  ghost predicate Links(c: Config, p: seq<Name>) {
    forall i: nat :: i + 1 < |p| ==> LinkAt(c, p, i)
  }

  /** m depends on n, directly or through others. */
  ghost predicate DependsOn(c: Config, m: Name, n: Name) {
    exists p :: |p| >= 2 && p[0] == m && p[|p| - 1] == n && Links(c, p)
  }

  lemma LinksTail(c: Config, p: seq<Name>)
    requires |p| >= 1 && Links(c, p)
    ensures Links(c, p[1..])
  {
    forall i: nat | i + 1 < |p[1..]| ensures LinkAt(c, p[1..], i) {
      assert LinkAt(c, p, i + 1);
    }
  }

  lemma DependsDirectly(c: Config, m: Name, n: Name)
    requires m in c.children && n in c.Deps(m)
    ensures DependsOn(c, m, n)
  {
    var p := [m, n];
    assert Links(c, p) && p[|p| - 1] == n;
  }

  lemma DependsThrough(c: Config, m: Name, d: Name, n: Name)
    requires m in c.children && d in c.Deps(m) && DependsOn(c, d, n)
    ensures DependsOn(c, m, n)
  {
    var p :| |p| >= 2 && p[0] == d && p[|p| - 1] == n && Links(c, p);
    var q := [m] + p;
    forall i: nat | i + 1 < |q| ensures LinkAt(c, q, i) {
      if i > 0 {
        assert LinkAt(c, p, i - 1);
      }
    }
    assert q[|q| - 1] == n;
  }

  lemma {:induction false} ScanSound(c: Config, name: Name, k: nat)
    requires c.Valid() && k <= |c.topo|
    ensures forall m :: m in Scan(c, name, k).1 ==> DependsOn(c, m, name)
  {
    hide DependsOn;
    if k > 0 {
      ScanSound(c, name, k - 1);
      ScanBasics(c, name, k - 1);
      var m := c.topo[k - 1];
      if DepHit(c, Scan(c, name, k - 1).0, m) {
        var d :| d in c.Deps(m) && d in Scan(c, name, k - 1).0;
        if d == name {
          DependsDirectly(c, m, name);
        } else {
          DependsThrough(c, m, d, name);
        }
      }
    }
  }

  lemma {:induction false} LinksReach(c: Config, p: seq<Name>, n: Name)
    requires c.Valid() && n in c.children && |p| >= 2 && p[|p| - 1] == n && Links(c, p)
    ensures p[0] in Dependents(c, n)
    decreases |p|
  {
    hide Config.Valid, Dependents;
    assert LinkAt(c, p, 0);
    if |p| > 2 {
      LinksTail(c, p);
      LinksReach(c, p[1..], n);
    }
    DependentsClosed(c, n, p[0], p[1]);
  }

  /** transitive_dependents returns exactly the children that depend on n. */
  lemma DependentsExact(c: Config, n: Name, m: Name)
    requires c.Valid() && n in c.children
    ensures m in Dependents(c, n) <==> DependsOn(c, m, n)
  {
    ScanSound(c, n, |c.topo|);
    if DependsOn(c, m, n) {
      var p :| |p| >= 2 && p[0] == m && p[|p| - 1] == n && Links(c, p);
      LinksReach(c, p, n);
    }
  }

  /** The result is in dependency order. */
  lemma {:induction false} ScanSorted(c: Config, name: Name, k: nat, i: nat, j: nat)
    requires c.Valid() && k <= |c.topo| && i < j < |Scan(c, name, k).1|
    ensures var out := Scan(c, name, k).1;
      out[i] in c.topo && out[j] in c.topo && Index(c.topo, out[i]) < Index(c.topo, out[j])
  {
    ScanBasics(c, name, k - 1);
    var before := Scan(c, name, k - 1).1;
    if j < |before| {
      ScanSorted(c, name, k - 1, i, j);
    } else {
      var x := before[i];
      assert x in before;
      var l :| 0 <= l < k - 1 && c.topo[l] == x;
      assert Index(c.topo, x) == l && Index(c.topo, c.topo[k - 1]) == k - 1;
    }
  }

  lemma {:induction false} YieldAllSplit(c: Config, e: Env, w: World, a: seq<Name>, b: seq<Name>)
    requires forall n :: n in a + b ==> n in w.kids && n in c.children
    ensures YieldAll(c, e, w, a + b) == YieldAll(c, e, YieldAll(c, e, w, b), a)
    decreases |b|
  {
    hide YieldOne;
    if b == [] {
      assert a + b == a;
    } else {
      var last, init := b[|b| - 1], b[..|b| - 1];
      assert (a + b)[|a + b| - 1] == last && (a + b)[..|a + b| - 1] == a + init;
      assert last in a + b;
      forall n | n in a + init ensures n in a + b {
      }
      YieldAllSplit(c, e, YieldOne(c, e, w, last), a, init);
    }
  }

  /** When the cascade of n comes to its i-th dependent, everything that needs that child
      has already stepped aside. */
  lemma DownstreamFirst(c: Config, e: Env, w: World, n: Name, i: nat)
    requires w.Of(c) && Table(w) && KidsOk(c, w) && OthersOwn(w, n) && n in c.children
    requires i < |Dependents(c, n)|
    ensures var out := Dependents(c, n);
      var before := YieldAll(c, e, w, out[i + 1..]);
      && YieldAll(c, e, w, out) == YieldAll(c, e, before, out[..i + 1])
      && forall m :: m in c.children && out[i] in c.Deps(m) ==> Aside(before.kids[m])
  {
    hide Table, KidsOk, YieldAll, Dependents, Aside;
    var out := Dependents(c, n);
    assert out == out[..i + 1] + out[i + 1..];
    assert forall m :: m in out ==> m in c.children && m != n;
    YieldAllSplit(c, e, w, out[..i + 1], out[i + 1..]);
    YieldAllKeeps(c, e, w, out[i + 1..]);
    forall m | m in c.children && out[i] in c.Deps(m) ensures m in out[i + 1..] {
      DependentsClosed(c, n, m, out[i]);
      var l :| 0 <= l < |out| && out[l] == m;
      DependentsSorted(c, n, l, i);
      assert out[i + 1..][l - i - 1] == m;
    }
  }

  lemma DependentsSorted(c: Config, n: Name, l: nat, i: nat)
    requires c.Valid() && l < |Dependents(c, n)| && i < |Dependents(c, n)|
    requires var out := Dependents(c, n); out[i] in c.Deps(out[l])
    ensures l > i
  {
    var m, d := Dependents(c, n)[l], Dependents(c, n)[i];
    assert m in Dependents(c, n);
    assert d in c.Deps(m) && Index(c.topo, d) < Index(c.topo, m);
    if l < i {
      ScanSorted(c, n, |c.topo|, l, i);
    }
  }
}
