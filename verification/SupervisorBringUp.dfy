/** In a calm environment the tree comes up one dependency level per tick. */
module SupervisorBringUp {
  import opened Sequences
  import opened SupervisorPolicy
  import opened SupervisorModel
  import opened SupervisorSafety

  /** Spawns succeed and nothing exits. */
  ghost predicate Calm(e: Env) {
    (forall k :: e.wait(k) == StillAlive) && (forall k :: e.spawns(k))
  }

  ghost predicate NoGates(c: Config) {
    forall n :: n in c.children ==> !c.children[n].gated
  }

  /** The dependency depth of n is below k. */
  ghost predicate Below(c: Config, n: Name, k: nat)
    requires c.Valid() && n in c.children
    decreases k
  {
    k > 0 && forall d :: d in c.Deps(n) ==> d in c.children && Below(c, d, k - 1)
  }

  lemma {:induction false} BelowMonotone(c: Config, n: Name, k: nat)
    requires c.Valid() && n in c.children && Below(c, n, k)
    ensures Below(c, n, k + 1)
    decreases k
  {
    forall d | d in c.Deps(n) ensures d in c.children && Below(c, d, k) {
      BelowMonotone(c, d, k - 1);
    }
  }

  lemma {:induction false} DepthByIndex(c: Config, n: Name, k: nat)
    requires c.Valid() && n in c.children && Index(c.topo, n) < k
    ensures Below(c, n, k)
    decreases k
  {
    forall d | d in c.Deps(n) ensures d in c.children && Below(c, d, k - 1) {
      DepthByIndex(c, d, k - 1);
    }
  }

  /** What child n looks like before (up = false) and after a bring-up scan at level k. */
  ghost function Target(c: Config, n: Name, k: nat, up: bool): Phase
    requires c.Valid() && n in c.children
  {
    if Below(c, n, k) then Running else if up && Below(c, n, k + 1) then Starting else Stopped
  }

  ghost predicate Settled(kid: Kid, phase: Phase) {
    kid.state.phase == phase && kid.state.restarts == 0 && kid.state.step == 0 && !kid.completed && Owns(kid)
  }

  /** The first i children of `order` are as after the scan, the others as before. */
  ghost predicate Rising(c: Config, w: World, k: nat, i: nat)
    requires w.Of(c)
  {
    forall n {:trigger w.kids[n]} :: n in c.children ==> Settled(w.kids[n], Target(c, n, k, Index(c.topo, n) < i))
  }

  lemma CalmSpawn(c: Config, e: Env, w: World, n: Name)
    requires w.Of(c) && Calm(e) && n in c.children
    requires w.Phase(n) == Stopped && !w.kids[n].completed
    requires w.kids[n].state.restarts == 0 && w.kids[n].state.step == 0
    ensures var r := Respawned(c, e, w, n);
      && Settled(r.kids[n], Starting)
      && forall m :: m in w.kids && m != n ==> r.kids[m] == w.kids[m]
  {
    hide Config.Valid, Step;
    StepOnSpawned(c.children[n].spec, w.kids[n].state, e.clock(w.clocks));
  }

  lemma DepsRunningIffBelow(c: Config, w: World, n: Name, k: nat, i: nat)
    requires w.Of(c) && Rising(c, w, k, i) && n in c.children
    ensures DepsRunning(c, w, n) <==> Below(c, n, k + 1)
  {
    forall d | d in c.Deps(n) ensures d in c.children && (w.Phase(d) == Running <==> Below(c, d, k)) {
      assert Settled(w.kids[d], Target(c, d, k, Index(c.topo, d) < i));
    }
  }

  lemma RisingStep(c: Config, e: Env, w: World, k: nat, i: nat)
    requires w.Of(c) && Calm(e) && i < |c.topo| && Rising(c, w, k, i)
    ensures Rising(c, BringUpOne(c, e, w, c.topo[i]), k, i + 1)
  {
    hide Config.Valid, Below, Feed, Respawned;
    var n := c.topo[i];
    IndexAt(c, i);
    assert Settled(w.kids[n], Target(c, n, k, false));
    DepsRunningIffBelow(c, w, n, k, i);
    var r := BringUpOne(c, e, w, n);
    if w.Phase(n) == Stopped && DepsRunning(c, w, n) {
      CalmSpawn(c, e, w, n);
    }
    forall m | m in c.children ensures Settled(r.kids[m], Target(c, m, k, Index(c.topo, m) < i + 1)) {
      assert Settled(w.kids[m], Target(c, m, k, Index(c.topo, m) < i));
      SameIndex(c, m, i);
    }
  }

  lemma IndexAt(c: Config, i: nat)
    requires c.Valid() && i < |c.topo|
    ensures c.topo[i] in c.children && Index(c.topo, c.topo[i]) == i
  {
    var n := c.topo[i];
    assert n in c.topo;
  }

  lemma SameIndex(c: Config, m: Name, i: nat)
    requires c.Valid() && m in c.children && i < |c.topo|
    ensures Index(c.topo, m) == i <==> m == c.topo[i]
  {
    IndexAt(c, i);
  }

  lemma {:induction false} ScanRises(c: Config, e: Env, w: World, k: nat, i: nat)
    requires w.Of(c) && Calm(e) && i <= |c.topo| && Rising(c, w, k, 0)
    ensures Rising(c, BringUp(c, e, w, i), k, i)
  {
    hide Rising, BringUpOne;
    if i > 0 {
      ScanRises(c, e, w, k, i - 1);
      RisingStep(c, e, BringUp(c, e, w, i - 1), k, i - 1);
    }
  }

  // ---- the poll of a calm tick ----

  lemma StepOnAlive(spec: ChildSpec, st: ChildState, now: int)
    requires st.phase == Starting
    ensures Step(spec, st, AliveSeen, now) == (Entered(st, Running, now), NoAction)
  {
  }

  lemma StepOnStable(spec: ChildSpec, st: ChildState, now: int)
    requires st.phase == Running
    ensures Step(spec, st, RunningStable, now) == (st.(restarts := 0, step := 0), NoAction)
  {
  }

  /** A poll confirms a starting child and leaves every other one alone. */
  lemma CalmPoll(c: Config, e: Env, w: World, n: Name, now: int)
    requires w.Of(c) && Calm(e) && n in c.children && (c.children[n].gated ==> w.Phase(n) != Starting)
    requires Owns(w.kids[n]) && w.Phase(n) != Backoff && w.Phase(n) != Fatal && !w.kids[n].completed
    requires w.kids[n].state.restarts == 0 && w.kids[n].state.step == 0
    ensures var (r, over) := Poll(c, e, w, n, now);
      && !over && Settled(r.kids[n], if w.Phase(n).Live() then Running else Stopped)
      && forall m :: m in w.kids && m != n ==> r.kids[m] == w.kids[m]
  {
    hide Config.Valid, Step, YieldAll, Dependents;
    var w1 := w.(waits := w.waits + 1);
    if w.Phase(n) == Starting {
      StepOnAlive(c.children[n].spec, w.kids[n].state, e.clock(w.clocks));
    } else if w.Phase(n) == Running {
      StepOnStable(c.children[n].spec, w.kids[n].state, e.clock(w.clocks));
    }
  }

  lemma CalmVisit(c: Config, e: Env, w: World, n: Name, now: int)
    requires w.Of(c) && Calm(e) && n in c.children && (c.children[n].gated ==> w.Phase(n) != Starting)
    requires Owns(w.kids[n]) && w.Phase(n) != Backoff && w.Phase(n) != Fatal && !w.kids[n].completed
    requires w.kids[n].state.restarts == 0 && w.kids[n].state.step == 0
    ensures var r := Visit(c, e, w, n, now);
      && Settled(r.kids[n], if w.Phase(n).Live() then Running else Stopped)
      && forall m :: m in w.kids && m != n ==> r.kids[m] == w.kids[m]
  {
    hide Config.Valid, Poll, Feed;
    CalmPoll(c, e, w, n, now);
  }

  /** What child n looks like before the visits: a gated one was confirmed by a report. */
  ghost function Before(c: Config, n: Name, k: nat): Phase
    requires c.Valid() && n in c.children
  {
    if c.children[n].gated then Target(c, n, k + 1, false) else Target(c, n, k, true)
  }

  /** The first i children in map order were polled. */
  ghost predicate Polled(c: Config, w: World, k: nat, i: nat)
    requires w.Of(c) && i <= |c.order|
  {
    forall n {:trigger w.kids[n]} :: n in c.children ==>
      Settled(w.kids[n], if n in c.order[..i] then Target(c, n, k + 1, false) else Before(c, n, k))
  }

  lemma PolledStep(c: Config, e: Env, w: World, now: int, k: nat, i: nat)
    requires w.Of(c) && Calm(e) && i < |c.order| && Polled(c, w, k, i)
    ensures c.order[i] in c.children && Polled(c, Visit(c, e, w, c.order[i], now), k, i + 1)
  {
    hide Below, Visit;
    var n := c.order[i];
    assert n in c.order && n in c.children;
    assert n !in c.order[..i];
    LevelUp(c, n, k);
    assert Settled(w.kids[n], Before(c, n, k));
    CalmVisit(c, e, w, n, now);
    var r := Visit(c, e, w, n, now);
    forall m | m in c.children
      ensures Settled(r.kids[m], if m in c.order[..i + 1] then Target(c, m, k + 1, false) else Before(c, m, k))
    {
      assert m in c.order[..i + 1] <==> m in c.order[..i] || m == n;
      assert m != n ==> r.kids[m] == w.kids[m];
    }
  }

  lemma LevelUp(c: Config, n: Name, k: nat)
    requires c.Valid() && n in c.children
    ensures Target(c, n, k + 1, false) == if Target(c, n, k, true).Live() then Running else Stopped
  {
    if Below(c, n, k) {
      BelowMonotone(c, n, k);
    }
  }

  lemma {:induction false} VisitAllPolls(c: Config, e: Env, w: World, now: int, k: nat, i: nat)
    requires w.Of(c) && Calm(e) && i <= |c.order| && Polled(c, w, k, 0)
    ensures Polled(c, VisitAll(c, e, w, now, i), k, i)
  {
    hide Polled, Visit;
    if i > 0 {
      VisitAllPolls(c, e, w, now, k, i - 1);
      PolledStep(c, e, VisitAll(c, e, w, now, i - 1), now, k, i - 1);
    }
  }

  /** All children as after a scan at level k. */
  ghost predicate AtLevel(c: Config, w: World, k: nat)
    requires w.Of(c)
  {
    forall n {:trigger w.kids[n]} :: n in c.children ==> Settled(w.kids[n], Target(c, n, k, true))
  }

  /** All children as before the visits of the next tick. */
  ghost predicate Awake(c: Config, w: World, k: nat)
    requires w.Of(c)
  {
    forall n {:trigger w.kids[n]} :: n in c.children ==> Settled(w.kids[n], Before(c, n, k))
  }

  lemma TickRaisesLevel(c: Config, e: Env, w: World, k: nat)
    requires w.Of(c) && Calm(e) && Awake(c, w, k)
    ensures AtLevel(c, Ticked(c, e, w), k + 1)
  {
    hide Below, Settled, VisitAll, BringUp;
    var w1 := w.(clocks := w.clocks + 1);
    assert Polled(c, w1, k, 0);
    var now := e.clock(w.clocks);
    VisitAllPolls(c, e, w1, now, k, |c.order|);
    var w2 := VisitAll(c, e, w1, now, |c.order|);
    assert c.order[..|c.order|] == c.order;
    assert Rising(c, w2, k + 1, 0);
    ScanRises(c, e, w2, k + 1, |c.topo|);
  }

  function TickedTimes(c: Config, e: Env, k: nat): (w: World)
    requires c.Valid()
    ensures w.Of(c)
  {
    if k == 0 then Activated(c, e) else Ticked(c, e, TickedTimes(c, e, k - 1))
  }

  lemma {:induction false} LevelAfterTicks(c: Config, e: Env, k: nat)
    requires c.Valid() && Calm(e) && NoGates(c)
    ensures AtLevel(c, TickedTimes(c, e, k), k)
  {
    hide AtLevel, Awake, Ticked, Activated, Below;
    if k == 0 {
      ActivatedAtLevel(c, e);
    } else {
      LevelAfterTicks(c, e, k - 1);
      UngatedAwake(c, TickedTimes(c, e, k - 1), k - 1);
      TickRaisesLevel(c, e, TickedTimes(c, e, k - 1), k - 1);
    }
  }

  lemma UngatedAwake(c: Config, w: World, k: nat)
    requires w.Of(c) && NoGates(c) && AtLevel(c, w, k)
    ensures Awake(c, w, k)
  {
  }

  lemma ActivatedAtLevel(c: Config, e: Env)
    requires c.Valid() && Calm(e)
    ensures AtLevel(c, Activated(c, e), 0)
  {
    hide BringUp;
    assert Rising(c, Initial(c), 0, 0);
    ScanRises(c, e, Initial(c), 0, |c.topo|);
  }

  /** After activation and k ticks exactly the children of dependency depth below k run. */
  lemma BoundedBringUp(c: Config, e: Env, k: nat, n: Name)
    requires c.Valid() && Calm(e) && NoGates(c) && n in c.children
    ensures TickedTimes(c, e, k).Phase(n) == Running <==> Below(c, n, k)
    ensures k >= |c.topo| ==> TickedTimes(c, e, k).Phase(n) == Running
  {
    hide TickedTimes;
    LevelAfterTicks(c, e, k);
    assert Settled(TickedTimes(c, e, k).kids[n], Target(c, n, k, true));
    if k >= |c.topo| {
      DepthByIndex(c, n, k);
    }
  }
}
