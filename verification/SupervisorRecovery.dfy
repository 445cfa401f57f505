/** Once nothing fails any more the tree heals: every child comes up again, level by level. */
module SupervisorRecovery {
  import opened Sequences
  import opened SupervisorPolicy
  import opened SupervisorModel
  import opened SupervisorSafety
  import opened SupervisorRuns
  import opened SupervisorOneshots
  import opened SupervisorBringUp
  import opened HealthFeed

  ghost predicate Monotone(e: Env) {
    forall j, k :: 0 <= j <= k ==> e.clock(j) <= e.clock(k)
  }

  /** Ungated, with start timeouts that a reading of the clock does not exceed at once. */
  ghost predicate Plain(c: Config) {
    NoGates(c) && forall n :: n in c.children ==> c.children[n].spec.policy.startupTimeoutNs >= 0
  }

  /** From here on nothing exits and every spawn succeeds. */
  ghost predicate CalmFrom(e: Env, w: World) {
    (forall k :: k >= w.waits ==> e.wait(k) == StillAlive) && (forall k :: k >= w.tries ==> e.spawns(k))
  }

  // ---- one visit ----

  function Visited(phase: Phase): Phase {
    if phase == Starting then Running else if phase == Backoff then Starting else phase
  }

  /** n alone has changed, and the counters only went up. */
  ghost predicate Alone(w: World, r: World, n: Name) {
    && r.kids.Keys == w.kids.Keys && r.clocks >= w.clocks && r.waits >= w.waits && r.tries >= w.tries
    && forall m :: m in w.kids && m != n ==> r.kids[m] == w.kids[m]
  }

  lemma ConfirmQuietly(c: Config, e: Env, w: World, n: Name, ev: Event)
    requires w.Of(c) && n in c.children
    requires (w.Phase(n) == Starting && ev == AliveSeen) || (w.Phase(n) == Running && ev == RunningStable)
    ensures var r := Feed(c, e, w, n, ev);
      Alone(w, r, n) && r.Phase(n) == Running && r.kids[n].completed == w.kids[n].completed
  {
    hide Config.Valid, YieldAll, Dependents;
  }

  lemma RestartQuietly(c: Config, e: Env, w: World, n: Name)
    requires w.Of(c) && n in c.children && w.Phase(n) == Backoff && e.spawns(w.tries)
    requires w.kids[n].state.resumeAt <= e.clock(w.clocks)
    ensures var r := Feed(c, e, w, n, Tick);
      && Alone(w, r, n) && r.Phase(n) == Starting && r.kids[n].completed == w.kids[n].completed
      && r.kids[n].state.since == e.clock(w.clocks)
  {
    hide Config.Valid, YieldAll, Dependents;
  }

  lemma VisitQuietly(c: Config, e: Env, w: World, n: Name, now: int)
    requires w.Of(c) && Plain(c) && n in c.children && Owns(w.kids[n]) && w.Phase(n) != Fatal
    requires e.wait(w.waits) == StillAlive && e.spawns(w.tries) && now <= e.clock(w.clocks)
    requires w.Phase(n) == Backoff ==> w.kids[n].state.resumeAt <= now
    ensures var r := Visit(c, e, w, n, now);
      && Alone(w, r, n) && r.Phase(n) == Visited(w.Phase(n)) && r.kids[n].completed == w.kids[n].completed
  {
    hide Config.Valid, Feed;
    var w1 := w.(waits := w.waits + 1);
    if w.Phase(n) == Starting {
      ConfirmQuietly(c, e, w1, n, AliveSeen);
    } else if w.Phase(n) == Running {
      ConfirmQuietly(c, e, w1, n, RunningStable);
    } else if w.Phase(n) == Backoff {
      RestartQuietly(c, e, w, n);
    }
  }

  // ---- all visits of a tick ----

  /** Sound, nothing given up or completed, and every wait over at the reading `now`. */
  ghost predicate Settling(c: Config, w: World, now: int) {
    Inv(c, w) &&
    forall n {:trigger w.kids[n]} :: n in w.kids ==>
      w.Phase(n) != Fatal && !w.kids[n].completed && (w.Phase(n) == Backoff ==> w.kids[n].state.resumeAt <= now)
  }

  ghost predicate Onwards(w: World, r: World) {
    r.kids.Keys == w.kids.Keys && r.clocks >= w.clocks && r.waits >= w.waits && r.tries >= w.tries
  }

  /** The first k children were visited, the others are as they were. */
  ghost predicate VisitedTo(c: Config, w: World, r: World, k: nat)
    requires k <= |c.order|
  {
    && Onwards(w, r)
    && forall n {:trigger r.kids[n]} :: n in w.kids ==>
         if n in c.order[..k] then r.Phase(n) == Visited(w.Phase(n)) && !r.kids[n].completed else r.kids[n] == w.kids[n]
  }

  lemma VisitNext(c: Config, e: Env, w: World, v: World, now: int, k: nat)
    requires Plain(c) && Settling(c, w, now) && Monotone(e) && CalmFrom(e, w) && k < |c.order|
    requires VisitedTo(c, w, v, k) && Inv(c, v) && now <= e.clock(w.clocks)
    ensures v.Of(c) && c.order[k] in c.children
    ensures VisitedTo(c, w, Visit(c, e, v, c.order[k], now), k + 1)
  {
    hide Visit, Config.Valid, Table, KidsOk, DepSafe, Plain;
    InvIsOf(c, v);
    OrderNext(c, k);
    var n := c.order[k];
    assert v.kids[n] == w.kids[n];
    assert e.clock(w.clocks) <= e.clock(v.clocks);
    VisitQuietly(c, e, v, n, now);
    var r := Visit(c, e, v, n, now);
    forall m | m in w.kids
      ensures if m in c.order[..k + 1] then r.Phase(m) == Visited(w.Phase(m)) && !r.kids[m].completed
              else r.kids[m] == w.kids[m]
    {
      assert m != n ==> r.kids[m] == v.kids[m];
    }
  }

  lemma {:induction false} VisitAllQuietly(c: Config, e: Env, w: World, now: int, k: nat)
    requires PacedAll(c) && Plain(c) && Settling(c, w, now) && Monotone(e) && CalmFrom(e, w)
    requires k <= |c.order| && now <= e.clock(w.clocks)
    ensures w.Of(c)
    ensures Inv(c, VisitAll(c, e, w, now, k)) && VisitedTo(c, w, VisitAll(c, e, w, now, k), k)
  {
    hide Inv, Visit, Config.Valid, CalmFrom, Monotone, Plain;
    InvIsOf(c, w);
    VisitAllKeeps(c, e, w, now, k);
    if k > 0 {
      VisitAllQuietly(c, e, w, now, k - 1);
      VisitNext(c, e, w, VisitAll(c, e, w, now, k - 1), now, k - 1);
    }
  }

  // ---- the scan ----

  /** Stopped children may have been started, the first k of them if their dependencies ran. */
  ghost predicate ScannedTo(c: Config, w: World, r: World, k: nat)
    requires w.Of(c) && k <= |c.topo|
  {
    && Onwards(w, r)
    && forall n {:trigger r.kids[n]} :: n in w.kids ==>
         && !r.kids[n].completed
         && (r.Phase(n) == w.Phase(n) || (w.Phase(n) == Stopped && r.Phase(n) == Starting))
         && (n in c.topo[..k] && w.Phase(n) == Stopped && DepsRunning(c, w, n) ==> r.Phase(n) == Starting)
  }

  lemma StartQuietly(c: Config, e: Env, w: World, n: Name)
    requires w.Of(c) && n in c.children && e.spawns(w.tries) && !w.kids[n].completed
    ensures var r := BringUpOne(c, e, w, n);
      && Alone(w, r, n) && !r.kids[n].completed
      && r.Phase(n) == (if w.Phase(n) == Stopped && DepsRunning(c, w, n) then Starting else w.Phase(n))
  {
    hide Config.Valid, Feed, DepsRunning;
  }

  lemma ScanNext(c: Config, e: Env, w: World, v: World, k: nat)
    requires k < |c.topo| && w.Of(c) && v.Of(c) && ScannedTo(c, w, v, k) && CalmFrom(e, w)
    ensures c.topo[k] in c.children && ScannedTo(c, w, BringUpOne(c, e, v, c.topo[k]), k + 1)
  {
    hide Config.Valid, BringUpOne, CalmFrom;
    IndexAt(c, k);
    var n := c.topo[k];
    assert !v.kids[n].completed;
    CalmSpawns(e, w, v.tries);
    StartQuietly(c, e, v, n);
    var r := BringUpOne(c, e, v, n);
    forall m | m in w.kids
      ensures !r.kids[m].completed
      ensures r.Phase(m) == w.Phase(m) || (w.Phase(m) == Stopped && r.Phase(m) == Starting)
      ensures m in c.topo[..k + 1] && w.Phase(m) == Stopped && DepsRunning(c, w, m) ==> r.Phase(m) == Starting
    {
      assert m != n ==> r.kids[m] == v.kids[m];
      if m == n && DepsRunning(c, w, n) {
        StillRunning(c, w, v, n, k);
      }
      assert m in c.topo[..k + 1] ==> m == n || m in c.topo[..k];
    }
  }

  lemma CalmSpawns(e: Env, w: World, k: nat)
    requires CalmFrom(e, w) && k >= w.tries
    ensures e.spawns(k)
  {
  }

  lemma StillRunning(c: Config, w: World, v: World, n: Name, k: nat)
    requires w.Of(c) && v.Of(c) && n in c.children && k <= |c.topo| && ScannedTo(c, w, v, k) && DepsRunning(c, w, n)
    ensures DepsRunning(c, v, n)
  {
    hide Config.Valid;
    forall d | d in c.Deps(n) ensures d in v.kids && v.Phase(d) == Running {
      assert v.Phase(d) == w.Phase(d);
    }
  }

  lemma {:induction false} ScanQuietly(c: Config, e: Env, w: World, k: nat)
    requires w.Of(c) && CalmFrom(e, w) && k <= |c.topo|
    requires forall n {:trigger w.kids[n]} :: n in w.kids ==> !w.kids[n].completed
    ensures BringUp(c, e, w, k).Of(c) && ScannedTo(c, w, BringUp(c, e, w, k), k)
  {
    hide BringUpOne, CalmFrom, DepsRunning;
    if k > 0 {
      ScanQuietly(c, e, w, k - 1);
      ScanNext(c, e, w, BringUp(c, e, w, k - 1), k - 1);
    }
  }

  // ---- one tick ----

  /** What a tick does for a child: the live ones run, the waiting ones start, and the stopped
      ones start where all their dependencies ran before the tick. */
  ghost predicate Mends(c: Config, w: World, r: World)
    requires w.Of(c)
  {
    && Onwards(w, r)
    && forall n {:trigger r.kids[n]} :: n in w.kids ==>
         && (w.Phase(n).Live() ==> r.Phase(n) == Running)
         && (w.Phase(n) == Backoff ==> r.Phase(n) == Starting)
         && (w.Phase(n) == Stopped && DepsRunning(c, w, n) ==> r.Phase(n) == Starting)
         && !r.kids[n].completed && r.Phase(n) != Backoff && r.Phase(n) != Fatal
  }

  lemma AllVisited(c: Config, w: World, r: World)
    requires w.Of(c) && VisitedTo(c, w, r, |c.order|)
    ensures forall n {:trigger r.kids[n]} :: n in w.kids ==>
              r.Phase(n) == Visited(w.Phase(n)) && !r.kids[n].completed
  {
    assert c.order[..|c.order|] == c.order;
  }

  lemma CalmLater(e: Env, w: World, r: World)
    requires CalmFrom(e, w) && r.waits >= w.waits && r.tries >= w.tries
    ensures CalmFrom(e, r)
  {
  }

  lemma TickMends(c: Config, e: Env, w: World)
    requires PacedAll(c) && Plain(c) && Settling(c, w, e.clock(w.clocks)) && Monotone(e) && CalmFrom(e, w)
    ensures w.Of(c)
    ensures var r := Ticked(c, e, w); Inv(c, r) && Mends(c, w, r) && CalmFrom(e, r)
  {
    hide Inv, VisitAll, BringUp, Config.Valid, CalmFrom, Plain, DepsRunning, VisitedTo, Settling;
    SettlingInv(c, w, e.clock(w.clocks));
    var now, w1 := e.clock(w.clocks), w.(clocks := w.clocks + 1);
    NextReading(c, e, w);
    CalmLater(e, w, w1);
    TickKeeps(c, e, w);
    VisitAllQuietly(c, e, w1, now, |c.order|);
    var w2 := VisitAll(c, e, w1, now, |c.order|);
    VisitedOnwards(c, w1, w2, |c.order|);
    AllVisited(c, w1, w2);
    CalmLater(e, w1, w2);
    InvIsOf(c, w2);
    ScanQuietly(c, e, w2, |c.topo|);
    var r := BringUp(c, e, w2, |c.topo|);
    CalmLater(e, w2, r);
    forall n | n in w.kids
      ensures w.Phase(n).Live() ==> r.Phase(n) == Running
      ensures w.Phase(n) == Backoff ==> r.Phase(n) == Starting
      ensures w.Phase(n) == Stopped && DepsRunning(c, w, n) ==> r.Phase(n) == Starting
      ensures !r.kids[n].completed && r.Phase(n) != Backoff && r.Phase(n) != Fatal
    {
      assert w2.Phase(n) == Visited(w1.Phase(n));
      NotFatal(c, w, now, n);
      if w.Phase(n) == Stopped && DepsRunning(c, w, n) {
        RunningVisited(c, w, w2, n);
        InTopo(c, n);
      }
    }
  }

  lemma SettlingInv(c: Config, w: World, now: int)
    requires Settling(c, w, now)
    ensures Inv(c, w) && w.Of(c)
  {
  }

  lemma VisitedOnwards(c: Config, w: World, r: World, k: nat)
    requires k <= |c.order| && VisitedTo(c, w, r, k)
    ensures Onwards(w, r)
  {
  }

  lemma NotFatal(c: Config, w: World, now: int, n: Name)
    requires Settling(c, w, now) && n in w.kids
    ensures w.Phase(n) != Fatal
  {
  }

  lemma InTopo(c: Config, n: Name)
    requires c.Valid() && n in c.children
    ensures n in c.topo[..|c.topo|]
  {
    assert c.topo[..|c.topo|] == c.topo;
  }

  lemma RunningVisited(c: Config, w: World, r: World, n: Name)
    requires w.Of(c) && r.Of(c) && n in c.children && DepsRunning(c, w, n)
    requires forall m {:trigger r.kids[m]} :: m in w.kids ==> r.Phase(m) == Visited(w.Phase(m))
    ensures DepsRunning(c, r, n)
  {
    hide Config.Valid;
    forall d | d in c.Deps(n) ensures d in r.kids && r.Phase(d) == Running {
      assert r.Phase(d) == Visited(w.Phase(d));
    }
  }

  lemma NextReading(c: Config, e: Env, w: World)
    requires Monotone(e) && Settling(c, w, e.clock(w.clocks))
    ensures Settling(c, w.(clocks := w.clocks + 1), e.clock(w.clocks))
    ensures e.clock(w.clocks) <= e.clock(w.clocks + 1)
  {
    hide Table, KidsOk, DepSafe, Config.Valid;
    InvIsOf(c, w);
    InvCounters(c, w);
  }

  // ---- many ticks ----

  function TicksFrom(c: Config, e: Env, w: World, k: nat): (r: World)
    requires w.Of(c)
    ensures r.Of(c)
  {
    if k == 0 then w else Ticked(c, e, TicksFrom(c, e, w, k - 1))
  }

  lemma SettlingNext(c: Config, w: World, r: World, now: int)
    requires w.Of(c) && Inv(c, r) && Mends(c, w, r)
    ensures Settling(c, r, now)
  {
    hide Table, KidsOk, DepSafe, Config.Valid, DepsRunning;
  }

  lemma {:induction false} StaysSettling(c: Config, e: Env, w: World, k: nat)
    requires PacedAll(c) && Plain(c) && Settling(c, w, e.clock(w.clocks)) && Monotone(e) && CalmFrom(e, w)
    ensures w.Of(c)
    ensures var r := TicksFrom(c, e, w, k); Settling(c, r, e.clock(r.clocks)) && CalmFrom(e, r)
    ensures Mends(c, TicksFrom(c, e, w, k), TicksFrom(c, e, w, k + 1))
  {
    hide Ticked, Settling, CalmFrom, Mends, Config.Valid, Inv, Monotone, Plain;
    SettlingInv(c, w, e.clock(w.clocks));
    if k > 0 {
      StaysSettling(c, e, w, k - 1);
      var v := TicksFrom(c, e, w, k - 1);
      TickMends(c, e, v);
      SettlingNext(c, v, TicksFrom(c, e, w, k), e.clock(TicksFrom(c, e, w, k).clocks));
    }
    TickMends(c, e, TicksFrom(c, e, w, k));
  }

  /** Two ticks bring up every child whose dependencies run. */
  lemma TwoTicks(c: Config, a: World, b: World, d: World, n: Name)
    requires a.Of(c) && b.Of(c) && Mends(c, a, b) && Mends(c, b, d) && n in c.children && DepsRunning(c, a, n)
    requires a.Phase(n) != Fatal
    ensures d.Phase(n) == Running
  {
    hide Config.Valid, DepsRunning;
    assert b.Phase(n).Live();
  }

  lemma {:induction false} LevelsRecover(c: Config, e: Env, w: World, k: nat, n: Name)
    requires PacedAll(c) && Plain(c) && Settling(c, w, e.clock(w.clocks)) && Monotone(e) && CalmFrom(e, w)
    requires c.Valid() && n in c.children && Below(c, n, k)
    ensures w.Of(c) && TicksFrom(c, e, w, 2 * k).Phase(n) == Running
    decreases k
  {
    hide TicksFrom, Settling, CalmFrom, Mends, Inv, Monotone, Plain;
    SettlingInv(c, w, e.clock(w.clocks));
    var a := TicksFrom(c, e, w, 2 * (k - 1));
    forall d | d in c.Deps(n) ensures d in a.kids && a.Phase(d) == Running {
      LevelsRecover(c, e, w, k - 1, d);
    }
    StaysSettling(c, e, w, 2 * k - 2);
    StaysSettling(c, e, w, 2 * k - 1);
    NotFatal(c, a, e.clock(a.clocks), n);
    TwoTicks(c, a, TicksFrom(c, e, w, 2 * k - 1), TicksFrom(c, e, w, 2 * k), n);
  }

  lemma {:induction false} TicksFollow(c: Config, m: Mapping, e: Env, inputs: seq<Input>, k: nat)
    requires c.Valid() && m.Valid()
    ensures Run(c, m, e, inputs + seq(k, _ => TimerTick)).w == TicksFrom(c, e, Run(c, m, e, inputs).w, k)
  {
    hide Ticked, Config.Valid, Run;
    if k > 0 {
      TicksFollow(c, m, e, inputs, k - 1);
      var before := inputs + seq(k - 1, _ => TimerTick);
      assert inputs + seq(k, _ => TimerTick) == before + [TimerTick];
      RunNext(c, m, e, before, TimerTick);
    } else {
      assert inputs + seq(0, _ => TimerTick) == inputs;
    }
  }

  /** Nothing given up or completed, every wait over. */
  ghost predicate Mendable(e: Env, w: World) {
    CalmFrom(e, w) &&
    forall x {:trigger w.kids[x]} :: x in w.kids ==>
      w.Phase(x) != Fatal && !w.kids[x].completed &&
      (w.Phase(x) == Backoff ==> w.kids[x].state.resumeAt <= e.clock(w.clocks))
  }

  /** After any run that left nothing given up or completed, with every wait over: if nothing
      fails from there on, 2k ticks bring up every child of dependency depth below k. */
  lemma Recovers(c: Config, m: Mapping, e: Env, inputs: seq<Input>, k: nat, n: Name)
    requires Wired(c, m) && Plain(c) && Monotone(e) && n in c.children && Below(c, n, k)
    requires Mendable(e, Run(c, m, e, inputs).w)
    ensures Run(c, m, e, inputs + seq(2 * k, _ => TimerTick)).w.Phase(n) == Running
  {
    RunKeeps(c, m, e, inputs);
    RunInvInv(c, m, Run(c, m, e, inputs), History(inputs));
    hide Run, Config.Valid, Inv, Below, TicksFrom, Monotone, CalmFrom, Plain;
    LevelsRecover(c, e, Run(c, m, e, inputs).w, k, n);
    TicksFollow(c, m, e, inputs, 2 * k);
  }

  // ---- a run in which a waiting dependent starts after all ----

  /** 2 depends on the oneshot 1, which depends on 0. */
  function Triple(p: RestartPolicy): Config {
    Config(map[0 := Child(ChildSpec(0, [], false, p), false),
               1 := Child(ChildSpec(1, [0], true, p), false),
               2 := Child(ChildSpec(2, [1], false, p), false)],
           [0, 1, 2], [0, 1, 2])
  }

  /** The third poll finds the oneshot finished, the fourth finds child 0 crashed. */
  function Mishap(g: int): Env {
    Env(k => k * g, k => if k == 2 then Exited(true) else if k == 3 then Exited(false) else StillAlive, k => true)
  }

  predicate Usual(p: RestartPolicy, g: int) {
    0 < p.backoffBaseNs <= g && p.backoffMaxNs > 0 && p.startupTimeoutNs >= 0 && p.maxRestarts >= 1
  }

  lemma TripleIsValid(p: RestartPolicy)
    ensures Triple(p).Valid()
  {
    var t := Triple(p).topo;
    assert t[0] == 0 && t[1] == 1 && t[2] == 2;
    assert 0 in t && 1 in t && 2 in t;
    assert Index(t, 0) == 0 && Index(t, 1) == 1 && Index(t, 2) == 2;
    assert forall n, d :: n in Triple(p).children && d in Triple(p).Deps(n) ==> n == d + 1;
  }

  lemma TripleTick(p: RestartPolicy, g: int, w: World)
    requires w.Of(Triple(p))
    ensures var c, e, now := Triple(p), Mishap(g), w.clocks * g;
      var v1 := Visit(c, e, w.(clocks := w.clocks + 1), 0, now);
      var v3 := Visit(c, e, Visit(c, e, v1, 1, now), 2, now);
      Ticked(c, e, w) == BringUpOne(c, e, BringUpOne(c, e, BringUpOne(c, e, v3, 0), 1), 2)
  {
    hide Config.Valid, Visit, BringUpOne;
    var c, e, now := Triple(p), Mishap(g), w.clocks * g;
    var w1 := w.(clocks := w.clocks + 1);
    assert VisitAll(c, e, w1, now, 0) == w1;
    assert VisitAll(c, e, w1, now, 1) == Visit(c, e, w1, 0, now);
    assert VisitAll(c, e, w1, now, 2) == Visit(c, e, VisitAll(c, e, w1, now, 1), 1, now);
    assert VisitAll(c, e, w1, now, 3) == Visit(c, e, VisitAll(c, e, w1, now, 2), 2, now);
    TripleScan(p, g, VisitAll(c, e, w1, now, 3));
  }

  lemma TripleScan(p: RestartPolicy, g: int, w: World)
    requires w.Of(Triple(p))
    ensures var c, e := Triple(p), Mishap(g);
      BringUp(c, e, w, 3) == BringUpOne(c, e, BringUpOne(c, e, BringUpOne(c, e, w, 0), 1), 2)
  {
    hide Config.Valid, BringUpOne;
    var c, e := Triple(p), Mishap(g);
    assert BringUp(c, e, w, 0) == w;
    assert BringUp(c, e, w, 1) == BringUpOne(c, e, w, 0);
    assert BringUp(c, e, w, 2) == BringUpOne(c, e, BringUp(c, e, w, 1), 1);
  }

  /** Whether the dependency of 1, and that of 2, runs. */
  lemma TripleDeps(p: RestartPolicy, w: World)
    requires w.Of(Triple(p))
    ensures DepsRunning(Triple(p), w, 0)
    ensures DepsRunning(Triple(p), w, 1) <==> w.Phase(0) == Running
    ensures DepsRunning(Triple(p), w, 2) <==> w.Phase(1) == Running
  {
    var c := Triple(p);
    hide Config.Valid;
    assert 0 in c.Deps(1) && 1 in c.Deps(2);
  }

  /** A child as the run finds it: phase, process, mark, and no restart spent. */
  predicate Is(kid: Kid, phase: Phase, completed: bool) {
    && kid.state.phase == phase && kid.completed == completed && (kid.pid > 0 <==> phase.Live())
    && kid.state.restarts == 0 && kid.state.step == 0
  }

  ghost predicate Stage(p: RestartPolicy, w: World, waits: nat, a: Phase, o: Phase, done: bool, x: Phase) {
    && w.Of(Triple(p)) && w.waits == waits
    && Is(w.kids[0], a, false) && Is(w.kids[1], o, done) && Is(w.kids[2], x, false)
  }

  lemma StartIs(c: Config, e: Env, w: World, n: Name)
    requires w.Of(c) && n in c.children && e.spawns(w.tries) && Is(w.kids[n], Stopped, false) && DepsRunning(c, w, n)
    ensures var r := BringUpOne(c, e, w, n);
      Alone(w, r, n) && r.waits == w.waits && Is(r.kids[n], Starting, false)
  {
    hide Config.Valid, Feed, DepsRunning;
  }

  lemma RestIs(c: Config, e: Env, w: World, n: Name)
    requires w.Of(c) && n in c.children
    requires w.Phase(n) != Stopped || w.kids[n].completed || !DepsRunning(c, w, n)
    ensures BringUpOne(c, e, w, n) == w
  {
    hide Config.Valid, Feed, Respawned, DepsRunning;
  }

  lemma AliveIs(c: Config, e: Env, w: World, n: Name, now: int)
    requires w.Of(c) && n in c.children && !c.children[n].gated && e.wait(w.waits) == StillAlive
    requires Is(w.kids[n], Starting, false) || Is(w.kids[n], Running, false)
    ensures var r := Visit(c, e, w, n, now);
      Alone(w, r, n) && r.waits == w.waits + 1 && Is(r.kids[n], Running, false)
  {
    hide Config.Valid, Feed;
    var w1 := w.(waits := w.waits + 1);
    if w.Phase(n) == Starting {
      ConfirmIs(c, e, w1, n, AliveSeen);
    } else {
      ConfirmIs(c, e, w1, n, RunningStable);
    }
  }

  lemma ConfirmIs(c: Config, e: Env, w: World, n: Name, ev: Event)
    requires w.Of(c) && n in c.children
    requires || (Is(w.kids[n], Starting, false) && ev == AliveSeen)
             || (Is(w.kids[n], Running, false) && ev == RunningStable)
    ensures var r := Feed(c, e, w, n, ev); Alone(w, r, n) && r.waits == w.waits && Is(r.kids[n], Running, false)
  {
    hide Config.Valid, YieldAll, Dependents;
  }

  lemma IdleIs(c: Config, e: Env, w: World, n: Name, now: int)
    requires w.Of(c) && n in c.children && w.Phase(n) == Stopped && w.kids[n].pid <= 0
    ensures Visit(c, e, w, n, now) == w
  {
    hide Config.Valid, Feed;
  }

  lemma FinishIs(c: Config, e: Env, w: World, n: Name, now: int)
    requires w.Of(c) && n in c.children && c.children[n].spec.oneshot && e.wait(w.waits) == Exited(true)
    requires Is(w.kids[n], Starting, false)
    ensures var r := Visit(c, e, w, n, now);
      Alone(w, r, n) && r.waits == w.waits + 1 && Is(r.kids[n], Stopped, true)
  {
    hide Config.Valid, YieldAll, Dependents;
  }

  /** Activation and the first tick: 0 runs, the oneshot is started. */
  lemma FirstStages(p: RestartPolicy, g: int)
    ensures Triple(p).Valid()
    ensures Stage(p, Activated(Triple(p), Mishap(g)), 0, Starting, Stopped, false, Stopped)
  {
    TripleIsValid(p);
    hide Config.Valid, BringUpOne, BringUp, DepsRunning;
    var c, e, w := Triple(p), Mishap(g), Initial(Triple(p));
    TripleScan(p, g, w);
    TripleDeps(p, w);
    StartIs(c, e, w, 0);
    var w1 := BringUpOne(c, e, w, 0);
    TripleDeps(p, w1);
    RestIs(c, e, w1, 1);
    RestIs(c, e, w1, 2);
  }

  lemma SecondStage(p: RestartPolicy, g: int, w: World)
    requires Stage(p, w, 0, Starting, Stopped, false, Stopped)
    ensures Stage(p, Ticked(Triple(p), Mishap(g), w), 1, Running, Starting, false, Stopped)
  {
    hide Config.Valid, BringUpOne, Visit, DepsRunning, Ticked;
    var c, e, now := Triple(p), Mishap(g), w.clocks * g;
    var w1 := w.(clocks := w.clocks + 1);
    TripleTick(p, g, w);
    AliveIs(c, e, w1, 0, now);
    var v := Visit(c, e, w1, 0, now);
    IdleIs(c, e, v, 1, now);
    IdleIs(c, e, v, 2, now);
    TripleDeps(p, v);
    RestIs(c, e, v, 0);
    StartIs(c, e, v, 1);
    var u := BringUpOne(c, e, v, 1);
    TripleDeps(p, u);
    RestIs(c, e, u, 2);
  }

  /** The oneshot finishes before it was seen alive: its dependent waits. */
  lemma ThirdStage(p: RestartPolicy, g: int, w: World)
    requires Stage(p, w, 1, Running, Starting, false, Stopped)
    ensures Stage(p, Ticked(Triple(p), Mishap(g), w), 3, Running, Stopped, true, Stopped)
  {
    hide Config.Valid, BringUpOne, Visit, DepsRunning, Ticked;
    var c, e, now := Triple(p), Mishap(g), w.clocks * g;
    var w1 := w.(clocks := w.clocks + 1);
    TripleTick(p, g, w);
    AliveIs(c, e, w1, 0, now);
    var v := Visit(c, e, w1, 0, now);
    FinishIs(c, e, v, 1, now);
    var u := Visit(c, e, v, 1, now);
    IdleIs(c, e, u, 2, now);
    TripleDeps(p, u);
    RestIs(c, e, u, 0);
    RestIs(c, e, u, 1);
    RestIs(c, e, u, 2);
  }

  /** Child 0 crashes: it waits, and the oneshot's mark is gone. */
  ghost predicate Shaken(p: RestartPolicy, g: int, w: World) {
    && w.Of(Triple(p)) && w.waits == 4
    && w.Phase(0) == Backoff && !w.kids[0].completed && w.kids[0].state.resumeAt <= w.clocks * g
    && w.Phase(1) == Stopped && !w.kids[1].completed && w.kids[1].pid <= 0
    && w.Phase(2) == Stopped && !w.kids[2].completed && w.kids[2].pid <= 0
  }

  lemma CrashShakes(p: RestartPolicy, g: int, w: World)
    requires Usual(p, g) && w.Of(Triple(p)) && w.waits == 4
    requires w.Phase(0) == Running && w.kids[0].state.restarts == 0 && w.kids[0].state.step == 0 && !w.kids[0].completed
    requires w.Phase(1) == Stopped && w.kids[1].pid <= 0 && w.Phase(2) == Stopped && w.kids[2].pid <= 0
    ensures Shaken(p, g, Feed(Triple(p), Mishap(g), w, 0, ExitedCrash))
  {
    hide Config.Valid, YieldAll, Dependents, Step;
    var c, e, now := Triple(p), Mishap(g), w.clocks * g;
    StepOnDeath(c.children[0].spec, w.kids[0].state, ExitedCrash, now);
    var w1 := Moved(c, e, w, 0, ExitedCrash).0;
    TripleCascade(p);
    YieldAllSteady(c, e, w1, Dependents(c, 0));
    var w2 := YieldAll(c, e, w1, Dependents(c, 0));
    YieldAllUnmarks(c, e, w1, Dependents(c, 0), 1);
    YieldAllUnmarks(c, e, w1, Dependents(c, 0), 2);
    Ahead(w.clocks, w2.clocks, g);
  }

  lemma Ahead(j: nat, k: nat, g: int)
    requires j < k && g > 0
    ensures j * g + g <= k * g
  {
    assert (k - j - 1) * g >= 0;
  }

  lemma TripleCascade(p: RestartPolicy)
    requires Triple(p).Valid()
    ensures 1 in Dependents(Triple(p), 0) && 2 in Dependents(Triple(p), 0)
  {
    var c := Triple(p);
    assert 0 in c.Deps(1) && 1 in c.Deps(2);
    DependentsClosed(c, 0, 1, 0);
    DependentsClosed(c, 0, 2, 1);
  }

  lemma {:induction false} YieldAllSteady(c: Config, e: Env, w: World, ns: seq<Name>)
    requires w.Of(c) && forall n :: n in ns ==> n in c.children
    ensures var r := YieldAll(c, e, w, ns);
      && r.Of(c) && r.clocks >= w.clocks && r.waits == w.waits && r.tries == w.tries
      && forall m {:trigger r.kids[m]} :: m in w.kids && w.Phase(m) == Stopped ==>
           r.Phase(m) == Stopped && r.kids[m].pid == w.kids[m].pid
    decreases |ns|
  {
    hide Config.Valid, Step;
    if ns != [] {
      var last := ns[|ns| - 1];
      assert last in ns;
      YieldAllSteady(c, e, YieldOne(c, e, w, last), ns[..|ns| - 1]);
    }
  }

  lemma CrashPolled(c: Config, e: Env, w: World, n: Name, now: int)
    requires w.Of(c) && n in c.children && w.kids[n].pid > 0 && e.wait(w.waits) == Exited(false)
    ensures Visit(c, e, w, n, now) == Feed(c, e, Release(w.(waits := w.waits + 1), n), n, ExitedCrash)
  {
    hide Config.Valid, Feed;
  }

  lemma FourthStage(p: RestartPolicy, g: int, w: World)
    requires Usual(p, g) && Stage(p, w, 3, Running, Stopped, true, Stopped)
    ensures Shaken(p, g, Ticked(Triple(p), Mishap(g), w))
  {
    hide Config.Valid, BringUpOne, DepsRunning, Ticked, Feed, Visit, Shaken;
    var c, e, now := Triple(p), Mishap(g), w.clocks * g;
    var w1 := w.(clocks := w.clocks + 1);
    TripleTick(p, g, w);
    CrashPolled(c, e, w1, 0, now);
    var w2 := w1.(waits := w1.waits + 1);
    ReleaseAlone(c, w2, 0);
    ReleaseCounts(w2, 0);
    CrashShakes(p, g, Release(w2, 0));
    ShakenRest(p, g, w, Visit(c, e, w1, 0, now), now);
  }

  lemma ReleaseCounts(w: World, n: Name)
    requires n in w.kids
    ensures var r := Release(w, n); r.clocks == w.clocks && r.waits == w.waits && r.tries == w.tries
  {
  }

  /** The rest of that tick does nothing. */
  lemma ShakenRest(p: RestartPolicy, g: int, w: World, v: World, now: int)
    requires w.Of(Triple(p)) && Shaken(p, g, v)
    ensures var c, e := Triple(p), Mishap(g);
      BringUpOne(c, e, BringUpOne(c, e, BringUpOne(c, e, Visit(c, e, Visit(c, e, v, 1, now), 2, now), 0), 1), 2) == v
  {
    hide Config.Valid, BringUpOne, DepsRunning, Visit;
    var c, e := Triple(p), Mishap(g);
    IdleIs(c, e, v, 1, now);
    IdleIs(c, e, v, 2, now);
    TripleDeps(p, v);
    RestIs(c, e, v, 0);
    RestIs(c, e, v, 1);
    RestIs(c, e, v, 2);
  }

  function Ticks(k: nat): seq<Input> {
    seq(k, _ => TimerTick)
  }

  const NOBODY: Mapping := Mapping(map[], map[])

  lemma TicksTick(c: Config, m: Mapping, e: Env, k: nat)
    requires c.Valid() && m.Valid()
    ensures Run(c, m, e, Ticks(k + 1)).w == Ticked(c, e, Run(c, m, e, Ticks(k)).w)
  {
    hide Ticked, Config.Valid;
    assert Ticks(k + 1) == Ticks(k) + [TimerTick];
    RunNext(c, m, e, Ticks(k), TimerTick);
  }

  lemma Stages(p: RestartPolicy, g: int)
    requires Usual(p, g)
    ensures Triple(p).Valid() && NOBODY.Valid()
    ensures Stage(p, Run(Triple(p), NOBODY, Mishap(g), Ticks(2)).w, 3, Running, Stopped, true, Stopped)
    ensures Shaken(p, g, Run(Triple(p), NOBODY, Mishap(g), Ticks(3)).w)
  {
    FirstStages(p, g);
    var c, m, e := Triple(p), NOBODY, Mishap(g);
    assert Ticks(0) == [];
    assert Run(c, m, e, Ticks(0)).w == Activated(c, e);
    hide Config.Valid, Ticked, Run, Stage, Shaken, Activated, Ticks;
    TicksTick(c, m, e, 0);
    SecondStage(p, g, Run(c, m, e, Ticks(0)).w);
    TicksTick(c, m, e, 1);
    ThirdStage(p, g, Run(c, m, e, Ticks(1)).w);
    TicksTick(c, m, e, 2);
    FourthStage(p, g, Run(c, m, e, Ticks(2)).w);
  }

  lemma TripleIsPlain(p: RestartPolicy, g: int)
    requires Usual(p, g)
    ensures Wired(Triple(p), NOBODY) && Plain(Triple(p)) && Monotone(Mishap(g))
    ensures 2 in Triple(p).children && Below(Triple(p), 2, 3)
  {
    TripleIsValid(p);
    var c := Triple(p);
    assert Below(c, 0, 1) && Below(c, 1, 2);
    forall j: nat, k: nat | j <= k ensures Mishap(g).clock(j) <= Mishap(g).clock(k) {
      if j < k {
        Ahead(j, k, g);
      }
    }
  }

  lemma ShakenIsMendable(p: RestartPolicy, g: int, w: World)
    requires Shaken(p, g, w)
    ensures Mendable(Mishap(g), w)
  {
  }

  lemma StageWaits(p: RestartPolicy, w: World)
    requires Stage(p, w, 3, Running, Stopped, true, Stopped)
    ensures Waiting(w, 1, 2)
  {
  }

  /** A waiting dependent starts after all: after two ticks the oneshot has completed and its
      dependent waits; at the third the child under the oneshot crashes; six ticks later the
      dependent runs. */
  lemma WaitingEnds(p: RestartPolicy, g: int)
    requires Usual(p, g)
    ensures Triple(p).Valid() && NOBODY.Valid()
    ensures Waiting(Run(Triple(p), NOBODY, Mishap(g), Ticks(2)).w, 1, 2)
    ensures Run(Triple(p), NOBODY, Mishap(g), Ticks(9)).w.Phase(2) == Running
  {
    Stages(p, g);
    TripleIsPlain(p, g);
    var c, m, e := Triple(p), NOBODY, Mishap(g);
    hide *;
    StageWaits(p, Run(c, m, e, Ticks(2)).w);
    ShakenIsMendable(p, g, Run(c, m, e, Ticks(3)).w);
    AfterSixTicks(c, m, e, 2);
  }

  lemma AfterSixTicks(c: Config, m: Mapping, e: Env, n: Name)
    requires Wired(c, m) && Plain(c) && Monotone(e) && n in c.children && Below(c, n, 3)
    requires Mendable(e, Run(c, m, e, Ticks(3)).w)
    ensures Run(c, m, e, Ticks(9)).w.Phase(n) == Running
  {
    hide Config.Valid, Run, Plain, Monotone, Below, Mendable;
    Recovers(c, m, e, Ticks(3), 3, n);
    assert Ticks(9) == Ticks(3) + seq(2 * 3, _ => TimerTick);
  }
}
