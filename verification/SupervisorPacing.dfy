/** The supervisor is sound in every environment exactly if every policy is paced. */
module SupervisorPacing {
  import opened Sequences
  import opened SupervisorPolicy
  import opened SupervisorModel
  import opened SupervisorSafety
  import opened SupervisorCascade
  import opened SupervisorRuns
  import opened SupervisorOneshots
  import opened SupervisorBringUp
  import opened SupervisorConfirmation
  import opened SupervisorRounds
  import opened HealthFeed

  // ---- a step depends on the spawn answers it uses up, and on no later one ----

  /** Environments that differ at most in the spawn answers from t on. */
  ghost predicate Alike(e: Env, f: Env, t: nat) {
    e.clock == f.clock && e.wait == f.wait && forall k :: 0 <= k < t ==> e.spawns(k) == f.spawns(k)
  }

  lemma MovedLocal(c: Config, e: Env, f: Env, w: World, n: Name, ev: Event)
    requires w.Of(c) && n in c.children && e.clock == f.clock
    ensures Moved(c, e, w, n, ev) == Moved(c, f, w, n, ev) && Moved(c, e, w, n, ev).0.tries == w.tries
  {
    hide Config.Valid, Step;
  }

  lemma {:induction false} YieldAllLocal(c: Config, e: Env, f: Env, w: World, ns: seq<Name>)
    requires w.Of(c) && (forall n :: n in ns ==> n in c.children) && e.clock == f.clock
    ensures YieldAll(c, e, w, ns) == YieldAll(c, f, w, ns) && YieldAll(c, e, w, ns).tries == w.tries
    decreases |ns|
  {
    hide Config.Valid, Moved;
    if ns != [] {
      var last := ns[|ns| - 1];
      assert last in ns;
      var w0 := w.Put(last, w.kids[last].(completed := false));
      MovedLocal(c, e, f, w0, last, DepRestarting);
      YieldAllLocal(c, e, f, YieldOne(c, e, w, last), ns[..|ns| - 1]);
    }
  }

  lemma CascadedLocal(c: Config, e: Env, f: Env, w: World, n: Name, before: Phase)
    requires w.Of(c) && n in c.children && e.clock == f.clock
    ensures Cascaded(c, e, w, n, before) == Cascaded(c, f, w, n, before)
    ensures Cascaded(c, e, w, n, before).tries == w.tries
  {
    hide Config.Valid, YieldAll, Dependents;
    YieldAllLocal(c, e, f, w, Dependents(c, n));
  }

  lemma RespawnedLocal(c: Config, e: Env, f: Env, w: World, n: Name, t: nat)
    requires w.Of(c) && n in c.children
    ensures Respawned(c, e, w, n).Of(c) && Respawned(c, e, w, n).tries == w.tries + 1
    ensures Alike(e, f, t) && w.tries < t ==> Respawned(c, e, w, n) == Respawned(c, f, w, n)
  {
    hide Config.Valid, Moved;
    MovedLocal(c, e, e, w, n, Spawned);
    if Alike(e, f, t) {
      MovedLocal(c, e, f, w, n, Spawned);
    }
  }

  lemma {:induction false} FeedLocal(c: Config, e: Env, f: Env, w: World, n: Name, ev: Event, t: nat)
    requires w.Of(c) && n in c.children
    ensures w.tries <= Feed(c, e, w, n, ev).tries
    ensures Alike(e, f, t) && Feed(c, e, w, n, ev).tries <= t ==> Feed(c, e, w, n, ev) == Feed(c, f, w, n, ev)
    decreases Rank(w.Phase(n), ev)
  {
    hide Config.Valid, Cascaded, Respawned, Step, Moved;
    var (w1, a) := Moved(c, e, w, n, ev);
    MovedLocal(c, e, e, w, n, ev);
    CascadedLocal(c, e, e, w1, n, w.Phase(n));
    var w2 := Cascaded(c, e, w1, n, w.Phase(n));
    if Alike(e, f, t) {
      MovedLocal(c, e, f, w, n, ev);
      CascadedLocal(c, e, f, w1, n, w.Phase(n));
    }
    if a.SpawnAt? && a.at <= e.clock(w.clocks) {
      MovedSpawns(c, e, w, n, ev);
      RespawnedLocal(c, e, f, w2, n, t);
      if !e.spawns(w2.tries) {
        FeedLocal(c, e, f, Respawned(c, e, w2, n), n, ExitedCrash, t);
      }
    }
  }

  lemma BringUpOneLocal(c: Config, e: Env, f: Env, w: World, n: Name, t: nat)
    requires w.Of(c) && n in c.children
    ensures w.tries <= BringUpOne(c, e, w, n).tries
    ensures Alike(e, f, t) && BringUpOne(c, e, w, n).tries <= t ==> BringUpOne(c, e, w, n) == BringUpOne(c, f, w, n)
  {
    hide Config.Valid, Feed, Respawned;
    RespawnedLocal(c, e, f, w, n, t);
    FeedLocal(c, e, f, Respawned(c, e, w, n), n, ExitedCrash, t);
  }

  lemma {:induction false} BringUpLocal(c: Config, e: Env, f: Env, w: World, k: nat, t: nat)
    requires w.Of(c) && k <= |c.topo|
    ensures w.tries <= BringUp(c, e, w, k).tries
    ensures Alike(e, f, t) && BringUp(c, e, w, k).tries <= t ==> BringUp(c, e, w, k) == BringUp(c, f, w, k)
  {
    hide BringUpOne, Alike;
    if k > 0 {
      BringUpLocal(c, e, f, w, k - 1, t);
      BringUpOneLocal(c, e, f, BringUp(c, e, w, k - 1), c.topo[k - 1], t);
    }
  }

  lemma PollLocal(c: Config, e: Env, f: Env, w: World, n: Name, now: int, t: nat)
    requires w.Of(c) && n in c.children
    ensures w.tries <= Poll(c, e, w, n, now).0.tries
    ensures Alike(e, f, t) && Poll(c, e, w, n, now).0.tries <= t ==> Poll(c, e, w, n, now) == Poll(c, f, w, n, now)
  {
    hide Config.Valid, Feed;
    var w1 := w.(waits := w.waits + 1);
    FeedLocal(c, e, f, w1, n, AliveSeen, t);
    FeedLocal(c, e, f, w1, n, RunningStable, t);
    if w.kids[n].pid > 0 {
      ReleaseAlone(c, w1, n);
      FeedLocal(c, e, f, Release(w1, n), n, ExitedOk, t);
      FeedLocal(c, e, f, Release(w1, n), n, ExitedCrash, t);
    }
  }

  lemma VisitLocal(c: Config, e: Env, f: Env, w: World, n: Name, now: int, t: nat)
    requires w.Of(c) && n in c.children
    ensures w.tries <= Visit(c, e, w, n, now).tries
    ensures Alike(e, f, t) && Visit(c, e, w, n, now).tries <= t ==> Visit(c, e, w, n, now) == Visit(c, f, w, n, now)
  {
    hide Config.Valid, Feed, Poll, Alike;
    PollLocal(c, e, f, w, n, now, t);
    var w1 := Poll(c, e, w, n, now).0;
    FeedLocal(c, e, f, w1, n, Tick, t);
    var w2 := CheckBackoff(c, e, w1, n, now);
    ReleaseAlone(c, w2, n);
    FeedLocal(c, e, f, Release(w2, n), n, StartTimeout, t);
  }

  lemma {:induction false} VisitAllLocal(c: Config, e: Env, f: Env, w: World, now: int, k: nat, t: nat)
    requires w.Of(c) && k <= |c.order|
    ensures w.tries <= VisitAll(c, e, w, now, k).tries
    ensures Alike(e, f, t) && VisitAll(c, e, w, now, k).tries <= t ==>
              VisitAll(c, e, w, now, k) == VisitAll(c, f, w, now, k)
  {
    hide Visit, Alike;
    if k > 0 {
      VisitAllLocal(c, e, f, w, now, k - 1, t);
      VisitLocal(c, e, f, VisitAll(c, e, w, now, k - 1), c.order[k - 1], now, t);
    }
  }

  lemma TickLocal(c: Config, e: Env, f: Env, w: World, t: nat)
    requires w.Of(c)
    ensures w.tries <= Ticked(c, e, w).tries
    ensures Alike(e, f, t) && Ticked(c, e, w).tries <= t ==> Ticked(c, e, w) == Ticked(c, f, w)
  {
    hide VisitAll, BringUp, Config.Valid;
    var w1, now := w.(clocks := w.clocks + 1), e.clock(w.clocks);
    VisitAllLocal(c, e, f, w1, now, |c.order|, t);
    BringUpLocal(c, e, f, VisitAll(c, e, w1, now, |c.order|), |c.topo|, t);
  }

  lemma {:induction false} DeliveredLocal(c: Config, e: Env, f: Env, w: World, out: seq<Signal>, t: nat)
    requires w.Of(c)
    ensures w.tries <= Delivered(c, e, w, out).tries
    ensures Alike(e, f, t) && Delivered(c, e, w, out).tries <= t ==> Delivered(c, e, w, out) == Delivered(c, f, w, out)
    decreases |out|
  {
    hide Config.Valid, Feed, Alike;
    if out != [] {
      var s := out[0];
      if s.child in c.children {
        FeedLocal(c, e, f, w, s.child, if s.alive then HealthOk else HealthLost, t);
      }
      DeliveredLocal(c, e, f, Signalled(c, e, w, s), out[1..], t);
    }
  }

  lemma NextLocal(c: Config, m: Mapping, e: Env, f: Env, s: System, i: Input, t: nat)
    requires s.w.Of(c) && m.Valid() && s.vs.Keys == m.nodes.Keys
    ensures s.w.tries <= Next(c, m, e, s, i).w.tries
    ensures Alike(e, f, t) && Next(c, m, e, s, i).w.tries <= t ==> Next(c, m, e, s, i) == Next(c, m, f, s, i)
  {
    hide Config.Valid, Ticked, Delivered, Dispatched, Alike;
    match i {
      case TimerTick => TickLocal(c, e, f, s.w, t);
      case Report(items) => DeliveredLocal(c, e, f, s.w, Dispatched(m, s.vs, items).1, t);
    }
  }

  /** Two environments that give the same answers to what a run asks have the same run. */
  lemma {:induction false} RunLocal(c: Config, m: Mapping, e: Env, f: Env, inputs: seq<Input>, t: nat)
    requires c.Valid() && m.Valid() && Alike(e, f, t) && Run(c, m, e, inputs).w.tries <= t
    ensures Run(c, m, e, inputs) == Run(c, m, f, inputs)
  {
    hide Alike, Next, BringUp, Config.Valid;
    if inputs == [] {
      BringUpLocal(c, e, f, Initial(c), |c.topo|, t);
    } else {
      var before := inputs[..|inputs| - 1];
      NextLocal(c, m, e, f, Run(c, m, e, before), inputs[|inputs| - 1], t);
      RunLocal(c, m, e, f, before, t);
    }
  }

  // ---- a quiet tree around one troubled child ----

  /** Nobody but n waits to restart or has given up. */
  ghost predicate Steady(c: Config, w: World, n: Name)
    requires w.Of(c)
  {
    forall m {:trigger w.kids[m]} :: m in c.children && m != n ==> w.Phase(m) != Backoff && w.Phase(m) != Fatal
  }

  /** And no gated child but n waits for a report. */
  ghost predicate Poised(c: Config, w: World, n: Name)
    requires w.Of(c)
  {
    && Steady(c, w, n)
    && forall m {:trigger w.kids[m]} :: m in c.children && m != n && c.children[m].gated ==> w.Phase(m) != Starting
  }

  ghost predicate Quiet(e: Env) {
    forall k :: e.wait(k) == StillAlive
  }

  lemma PoisedVisit(c: Config, e: Env, w: World, n: Name, m: Name, now: int)
    requires w.Of(c) && Quiet(e) && n in c.children && m in c.children && m != n && Poised(c, w, n)
    ensures var r := Visit(c, e, w, m, now);
      r.Of(c) && r.tries == w.tries && Poised(c, r, n) && r.kids[n] == w.kids[n]
  {
    hide Config.Valid, Feed;
    var w1 := w.(waits := w.waits + 1);
    assert w.Phase(m) != Backoff && w.Phase(m) != Fatal && (c.children[m].gated ==> w.Phase(m) != Starting);
    if w.kids[m].pid > 0 {
      if w.Phase(m) == Starting {
        ConfirmAlone(c, e, w1, m, AliveSeen);
        ConfirmTries(c, e, w1, m, AliveSeen);
      } else if w.Phase(m) == Running {
        ConfirmAlone(c, e, w1, m, RunningStable);
        ConfirmTries(c, e, w1, m, RunningStable);
      }
    }
  }

  lemma ConfirmTries(c: Config, e: Env, w: World, n: Name, ev: Event)
    requires w.Of(c) && n in c.children
    requires (w.Phase(n) == Starting && ev == AliveSeen) || (w.Phase(n) == Running && ev == RunningStable)
    ensures Feed(c, e, w, n, ev).Of(c) && Feed(c, e, w, n, ev).tries == w.tries
  {
    hide Config.Valid, YieldAll, Dependents;
  }

  /** The visits from j to k, none of them to n. */
  lemma {:induction false} PoisedVisits(c: Config, e: Env, w: World, n: Name, now: int, j: nat, k: nat)
    requires w.Of(c) && Quiet(e) && n in c.children && j <= k <= |c.order|
    requires VisitAll(c, e, w, now, j).Of(c) && Poised(c, VisitAll(c, e, w, now, j), n)
    requires forall i :: j <= i < k ==> c.order[i] != n
    ensures var v, r := VisitAll(c, e, w, now, j), VisitAll(c, e, w, now, k);
      r.Of(c) && r.tries == v.tries && Poised(c, r, n) && r.kids[n] == v.kids[n]
  {
    hide Visit, Poised, Config.Valid;
    if j < k {
      PoisedVisits(c, e, w, n, now, j, k - 1);
      OrderMember(c, k - 1);
      PoisedVisit(c, e, VisitAll(c, e, w, now, k - 1), n, c.order[k - 1], now);
    }
  }

  lemma OrderMember(c: Config, i: nat)
    requires c.Valid() && i < |c.order|
    ensures c.order[i] in c.children
  {
    var n := c.order[i];
    assert n in c.order;
  }

  lemma SteadyBringUpOne(c: Config, e: Env, w: World, n: Name, m: Name)
    requires w.Of(c) && n in c.children && m in c.children && Steady(c, w, n) && w.Phase(n) != Stopped
    requires e.spawns(w.tries)
    ensures var r := BringUpOne(c, e, w, m);
      r.Of(c) && r.tries >= w.tries && r.clocks >= w.clocks && Steady(c, r, n) && r.kids[n] == w.kids[n]
  {
    hide Config.Valid, Feed, Respawned, DepsRunning;
    if m != n && w.Phase(m) == Stopped && !w.kids[m].completed {
      RespawnedAlone(c, e, w, m);
      RespawnedFresh(c, e, w, m);
      RespawnedLocal(c, e, e, w, m, 0);
      RespawnedClocks(c, e, w, m);
    }
  }

  lemma RespawnedClocks(c: Config, e: Env, w: World, n: Name)
    requires w.Of(c) && n in c.children
    ensures Respawned(c, e, w, n).clocks == w.clocks + 1
  {
    hide Config.Valid, Step;
  }

  /** The rest of a scan, with every spawn succeeding. */
  lemma {:induction false} SteadyScan(c: Config, e: Env, w: World, n: Name, j: nat, k: nat)
    requires w.Of(c) && n in c.children && j <= k <= |c.topo|
    requires var v := BringUp(c, e, w, j);
      v.Of(c) && Steady(c, v, n) && v.Phase(n) != Stopped && forall i :: i >= v.tries ==> e.spawns(i)
    ensures var v, r := BringUp(c, e, w, j), BringUp(c, e, w, k);
      r.Of(c) && r.tries >= v.tries && r.clocks >= v.clocks && Steady(c, r, n) && r.kids[n] == v.kids[n]
  {
    hide BringUpOne, Steady, Config.Valid;
    if j < k {
      SteadyScan(c, e, w, n, j, k - 1);
      IndexAt(c, k - 1);
      SteadyBringUpOne(c, e, BringUp(c, e, w, k - 1), n, c.topo[k - 1]);
    }
  }

  // ---- the first start of an unpaced child ----

  /** The inputs of round k up to its report. */
  ghost function Midway(c: Config, m: Mapping, k: nat): seq<Input>
    requires c.Valid()
  {
    Rounds(c, m, k) + [Report(News(c, m, k))]
  }

  /** The world in which scan number k begins: at activation, and in the tick of every round. */
  ghost function ScanStart(c: Config, m: Mapping, e: Env, k: nat): (w: World)
    requires c.Valid() && m.Valid()
    ensures w.Of(c)
  {
    if k == 0 then Initial(c)
    else
      var w := Run(c, m, e, Midway(c, m, k - 1)).w;
      VisitAll(c, e, w.(clocks := w.clocks + 1), e.clock(w.clocks), |c.order|)
  }

  lemma ScanEnds(c: Config, m: Mapping, e: Env, k: nat)
    requires c.Valid() && m.Valid()
    ensures Run(c, m, e, Rounds(c, m, k)).w == BringUp(c, e, ScanStart(c, m, e, k), |c.topo|)
  {
    hide BringUp, VisitAll, Config.Valid, News;
    if k > 0 {
      RunNext(c, m, e, Midway(c, m, k - 1), TimerTick);
    }
  }

  lemma ScanStartRises(c: Config, m: Mapping, e: Env, k: nat)
    requires Gating(c, m) && Calm(e)
    ensures Rising(c, ScanStart(c, m, e, k), k, 0)
  {
    hide VisitAll, Below, Config.Valid, Settled, Ticked, Run, Rounds, News, AtLevel;
    if k == 0 {
      InitialRises(c);
    } else {
      RoundsRaise(c, m, e, k - 1);
      ReportAwakes(c, m, e, k - 1);
      var w := Run(c, m, e, Midway(c, m, k - 1)).w;
      var w1 := w.(clocks := w.clocks + 1);
      assert Polled(c, w1, k - 1, 0);
      VisitAllPolls(c, e, w1, e.clock(w.clocks), k - 1, |c.order|);
      AllPolled(c, ScanStart(c, m, e, k), k - 1);
    }
  }

  lemma InitialRises(c: Config)
    requires c.Valid()
    ensures Rising(c, Initial(c), 0, 0)
  {
  }

  lemma AllPolled(c: Config, w: World, k: nat)
    requires w.Of(c) && Polled(c, w, k, |c.order|)
    ensures Rising(c, w, k + 1, 0)
  {
    assert c.order[..|c.order|] == c.order;
  }

  lemma ScanStartLocal(c: Config, m: Mapping, e: Env, f: Env, k: nat, t: nat)
    requires c.Valid() && m.Valid() && Alike(e, f, t) && ScanStart(c, m, e, k).tries <= t
    ensures ScanStart(c, m, e, k) == ScanStart(c, m, f, k)
  {
    hide VisitAll, BringUp, Config.Valid, Run, Midway;
    if k > 0 {
      var w := Run(c, m, e, Midway(c, m, k - 1)).w;
      VisitAllLocal(c, e, f, w.(clocks := w.clocks + 1), e.clock(w.clocks), |c.order|, t);
      RunLocal(c, m, e, f, Midway(c, m, k - 1), t);
    }
  }

  /** The scan that starts n for the first time. */
  lemma {:induction false} FirstScan(c: Config, n: Name, j: nat) returns (k: nat)
    requires c.Valid() && n in c.children && Below(c, n, j)
    ensures Below(c, n, k + 1) && !Below(c, n, k)
    decreases j
  {
    if Below(c, n, j - 1) {
      k := FirstScan(c, n, j - 1);
    } else {
      k := j - 1;
    }
  }

  /** Right before its first start: n is stopped, its dependencies run, the rest is steady. */
  ghost predicate AboutToStart(c: Config, w: World, n: Name)
    requires w.Of(c)
  {
    && n in c.children && w.Phase(n) == Stopped && !w.kids[n].completed && w.kids[n].pid <= 0
    && w.kids[n].state.restarts == 0 && w.kids[n].state.step == 0
    && DepsRunning(c, w, n) && Steady(c, w, n)
  }

  lemma RisingIsSteady(c: Config, w: World, k: nat, i: nat, n: Name)
    requires w.Of(c) && Rising(c, w, k, i) && n in c.children && Below(c, n, k + 1) && !Below(c, n, k)
    requires Index(c.topo, n) >= i
    ensures AboutToStart(c, w, n)
  {
    assert Settled(w.kids[n], Target(c, n, k, false));
    DepsRunningIffBelow(c, w, n, k, i);
    forall m | m in c.children && m != n ensures w.Phase(m) != Backoff && w.Phase(m) != Fatal {
      assert Settled(w.kids[m], Target(c, m, k, Index(c.topo, m) < i));
    }
  }

  /** Quiet environments in which clock readings are b apart and two spawns fail. */
  function Failing(b: int, k1: nat, k2: nat): Env {
    Env(k => k * b, k => StillAlive, k => k != k1 && k != k2)
  }

  function Smooth(b: int): Env {
    Env(k => k * b, k => StillAlive, k => true)
  }

  lemma FailingAlike(b: int, k1: nat, k2: nat, t: nat)
    ensures t <= k1 && t <= k2 ==> Alike(Smooth(b), Failing(b, k1, k2), t)
    ensures t <= k2 ==> Alike(Failing(b, k1, k1), Failing(b, k1, k2), t)
  {
  }

  /** A crash at the first step of its budget: the wait lies ahead. */
  lemma CrashWaits(c: Config, e: Env, w: World, n: Name)
    requires w.Of(c) && n in c.children && w.Phase(n) == Starting
    requires var p, st := c.children[n].spec.policy, w.kids[n].state;
      st.restarts < p.maxRestarts && Delay(p, st.step) > 0
    ensures var p, st, r := c.children[n].spec.policy, w.kids[n].state, Feed(c, e, w, n, ExitedCrash);
      var now := e.clock(w.clocks);
      && r.Of(c) && r.tries == w.tries && r.clocks > w.clocks
      && r.kids[n] == Kid(ChildState(Backoff, st.restarts + 1, now, now + Delay(p, st.step), st.step + 1),
                          w.kids[n].pid, w.kids[n].completed)
  {
    hide Config.Valid, Step, YieldAll, Dependents, Delay;
    StepOnDeath(c.children[n].spec, w.kids[n].state, ExitedCrash, e.clock(w.clocks));
    var w1 := Moved(c, e, w, n, ExitedCrash).0;
    YieldAllLocal(c, e, e, w1, Dependents(c, n));
    YieldAllClocks(c, e, w1, Dependents(c, n));
  }

  lemma {:induction false} YieldAllClocks(c: Config, e: Env, w: World, ns: seq<Name>)
    requires w.Of(c) && forall n :: n in ns ==> n in c.children
    ensures YieldAll(c, e, w, ns).Of(c) && YieldAll(c, e, w, ns).clocks >= w.clocks
    decreases |ns|
  {
    hide Config.Valid, Step;
    if ns != [] {
      var last := ns[|ns| - 1];
      assert last in ns;
      YieldAllClocks(c, e, YieldOne(c, e, w, last), ns[..|ns| - 1]);
    }
  }

  /** A crash whose wait is already over, the spawn succeeding: BACKOFF with a process. */
  lemma CrashDue(c: Config, e: Env, w: World, n: Name)
    requires w.Of(c) && n in c.children && w.Phase(n) == Starting && e.spawns(w.tries)
    requires var p, st := c.children[n].spec.policy, w.kids[n].state;
      st.restarts < p.maxRestarts && Delay(p, st.step) <= 0
    ensures var r := Feed(c, e, w, n, ExitedCrash);
      r.Of(c) && r.tries == w.tries + 1 && r.Phase(n) == Backoff && r.kids[n].pid > 0
  {
    hide Config.Valid, Step, YieldAll, Dependents, Delay;
    StepOnDeath(c.children[n].spec, w.kids[n].state, ExitedCrash, e.clock(w.clocks));
    var w1 := Moved(c, e, w, n, ExitedCrash).0;
    var w2 := YieldAll(c, e, w1, Dependents(c, n));
    YieldAllLocal(c, e, e, w1, Dependents(c, n));
    RespawnedLocal(c, e, e, w2, n, 0);
    RespawnedWith(c, e, w2, n);
  }

  lemma RespawnedWith(c: Config, e: Env, w: World, n: Name)
    requires w.Of(c) && n in c.children && w.Phase(n) != Stopped
    ensures var r := Respawned(c, e, w, n);
      && r.kids[n].pid == (if e.spawns(w.tries) then w.tries + 1 else w.kids[n].pid)
      && r.kids[n].state == w.kids[n].state && r.kids[n].completed == w.kids[n].completed
  {
    hide Config.Valid;
  }

  lemma RespawnedFirst(c: Config, e: Env, w: World, n: Name)
    requires w.Of(c) && n in c.children && w.Phase(n) == Stopped && !e.spawns(w.tries)
    ensures var r := Respawned(c, e, w, n);
      && r.Phase(n) == Starting && r.kids[n].pid == w.kids[n].pid && r.kids[n].completed == w.kids[n].completed
      && r.kids[n].state.restarts == w.kids[n].state.restarts && r.kids[n].state.step == w.kids[n].state.step
  {
    hide Config.Valid;
  }

  lemma BesideSteady(c: Config, w: World, r: World, n: Name)
    requires w.Of(c) && r.Of(c) && n in c.children && Steady(c, w, n) && OthersBeside(w, r, n)
    ensures Steady(c, r, n)
  {
    hide Config.Valid;
    forall m | m in c.children && m != n ensures r.Phase(m) != Backoff && r.Phase(m) != Fatal {
      assert Beside(w.kids[m], r.kids[m]);
    }
  }

  /** The first start fails; w1 is what the attempt leaves, before the crash is fed. */
  lemma FirstStartFails(c: Config, e: Env, w: World, n: Name)
    requires w.Of(c) && AboutToStart(c, w, n) && !e.spawns(w.tries)
    ensures var w1, r := Respawned(c, e, w, n), BringUpOne(c, e, w, n);
      && w1.Of(c) && w1.Phase(n) == Starting && w1.tries == w.tries + 1
      && w1.kids[n].state.restarts == 0 && w1.kids[n].state.step == 0 && w1.kids[n].pid <= 0 && !w1.kids[n].completed
      && r.Of(c) && r == Feed(c, e, w1, n, ExitedCrash) && Steady(c, r, n)
  {
    hide Config.Valid, Feed, Respawned, Steady, DepsRunning;
    RespawnedFirst(c, e, w, n);
    RespawnedLocal(c, e, e, w, n, 0);
    BringUpOneEffect(c, e, w, n);
    BesideSteady(c, w, BringUpOne(c, e, w, n), n);
  }

  ghost predicate Broken(w: World, n: Name) {
    n in w.kids && w.Phase(n) == Backoff && w.kids[n].pid > 0
  }

  lemma BrokenIsUnsound(c: Config, w: World, n: Name)
    requires w.Of(c) && Broken(w, n)
    ensures !Inv(c, w)
  {
    assert !Owns(w.kids[n]);
  }

  /** Where n is about to start for the first time, in a calm run: scan number and position. */
  lemma FindStart(c: Config, m: Mapping, b: int, n: Name) returns (k: nat, i: nat)
    requires Gating(c, m) && n in c.children
    ensures i < |c.topo| && c.topo[i] == n && Below(c, n, k + 1) && !Below(c, n, k)
    ensures var v := BringUp(c, Smooth(b), ScanStart(c, m, Smooth(b), k), i);
      v.Of(c) && Rising(c, v, k, i) && AboutToStart(c, v, n)
    ensures ScanStart(c, m, Smooth(b), k).tries <= BringUp(c, Smooth(b), ScanStart(c, m, Smooth(b), k), i).tries
  {
    hide BringUp, ScanStart, Below, Rising, AboutToStart;
    var e := Smooth(b);
    TopoPosition(c, n);
    i := Index(c.topo, n);
    DepthByIndex(c, n, i + 1);
    k := FirstScan(c, n, i + 1);
    ScanStartRises(c, m, e, k);
    var s := ScanStart(c, m, e, k);
    ScanRises(c, e, s, k, i);
    RisingIsSteady(c, BringUp(c, e, s, i), k, i, n);
    BringUpLocal(c, e, e, s, i, 0);
  }

  lemma TopoPosition(c: Config, n: Name)
    requires c.Valid() && n in c.children
    ensures n in c.topo
  {
  }

  /** The calm run up to that point, replayed where the spawn fails. */
  lemma Replay(c: Config, m: Mapping, b: int, k: nat, i: nat, k2: nat)
    requires c.Valid() && m.Valid() && i <= |c.topo|
    requires var s := ScanStart(c, m, Smooth(b), k);
      var v := BringUp(c, Smooth(b), s, i); s.tries <= v.tries <= k2
    ensures var v := BringUp(c, Smooth(b), ScanStart(c, m, Smooth(b), k), i);
      BringUp(c, Failing(b, v.tries, k2), ScanStart(c, m, Failing(b, v.tries, k2), k), i) == v
  {
    hide BringUp, ScanStart, Alike, Config.Valid;
    var e, s := Smooth(b), ScanStart(c, m, Smooth(b), k);
    var v := BringUp(c, e, s, i);
    var f := Failing(b, v.tries, k2);
    FailingAlike(b, v.tries, k2, v.tries);
    ScanStartLocal(c, m, e, f, k, v.tries);
    BringUpLocal(c, e, f, s, i, v.tries);
  }

  /** base <= 0: the wait after the failed first start is over at once. */
  lemma BaseBreaks(c: Config, m: Mapping, n: Name) returns (e: Env, inputs: seq<Input>)
    requires Gating(c, m) && n in c.children
    requires var p := c.children[n].spec.policy; p.maxRestarts > 0 && p.backoffBaseNs <= 0
    ensures !Inv(c, Run(c, m, e, inputs).w)
  {
    hide BringUp, ScanStart, BringUpOne, Feed, Run, Inv, Steady, AboutToStart, Respawned, Config.Valid, Rising, Rounds;
    var k, i := FindStart(c, m, 0, n);
    var v := BringUp(c, Smooth(0), ScanStart(c, m, Smooth(0), k), i);
    Replay(c, m, 0, k, i, v.tries);
    e, inputs := Failing(0, v.tries, v.tries), Rounds(c, m, k);
    var s := ScanStart(c, m, e, k);
    AboutToStartChild(c, v, n);
    FirstStartFails(c, e, v, n);
    CrashDue(c, e, Respawned(c, e, v, n), n);
    NextOfScan(c, e, s, i);
    SteadyScan(c, e, s, n, i + 1, |c.topo|);
    ScanEnds(c, m, e, k);
    BrokenIsUnsound(c, Run(c, m, e, inputs).w, n);
  }

  lemma AboutToStartChild(c: Config, w: World, n: Name)
    requires w.Of(c) && AboutToStart(c, w, n)
    ensures n in c.children
  {
  }

  lemma NextOfScan(c: Config, e: Env, w: World, i: nat)
    requires w.Of(c) && i < |c.topo|
    ensures BringUp(c, e, w, i + 1) == BringUpOne(c, e, BringUp(c, e, w, i), c.topo[i])
    ensures BringUp(c, e, w, i + 1).Of(c)
  {
    hide BringUpOne;
  }

  // ---- base > 0 >= max: the second wait is over at once ----

  /** After the failed first start n waits, and has a whole base to wait. */
  ghost predicate WaitsABase(c: Config, b: int, w: World, n: Name) {
    && w.Of(c) && n in c.children && w.kids[n].pid <= 0 && w.Phase(n) == Backoff && !w.kids[n].completed
    && w.kids[n].state.restarts == 1 && w.kids[n].state.step == 1
    && w.kids[n].state.resumeAt <= w.clocks * b
    && Steady(c, w, n)
  }

  lemma PaceAhead(j: nat, k: nat, b: int)
    requires j < k && b > 0
    ensures j * b + b <= k * b
  {
    assert (k - j - 1) * b >= 0;
  }

  /** The scan of level k as it goes for everybody but n. */
  ghost predicate RisingBut(c: Config, w: World, k: nat, i: nat, n: Name)
    requires w.Of(c)
  {
    forall m {:trigger w.kids[m]} :: m in c.children && m != n ==>
      Settled(w.kids[m], Target(c, m, k, Index(c.topo, m) < i))
  }

  /** Children that are stopped without a mark have nothing to give up. */
  lemma {:induction false} YieldIdle(c: Config, e: Env, w: World, ns: seq<Name>)
    requires w.Of(c)
    requires forall m {:trigger m in ns} :: m in ns ==> m in c.children && w.Phase(m) == Stopped && !w.kids[m].completed
    ensures YieldAll(c, e, w, ns).kids == w.kids
    decreases |ns|
  {
    hide Config.Valid, Step;
    if ns != [] {
      var last := ns[|ns| - 1];
      assert last in ns;
      var w1 := YieldOne(c, e, w, last);
      var init := ns[..|ns| - 1];
      assert w1.Of(c) && w1.kids == w.kids;
      forall m | m in init ensures m in c.children && w1.Phase(m) == Stopped && !w1.kids[m].completed {
        assert m in ns;
      }
      YieldIdle(c, e, w1, init);
    }
  }

  /** Nothing that depends on n is started before n runs. */
  lemma DependentsBelow(c: Config, w: World, k: nat, i: nat, n: Name, m: Name)
    requires w.Of(c) && RisingBut(c, w, k, i, n) && n in c.children && !Below(c, n, k) && m in Dependents(c, n)
    ensures m in c.children && m != n && w.Phase(m) == Stopped && !w.kids[m].completed
  {
    hide Dependents, Config.Valid, Below;
    DependentHigher(c, n, m, k);
    assert Settled(w.kids[m], Target(c, m, k, Index(c.topo, m) < i));
    BelowUp(c, m, k);
  }

  lemma DependentHigher(c: Config, n: Name, m: Name, k: nat)
    requires c.Valid() && n in c.children && !Below(c, n, k) && m in Dependents(c, n)
    ensures m in c.children && m != n && !Below(c, m, k + 1)
  {
    hide Dependents;
    DependentsExact(c, n, m);
    var p :| |p| >= 2 && p[0] == m && p[|p| - 1] == n && Links(c, p);
    ChainHigher(c, p, k);
  }

  lemma {:induction false} ChainHigher(c: Config, p: seq<Name>, k: nat)
    requires c.Valid() && |p| >= 2 && Links(c, p) && p[|p| - 1] in c.children && !Below(c, p[|p| - 1], k)
    ensures p[0] in c.children && !Below(c, p[0], k + 1)
    decreases |p|
  {
    hide Config.Valid;
    assert LinkAt(c, p, 0);
    if |p| > 2 {
      LinksTail(c, p);
      ChainHigher(c, p[1..], k);
      BelowUp(c, p[1], k);
    }
  }

  /** The crash of the first start leaves everybody else alone. */
  lemma CrashAlone(c: Config, e: Env, w: World, k: nat, i: nat, n: Name)
    requires w.Of(c) && RisingBut(c, w, k, i, n) && n in c.children && !Below(c, n, k) && w.Phase(n) == Starting
    requires var p, st := c.children[n].spec.policy, w.kids[n].state;
      st.restarts < p.maxRestarts && Delay(p, st.step) > 0
    ensures var r := Feed(c, e, w, n, ExitedCrash);
      r.Of(c) && forall m :: m in w.kids && m != n ==> r.kids[m] == w.kids[m]
  {
    hide Config.Valid, Step, YieldAll, Dependents, Delay, Below, RisingBut;
    StepOnDeath(c.children[n].spec, w.kids[n].state, ExitedCrash, e.clock(w.clocks));
    var w1 := Moved(c, e, w, n, ExitedCrash).0;
    forall m | m in Dependents(c, n)
      ensures m in c.children && w1.Phase(m) == Stopped && !w1.kids[m].completed
    {
      DependentsBelow(c, w, k, i, n, m);
    }
    YieldIdle(c, e, w1, Dependents(c, n));
  }

  lemma DepsRunningBut(c: Config, w: World, m: Name, k: nat, i: nat, n: Name)
    requires w.Of(c) && RisingBut(c, w, k, i, n) && m in c.children
    requires n in c.children && w.Phase(n) != Running && !Below(c, n, k)
    ensures DepsRunning(c, w, m) <==> Below(c, m, k + 1)
  {
    forall d | d in c.Deps(m) ensures d in c.children && (w.Phase(d) == Running <==> Below(c, d, k)) {
      if d != n {
        assert Settled(w.kids[d], Target(c, d, k, Index(c.topo, d) < i));
      }
    }
  }

  lemma RisingButStep(c: Config, e: Env, w: World, k: nat, i: nat, n: Name)
    requires w.Of(c) && i < |c.topo| && c.topo[i] != n && RisingBut(c, w, k, i, n)
    requires n in c.children && w.Phase(n) == Backoff && !Below(c, n, k) && e.spawns(w.tries)
    ensures var r := BringUpOne(c, e, w, c.topo[i]);
      r.Of(c) && RisingBut(c, r, k, i + 1, n) && r.kids[n] == w.kids[n] && r.tries >= w.tries && r.clocks >= w.clocks
  {
    hide Config.Valid, Below, Feed, Respawned;
    IndexAt(c, i);
    var x := c.topo[i];
    assert Settled(w.kids[x], Target(c, x, k, Index(c.topo, x) < i));
    DepsRunningBut(c, w, x, k, i, n);
    var r := BringUpOne(c, e, w, x);
    if w.Phase(x) == Stopped && DepsRunning(c, w, x) {
      SpawnSettles(c, e, w, x);
      RespawnedLocal(c, e, e, w, x, 0);
      RespawnedClocks(c, e, w, x);
    }
    forall m | m in c.children && m != n ensures Settled(r.kids[m], Target(c, m, k, Index(c.topo, m) < i + 1)) {
      assert Settled(w.kids[m], Target(c, m, k, Index(c.topo, m) < i));
      SameIndex(c, m, i);
    }
  }

  lemma SpawnSettles(c: Config, e: Env, w: World, n: Name)
    requires w.Of(c) && n in c.children && e.spawns(w.tries) && Settled(w.kids[n], Stopped)
    ensures var r := Respawned(c, e, w, n);
      && r.Of(c) && Settled(r.kids[n], Starting)
      && forall m :: m in w.kids && m != n ==> r.kids[m] == w.kids[m]
  {
    hide Config.Valid, Step;
    StepOnSpawned(c.children[n].spec, w.kids[n].state, e.clock(w.clocks));
  }

  /** The rest of the scan after n failed to start. */
  lemma {:induction false} RisingButScan(c: Config, e: Env, w: World, k: nat, i: nat, j: nat, n: Name)
    requires w.Of(c) && 0 < i <= j <= |c.topo| && c.topo[i - 1] == n && n in c.children && !Below(c, n, k)
    requires var v := BringUp(c, e, w, i);
      && v.Of(c) && RisingBut(c, v, k, i, n) && v.Phase(n) == Backoff && forall l :: l >= v.tries ==> e.spawns(l)
    ensures var v, r := BringUp(c, e, w, i), BringUp(c, e, w, j);
      && r.Of(c) && RisingBut(c, r, k, j, n) && r.kids[n] == v.kids[n] && r.tries >= v.tries && r.clocks >= v.clocks
  {
    hide BringUpOne, RisingBut, Below;
    if i < j {
      RisingButScan(c, e, w, k, i, j - 1, n);
      RisingButStep(c, e, BringUp(c, e, w, j - 1), k, j - 1, n);
    }
  }

  /** After the scan everybody but n is as after a calm one. */
  ghost predicate AtLevelBut(c: Config, w: World, k: nat, n: Name)
    requires w.Of(c)
  {
    forall m {:trigger w.kids[m]} :: m in c.children && m != n ==> Settled(w.kids[m], Target(c, m, k, true))
  }

  lemma ScanDone(c: Config, w: World, k: nat, n: Name)
    requires w.Of(c) && RisingBut(c, w, k, |c.topo|, n)
    ensures AtLevelBut(c, w, k, n)
  {
    hide Below;
    forall m | m in c.children && m != n ensures Settled(w.kids[m], Target(c, m, k, true)) {
      assert Settled(w.kids[m], Target(c, m, k, Index(c.topo, m) < |c.topo|));
    }
  }

  lemma RisingIsBut(c: Config, w: World, r: World, k: nat, i: nat, n: Name)
    requires w.Of(c) && r.Of(c) && Rising(c, w, k, i) && i < |c.topo| && c.topo[i] == n
    requires forall m :: m in w.kids && m != n ==> r.kids[m] == w.kids[m]
    ensures RisingBut(c, r, k, i, n) && RisingBut(c, r, k, i + 1, n)
  {
    hide Below;
    forall m | m in c.children && m != n
      ensures Settled(r.kids[m], Target(c, m, k, Index(c.topo, m) < i))
      ensures Index(c.topo, m) < i <==> Index(c.topo, m) < i + 1
    {
      assert Settled(w.kids[m], Target(c, m, k, Index(c.topo, m) < i));
      SameIndex(c, m, i);
    }
  }

  lemma FirstWait(c: Config, m: Mapping, n: Name) returns (k1: nat, k: nat)
    requires Gating(c, m) && n in c.children
    requires var p := c.children[n].spec.policy; p.maxRestarts > 1 && p.backoffBaseNs > 0
    ensures var b := c.children[n].spec.policy.backoffBaseNs;
      var w := Run(c, m, Failing(b, k1, k1), Rounds(c, m, k)).w;
      WaitsABase(c, b, w, n) && w.tries > k1 && AtLevelBut(c, w, k, n)
  {
    hide BringUp, ScanStart, BringUpOne, Feed, Run, Steady, AboutToStart, Respawned, Config.Valid, Rising, RisingBut,
         Rounds, Below, AtLevelBut;
    var b := c.children[n].spec.policy.backoffBaseNs;
    var i;
    k, i := FindStart(c, m, b, n);
    var v := BringUp(c, Smooth(b), ScanStart(c, m, Smooth(b), k), i);
    k1 := v.tries;
    Replay(c, m, b, k, i, k1);
    var e := Failing(b, k1, k1);
    var s := ScanStart(c, m, e, k);
    FirstStartFails(c, e, v, n);
    var w1 := Respawned(c, e, v, n);
    RespawnedAlone(c, e, v, n);
    RisingIsBut(c, v, w1, k, i, n);
    CrashWaits(c, e, w1, n);
    CrashAlone(c, e, w1, k, i, n);
    NextOfScan(c, e, s, i);
    var v1 := BringUp(c, e, s, i + 1);
    RisingIsBut(c, v, v1, k, i, n);
    RisingButScan(c, e, s, k, i + 1, |c.topo|, n);
    ScanEnds(c, m, e, k);
    var w := Run(c, m, e, Rounds(c, m, k)).w;
    ScanDone(c, w, k, n);
    AtLevelSteady(c, w, k, n);
    PaceAhead(w1.clocks, w.clocks, b);
  }

  lemma AtLevelSteady(c: Config, w: World, k: nat, n: Name)
    requires w.Of(c) && AtLevelBut(c, w, k, n)
    ensures Steady(c, w, n)
  {
    hide Below;
    forall m | m in c.children && m != n ensures w.Phase(m) != Backoff && w.Phase(m) != Fatal {
      assert Settled(w.kids[m], Target(c, m, k, true));
    }
  }

  // ---- the report of that round ----

  /** As Waking, for everybody but n. */
  ghost predicate WakingBut(c: Config, w: World, k: nat, rest: seq<Signal>, n: Name)
    requires w.Of(c)
  {
    forall x {:trigger w.kids[x]} :: x in c.children && x != n ==>
      || Settled(w.kids[x], Before(c, x, k))
      || (Signal(x, true) in rest && Settled(w.kids[x], Target(c, x, k, true)))
  }

  ghost predicate AllAlive(c: Config, k: nat, out: seq<Signal>)
    requires c.Valid()
  {
    forall s :: s in out ==>
      && s.alive && s.child in c.children && c.children[s.child].gated
      && Below(c, s.child, k + 1) && !Below(c, s.child, k)
  }

  lemma WakeOneBut(c: Config, e: Env, w: World, k: nat, out: seq<Signal>, n: Name)
    requires w.Of(c) && n in c.children && out != [] && WakingBut(c, w, k, out, n) && w.Phase(n) == Backoff
    requires AllAlive(c, k, out)
    ensures var r := Signalled(c, e, w, out[0]);
      && r.Of(c) && WakingBut(c, r, k, out[1..], n) && r.kids[n] == w.kids[n]
      && r.tries == w.tries && r.clocks >= w.clocks
  {
    hide Below, Config.Valid, Settled, Signalled, Target;
    var s, rest := out[0], out[1..];
    assert s in out && s == Signal(s.child, true);
    assert forall t :: t in out <==> t == s || t in rest;
    LevelStarts(c, s.child, k);
    var r := Signalled(c, e, w, s);
    SignalCounts(c, e, w, s);
    if s.child == n {
      SignalIgnored(c, e, w, s);
    } else {
      assert Settled(w.kids[s.child], Running) || Settled(w.kids[s.child], Starting);
      FoundSettled(c, e, w, s.child);
    }
    forall x | x in c.children && x != n
      ensures || Settled(r.kids[x], Before(c, x, k))
              || (Signal(x, true) in rest && Settled(r.kids[x], Target(c, x, k, true)))
    {
      assert x != s.child ==> r.kids[x] == w.kids[x];
    }
  }

  lemma SignalCounts(c: Config, e: Env, w: World, s: Signal)
    requires w.Of(c) && s.child in c.children && s.alive
    ensures var r := Signalled(c, e, w, s); r.Of(c) && r.tries == w.tries && r.clocks >= w.clocks
  {
    hide Config.Valid, Step, YieldAll, Dependents;
    StepOnHealthOk(c.children[s.child].spec, w.kids[s.child].state, e.clock(w.clocks));
  }

  lemma {:induction false} WakeAllBut(c: Config, e: Env, w: World, k: nat, out: seq<Signal>, n: Name)
    requires w.Of(c) && n in c.children && WakingBut(c, w, k, out, n) && w.Phase(n) == Backoff && AllAlive(c, k, out)
    ensures var r := Delivered(c, e, w, out);
      && r.Of(c) && WakingBut(c, r, k, [], n) && r.kids[n] == w.kids[n]
      && r.tries == w.tries && r.clocks >= w.clocks
    decreases |out|
  {
    hide Below, Config.Valid, Signalled, WakingBut;
    if out != [] {
      WakeOneBut(c, e, w, k, out, n);
      assert forall t :: t in out[1..] ==> t in out;
      WakeAllBut(c, e, Signalled(c, e, w, out[0]), k, out[1..], n);
    }
  }

  lemma LevelWakingBut(c: Config, m: Mapping, w: World, k: nat, out: seq<Signal>, n: Name)
    requires w.Of(c) && Gating(c, m) && AtLevelBut(c, w, k, n) && Wakes(c, m, k, out)
    ensures WakingBut(c, w, k, out, n)
  {
    hide Below, Config.Valid, Settled;
    forall x | x in c.children && x != n
      ensures || Settled(w.kids[x], Before(c, x, k))
              || (Signal(x, true) in out && Settled(w.kids[x], Target(c, x, k, true)))
    {
      assert Settled(w.kids[x], Target(c, x, k, true));
      BelowUp(c, x, k);
    }
  }

  lemma AwakeIsPoised(c: Config, w: World, k: nat, n: Name)
    requires w.Of(c) && WakingBut(c, w, k, [], n)
    ensures Poised(c, w, n)
  {
    hide Below;
    forall x | x in c.children && x != n
      ensures w.Phase(x) != Backoff && w.Phase(x) != Fatal && (c.children[x].gated ==> w.Phase(x) != Starting)
    {
      assert Settled(w.kids[x], Before(c, x, k));
    }
  }

  /** The report of the round passes n by and leaves everybody else poised. */
  lemma ReportPoises(c: Config, m: Mapping, e: Env, k: nat, n: Name)
    requires Gating(c, m) && n in c.children
    requires var w := Run(c, m, e, Rounds(c, m, k)).w; AtLevelBut(c, w, k, n) && w.Phase(n) == Backoff
    ensures var w, r := Run(c, m, e, Rounds(c, m, k)).w, Run(c, m, e, Midway(c, m, k)).w;
      r.Of(c) && Poised(c, r, n) && r.kids[n] == w.kids[n] && r.tries == w.tries && r.clocks >= w.clocks
  {
    hide Config.Valid, Run, Tracks, Sampled, Reported, Rounds, News, AtLevelBut, Below, WakingBut, Wakes, Delivered,
         Dispatched, Poised;
    var s := Run(c, m, e, Rounds(c, m, k));
    RoundViews(c, m, e, k);
    NewsWakes(c, m, s.vs, k);
    var out := Dispatched(m, s.vs, News(c, m, k)).1;
    LevelWakingBut(c, m, s.w, k, out, n);
    WakesAlive(c, m, k, out);
    WakeAllBut(c, e, s.w, k, out, n);
    RunNext(c, m, e, Rounds(c, m, k), Report(News(c, m, k)));
    AwakeIsPoised(c, Run(c, m, e, Midway(c, m, k)).w, k, n);
  }

  lemma BesidePoised(c: Config, w: World, r: World, n: Name)
    requires w.Of(c) && r.Of(c) && n in c.children && Poised(c, w, n) && OthersBeside(w, r, n)
    ensures Poised(c, r, n)
  {
    hide Config.Valid;
    forall m | m in c.children && m != n
      ensures r.Phase(m) != Backoff && r.Phase(m) != Fatal && (c.children[m].gated ==> r.Phase(m) != Starting)
    {
      assert Beside(w.kids[m], r.kids[m]);
    }
  }

  /** The restart is due, fails again, and its wait is over at once. */
  lemma SecondStartFails(c: Config, e: Env, w: World, n: Name, now: int)
    requires w.Of(c) && n in c.children && w.Phase(n) == Backoff && w.kids[n].pid <= 0
    requires w.kids[n].state.restarts == 1 && w.kids[n].state.step == 1
    requires w.kids[n].state.resumeAt <= now && w.kids[n].state.resumeAt <= e.clock(w.clocks)
    requires !e.spawns(w.tries) && e.spawns(w.tries + 1) && Poised(c, w, n)
    requires var p := c.children[n].spec.policy; p.maxRestarts > 1 && p.backoffBaseNs > 0 && p.backoffMaxNs <= 0
    ensures var r := Visit(c, e, w, n, now);
      r.Of(c) && r.tries == w.tries + 2 && Broken(r, n) && Poised(c, r, n)
  {
    hide Config.Valid, YieldAll, Dependents, Poised, Respawned;
    VisitEffect(c, e, w, n, now);
    BesidePoised(c, w, Visit(c, e, w, n, now), n);
    StepOnTick(c.children[n].spec, w.kids[n].state, e.clock(w.clocks));
    var w1 := Moved(c, e, w, n, Tick).0;
    RespawnedLocal(c, e, e, w1, n, 0);
    RespawnedWith(c, e, w1, n);
    var w2 := Respawned(c, e, w1, n);
    DelayTwo(c.children[n].spec.policy);
    TickFails(c, e, w, n);
    CrashDue(c, e, w2, n);
    VisitOfWaiting(c, e, w, n, now);
  }

  lemma DelayTwo(p: RestartPolicy)
    requires p.backoffBaseNs > 0 && p.backoffMaxNs <= 0
    ensures Delay(p, 1) <= 0
  {
  }

  lemma TickFails(c: Config, e: Env, w: World, n: Name)
    requires w.Of(c) && n in c.children && w.Phase(n) == Backoff && w.kids[n].state.resumeAt <= e.clock(w.clocks)
    requires !e.spawns(w.tries)
    ensures var w1 := Moved(c, e, w, n, Tick).0;
      w1.Of(c) && Feed(c, e, w, n, Tick) == Feed(c, e, Respawned(c, e, w1, n), n, ExitedCrash)
  {
    hide Config.Valid, YieldAll, Dependents, Respawned;
  }

  /** A child that waits without a process: its visit is the due TICK, if that ends in BACKOFF. */
  lemma VisitOfWaiting(c: Config, e: Env, w: World, n: Name, now: int)
    requires w.Of(c) && n in c.children && w.Phase(n) == Backoff && w.kids[n].pid <= 0
    requires w.kids[n].state.resumeAt <= now && Feed(c, e, w, n, Tick).Phase(n) == Backoff
    ensures Visit(c, e, w, n, now) == Feed(c, e, w, n, Tick)
  {
    hide Config.Valid, Feed;
  }

  lemma MaxBreaks(c: Config, m: Mapping, n: Name) returns (e: Env, inputs: seq<Input>)
    requires Gating(c, m) && n in c.children
    requires var p := c.children[n].spec.policy; p.maxRestarts > 1 && p.backoffBaseNs > 0 && p.backoffMaxNs <= 0
    ensures !Inv(c, Run(c, m, e, inputs).w)
  {
    hide BringUp, VisitAll, Visit, Feed, Inv, Steady, Poised, Config.Valid, Run, Rounds, Midway, Alike, Broken,
         AtLevelBut;
    var b := c.children[n].spec.policy.backoffBaseNs;
    var k1, k := FirstWait(c, m, n);
    var f := Failing(b, k1, k1);
    ReportPoises(c, m, f, k, n);
    var w0, w := Run(c, m, f, Rounds(c, m, k)).w, Run(c, m, f, Midway(c, m, k)).w;
    PaceMonotone(w0.clocks, w.clocks, b);
    var w1, now := w.(clocks := w.clocks + 1), w.clocks * b;
    OrderPosition(c, n);
    var q := Index(c.order, n);
    SameKidsPoised(c, w, w1, n);
    OrderDistinct(c, n, q);
    assert VisitAll(c, f, w1, now, 0) == w1 by { VisitNone(c, f, w1, now); }
    PoisedVisits(c, f, w1, n, now, 0, q);
    var u := VisitAll(c, f, w1, now, q);
    e := Failing(b, k1, u.tries);
    inputs := Midway(c, m, k) + [TimerTick];
    FailingAlike(b, k1, u.tries, u.tries);
    RunLocal(c, m, f, e, Midway(c, m, k), u.tries);
    VisitAllLocal(c, f, e, w1, now, q, u.tries);
    VisitAllClocks(c, f, w1, now, q);
    PaceMonotone(w.clocks, u.clocks, b);
    SecondStartFails(c, e, u, n, now);
    NextVisit(c, e, w1, now, q);
    PoisedVisits(c, e, w1, n, now, q + 1, |c.order|);
    var w2 := VisitAll(c, e, w1, now, |c.order|);
    BrokenKid(w2, VisitAll(c, e, w1, now, q + 1), n);
    PoisedIsSteady(c, w2, n);
    assert BringUp(c, e, w2, 0) == w2 by { ScanNone(c, e, w2); }
    SteadyScan(c, e, w2, n, 0, |c.topo|);
    RunNext(c, m, e, Midway(c, m, k), TimerTick);
    BrokenKid(Run(c, m, e, inputs).w, w2, n);
    BrokenIsUnsound(c, Run(c, m, e, inputs).w, n);
  }

  lemma PoisedIsSteady(c: Config, w: World, n: Name)
    requires w.Of(c) && Poised(c, w, n)
    ensures Steady(c, w, n)
  {
  }

  lemma BrokenKid(r: World, w: World, n: Name)
    requires Broken(w, n) && n in r.kids && r.kids[n] == w.kids[n]
    ensures Broken(r, n) && r.Phase(n) == Backoff
  {
  }

  lemma VisitNone(c: Config, e: Env, w: World, now: int)
    requires w.Of(c)
    ensures VisitAll(c, e, w, now, 0) == w
  {
  }

  lemma ScanNone(c: Config, e: Env, w: World)
    requires w.Of(c)
    ensures BringUp(c, e, w, 0) == w
  {
  }

  lemma NextVisit(c: Config, e: Env, w: World, now: int, q: nat)
    requires w.Of(c) && q < |c.order|
    ensures VisitAll(c, e, w, now, q + 1) == Visit(c, e, VisitAll(c, e, w, now, q), c.order[q], now)
  {
    hide Visit;
  }

  lemma OrderPosition(c: Config, n: Name)
    requires c.Valid() && n in c.children
    ensures n in c.order
  {
  }

  lemma OrderDistinct(c: Config, n: Name, q: nat)
    requires c.Valid() && q < |c.order| && c.order[q] == n
    ensures forall i :: 0 <= i < |c.order| && i != q ==> c.order[i] != n
  {
  }

  lemma SameKidsPoised(c: Config, w: World, r: World, n: Name)
    requires w.Of(c) && r.kids == w.kids && Poised(c, w, n)
    ensures r.Of(c) && Poised(c, r, n)
  {
    hide Config.Valid;
  }

  lemma PaceMonotone(j: nat, k: nat, b: int)
    requires j <= k && b > 0
    ensures j * b <= k * b
  {
    assert (k - j) * b >= 0;
  }

  lemma {:induction false} FeedClocks(c: Config, e: Env, w: World, n: Name, ev: Event)
    requires w.Of(c) && n in c.children
    ensures Feed(c, e, w, n, ev).Of(c) && Feed(c, e, w, n, ev).clocks >= w.clocks
    decreases Rank(w.Phase(n), ev)
  {
    hide Config.Valid, Respawned, Step, Moved, Cascaded;
    MovedClocks(c, e, w, n, ev);
    var (w1, a) := Moved(c, e, w, n, ev);
    CascadedClocks(c, e, w1, n, w.Phase(n));
    var w2 := Cascaded(c, e, w1, n, w.Phase(n));
    if a.SpawnAt? && a.at <= e.clock(w.clocks) {
      MovedSpawns(c, e, w, n, ev);
      RespawnedClocks(c, e, w2, n);
      RespawnedLocal(c, e, e, w2, n, 0);
      if !e.spawns(w2.tries) {
        FeedClocks(c, e, Respawned(c, e, w2, n), n, ExitedCrash);
      }
    } else {
      ReleaseAlone(c, w2, n);
    }
  }

  lemma CascadedClocks(c: Config, e: Env, w: World, n: Name, before: Phase)
    requires w.Of(c) && n in c.children
    ensures Cascaded(c, e, w, n, before).Of(c) && Cascaded(c, e, w, n, before).clocks >= w.clocks
  {
    hide Config.Valid, YieldAll, Dependents;
    YieldAllClocks(c, e, w, Dependents(c, n));
  }

  lemma MovedClocks(c: Config, e: Env, w: World, n: Name, ev: Event)
    requires w.Of(c) && n in c.children
    ensures Moved(c, e, w, n, ev).0.Of(c) && Moved(c, e, w, n, ev).0.clocks == w.clocks + 1
  {
    hide Config.Valid, Step;
  }

  lemma PollClocks(c: Config, e: Env, w: World, n: Name, now: int)
    requires w.Of(c) && n in c.children
    ensures Poll(c, e, w, n, now).0.Of(c) && Poll(c, e, w, n, now).0.clocks >= w.clocks
  {
    hide Config.Valid, Feed;
    var w1 := w.(waits := w.waits + 1);
    FeedClocks(c, e, w1, n, AliveSeen);
    FeedClocks(c, e, w1, n, RunningStable);
    ReleaseAlone(c, w1, n);
    FeedClocks(c, e, Release(w1, n), n, ExitedOk);
    FeedClocks(c, e, Release(w1, n), n, ExitedCrash);
  }

  lemma VisitClocks(c: Config, e: Env, w: World, n: Name, now: int)
    requires w.Of(c) && n in c.children
    ensures Visit(c, e, w, n, now).Of(c) && Visit(c, e, w, n, now).clocks >= w.clocks
  {
    hide Config.Valid, Feed, Poll;
    PollClocks(c, e, w, n, now);
    var w1 := Poll(c, e, w, n, now).0;
    FeedClocks(c, e, w1, n, Tick);
    var w2 := CheckBackoff(c, e, w1, n, now);
    ReleaseAlone(c, w2, n);
    FeedClocks(c, e, Release(w2, n), n, StartTimeout);
  }

  lemma {:induction false} VisitAllClocks(c: Config, e: Env, w: World, now: int, k: nat)
    requires w.Of(c) && k <= |c.order|
    ensures VisitAll(c, e, w, now, k).Of(c) && VisitAll(c, e, w, now, k).clocks >= w.clocks
  {
    hide Visit, Config.Valid;
    if k > 0 {
      VisitAllClocks(c, e, w, now, k - 1);
      OrderMember(c, k - 1);
      VisitClocks(c, e, VisitAll(c, e, w, now, k - 1), c.order[k - 1], now);
    }
  }

  // ---- the run theorem ----

  lemma UnpacedBreaks(c: Config, m: Mapping, n: Name) returns (e: Env, inputs: seq<Input>)
    requires Gating(c, m) && n in c.children && !Paced(c.children[n].spec.policy)
    ensures !Inv(c, Run(c, m, e, inputs).w)
  {
    hide Run, Inv, Config.Valid;
    if c.children[n].spec.policy.backoffBaseNs <= 0 {
      e, inputs := BaseBreaks(c, m, n);
    } else {
      e, inputs := MaxBreaks(c, m, n);
    }
  }

  /** Every run in every environment keeps process ownership, budgets and dependency order
      exactly if every policy is paced, gates or not, as long as no health node is shared. */
  lemma PacedIff(c: Config, m: Mapping)
    requires Gating(c, m)
    ensures PacedAll(c) <==> forall e, inputs {:trigger Run(c, m, e, inputs)} :: Inv(c, Run(c, m, e, inputs).w)
  {
    hide Run, Inv, Config.Valid, Paced;
    if PacedAll(c) {
      forall e, inputs ensures Inv(c, Run(c, m, e, inputs).w) {
        RunKeeps(c, m, e, inputs);
        RunInvInv(c, m, Run(c, m, e, inputs), History(inputs));
      }
    } else {
      var n :| n in c.children && !Paced(c.children[n].spec.policy);
      var e, inputs := UnpacedBreaks(c, m, n);
      assert !Inv(c, Run(c, m, e, inputs).w);
    }
  }
}
