/** What a tick finds of a live child, and when a child's restarts are forgiven. */
module SupervisorWindow {
  import opened Sequences
  import opened SupervisorPolicy
  import opened SupervisorModel
  import opened SupervisorSafety
  import opened SupervisorRuns
  import opened SupervisorOneshots
  import opened SupervisorBringUp
  import opened HealthFeed

  // ---- the visit to a live child, answer by answer ----

  /** A child that died at reading `at`: one more restart spent, no process. */
  predicate Perished(child: Child, a: Kid, b: Kid, at: int) {
    && b.state.restarts == a.state.restarts + 1 && b.state.since == at && b.pid <= 0 && !b.completed
    && b.state.phase == if a.state.restarts + 1 > child.spec.policy.maxRestarts then Fatal else Backoff
  }

  /** A death fed with the process gone. */
  lemma FeedPerishes(c: Config, e: Env, w: World, n: Name, ev: Event)
    requires PacedAll(c) && Sound(c, w) && n in c.children && w.kids[n].pid <= 0 && w.Phase(n).Live()
    requires ev == ExitedCrash || ev == StartTimeout || (ev == ExitedOk && !c.children[n].spec.oneshot)
    requires Applies(w.Phase(n), ev)
    ensures var r := Feed(c, e, w, n, ev);
      r.Of(c) && Perished(c.children[n], w.kids[n], r.kids[n], e.clock(w.clocks))
  {
    hide Config.Valid, Table, DepSafe, Step, YieldAll, Dependents, Delay, Budgeted;
    StepOnDeath(c.children[n].spec, w.kids[n].state, ev, e.clock(w.clocks));
    assert KidOk(c.children[n], w.kids[n]);
    if w.kids[n].state.restarts + 1 <= c.children[n].spec.policy.maxRestarts {
      DelayAhead(c, w, n);
    }
  }

  /** A oneshot that exits with success. */
  lemma FeedFinishes(c: Config, e: Env, w: World, n: Name)
    requires w.Of(c) && n in c.children && w.Phase(n).Live() && c.children[n].spec.oneshot
    ensures var r := Feed(c, e, w, n, ExitedOk);
      && r.Of(c) && r.Phase(n) == Stopped && r.kids[n].completed && r.kids[n].pid == w.kids[n].pid
      && r.kids[n].state.restarts == 0 && r.kids[n].state.since == e.clock(w.clocks)
  {
    hide Config.Valid, YieldAll, Dependents;
  }

  lemma FeedConfirms(c: Config, e: Env, w: World, n: Name)
    requires w.Of(c) && n in c.children && w.Phase(n) == Starting
    ensures var r := Feed(c, e, w, n, AliveSeen);
      && r.Of(c) && r.Phase(n) == Running
      && r.kids[n].pid == w.kids[n].pid && r.kids[n].completed == w.kids[n].completed
      && r.kids[n].state.restarts == w.kids[n].state.restarts && r.kids[n].state.since == e.clock(w.clocks)
  {
    hide Config.Valid, YieldAll, Dependents;
  }

  lemma FeedForgives(c: Config, e: Env, w: World, n: Name)
    requires w.Of(c) && n in c.children && w.Phase(n) == Running
    ensures var r := Feed(c, e, w, n, RunningStable);
      && r.Of(c) && r.Phase(n) == Running
      && r.kids[n].pid == w.kids[n].pid && r.kids[n].completed == w.kids[n].completed
      && r.kids[n].state.restarts == 0 && r.kids[n].state.since == w.kids[n].state.since
  {
    hide Config.Valid, YieldAll, Dependents;
  }

  /** The fate of a live child at its visit. `answer` is what waitpid says of it, `now` the reading
      at the start of the tick, `at` the one at its transition. */
  predicate Fate(child: Child, a: Kid, b: Kid, answer: Wait, now: int, at: int) {
    var p := child.spec.policy;
    match answer
    case Exited(ok) =>
      if ok && child.spec.oneshot then
        && b.state.phase == Stopped && b.completed && b.pid <= 0
        && b.state.restarts == 0 && b.state.since == at
      else Perished(child, a, b, at)
    case Gone => Perished(child, a, b, at)
    case _ =>
      if a.state.phase == Running then
        && b.state.phase == Running && b.pid == a.pid && b.completed == a.completed && b.state.since == a.state.since
        && b.state.restarts ==
             if answer == StillAlive && now - a.state.since >= p.windowNs then 0 else a.state.restarts
      else if answer == StillAlive && !child.gated then
        && b.state.phase == Running && b.pid == a.pid && b.completed == a.completed && b.state.since == at
        && b.state.restarts == a.state.restarts
      else if now - a.state.since > p.startupTimeoutNs then Perished(child, a, b, at)
      else b == a
  }

  /** Every visit to a live child has the fate that the answer of waitpid and the clock decide. */
  lemma VisitFate(c: Config, e: Env, w: World, n: Name, now: int)
    requires PacedAll(c) && Inv(c, w) && n in c.children && w.Phase(n).Live()
    ensures var r := Visit(c, e, w, n, now);
      r.Of(c) && Fate(c.children[n], w.kids[n], r.kids[n], e.wait(w.waits), now, e.clock(w.clocks))
  {
    hide Config.Valid, Feed, Table, KidsOk, DepSafe;
    InvSound(c, w, n);
    KidFacts(c, w, n);
    var w1 := w.(waits := w.waits + 1);
    var w2 := Release(w1, n);
    PolledSound(c, w, n);
    ReleaseAlone(c, w1, n);
    match e.wait(w.waits) {
      case Exited(ok) =>
        if ok && c.children[n].spec.oneshot {
          FeedFinishes(c, e, w2, n);
        } else {
          FeedPerishes(c, e, w2, n, if ok then ExitedOk else ExitedCrash);
        }
      case Gone => FeedPerishes(c, e, w2, n, ExitedCrash);
      case Failed =>
        if w.Phase(n) == Starting {
          FeedPerishes(c, e, w2, n, StartTimeout);
        }
      case StillAlive =>
        if w.Phase(n) == Running {
          FeedForgives(c, e, w1, n);
        } else if !c.children[n].gated {
          FeedConfirms(c, e, w1, n);
        } else {
          FeedPerishes(c, e, w2, n, StartTimeout);
        }
    }
  }

  lemma PolledSound(c: Config, w: World, n: Name)
    requires Inv(c, w) && n in c.children && w.kids[n].pid > 0
    ensures var w2 := Release(w.(waits := w.waits + 1), n); Sound(c, w2) && w2.kids[n].pid <= 0 && w2.clocks == w.clocks
  {
    hide Table, KidsOk, DepSafe, Config.Valid;
    CountersFree(c, w, w.clocks, w.waits + 1);
    var w1 := w.(waits := w.waits + 1);
    ReleaseKeepsSound(c, w1, n);
    ReleasedPid(c, w1, n);
  }

  lemma ReleasedPid(c: Config, w: World, n: Name)
    requires w.Of(c) && n in c.children
    ensures Release(w, n).kids[n].pid <= 0 && Release(w, n).clocks == w.clocks
  {
    hide Config.Valid;
  }

  /** A child that waits is not touched before its time. */
  lemma VisitTooEarly(c: Config, e: Env, w: World, n: Name, now: int)
    requires Inv(c, w) && n in c.children && w.Phase(n) == Backoff && now < w.kids[n].state.resumeAt
    ensures Visit(c, e, w, n, now) == w
  {
    hide Config.Valid, Feed, Table, KidsOk, DepSafe;
    KidFacts(c, w, n);
  }

  // ---- a running child over one tick ----

  /** Visits to others leave n as it is, or stop it. */
  lemma {:induction false} VisitsBeside(c: Config, e: Env, w: World, n: Name, now: int, j: nat, k: nat)
    requires w.Of(c) && n in c.children && j <= k <= |c.order| && VisitAll(c, e, w, now, j).Of(c)
    requires forall i :: j <= i < k ==> c.order[i] != n
    ensures VisitAll(c, e, w, now, k).Of(c)
    ensures Beside(VisitAll(c, e, w, now, j).kids[n], VisitAll(c, e, w, now, k).kids[n])
  {
    hide Visit, Config.Valid, MarksLost;
    if j < k {
      VisitsBeside(c, e, w, n, now, j, k - 1);
      var v := VisitAll(c, e, w, now, k - 1);
      OrderNext(c, k - 1);
      VisitEffect(c, e, v, c.order[k - 1], now);
      assert Beside(v.kids[n], VisitAll(c, e, w, now, k).kids[n]);
    }
  }

  /** After the scan a child is running only if it was, and was left alone. */
  lemma {:induction false} ScanBeside(c: Config, e: Env, w: World, n: Name, k: nat)
    requires w.Of(c) && n in c.children && k <= |c.topo|
    ensures BringUp(c, e, w, k).Of(c)
    ensures BringUp(c, e, w, k).Phase(n) == Running ==> BringUp(c, e, w, k).kids[n] == w.kids[n]
  {
    hide BringUpOne, Config.Valid, MarksLost, DepsRunning;
    if k > 0 {
      ScanBeside(c, e, w, n, k - 1);
      var v := BringUp(c, e, w, k - 1);
      IndexAt(c, k - 1);
      BringUpOneEffect(c, e, v, c.topo[k - 1]);
      RunningNotScanned(c, e, v, c.topo[k - 1]);
      assert c.topo[k - 1] != n ==> Beside(v.kids[n], BringUp(c, e, w, k).kids[n]);
    }
  }

  lemma RunningNotScanned(c: Config, e: Env, w: World, n: Name)
    requires w.Of(c) && n in c.children
    ensures w.Phase(n) != Stopped ==> BringUpOne(c, e, w, n) == w
  {
    hide Config.Valid, Feed, Respawned;
  }

  lemma ThroughTick(c: Config, e: Env, w: World, n: Name, q: nat)
    requires w.Of(c) && n in c.children && q < |c.order| && c.order[q] == n
    ensures var now, w1 := e.clock(w.clocks), w.(clocks := w.clocks + 1);
      var v := VisitAll(c, e, w1, now, q);
      var u, r := Visit(c, e, v, n, now), Ticked(c, e, w);
      && v.Of(c) && u.Of(c) && r.Of(c) && Beside(w.kids[n], v.kids[n])
      && (r.Phase(n) == Running ==> r.kids[n] == u.kids[n])
  {
    hide Config.Valid, Visit, VisitAll, BringUp;
    var now, w1 := e.clock(w.clocks), w.(clocks := w.clocks + 1);
    NoVisit(c, e, w1, now);
    OnlyOnce(c, n, q);
    VisitsBeside(c, e, w1, n, now, 0, q);
    OneVisit(c, e, w1, now, q);
    VisitsBeside(c, e, w1, n, now, q + 1, |c.order|);
    ScanBeside(c, e, VisitAll(c, e, w1, now, |c.order|), n, |c.topo|);
  }

  lemma NoVisit(c: Config, e: Env, w: World, now: int)
    requires w.Of(c)
    ensures VisitAll(c, e, w, now, 0) == w
  {
  }

  lemma OneVisit(c: Config, e: Env, w: World, now: int, q: nat)
    requires w.Of(c) && q < |c.order|
    ensures c.order[q] in c.children
    ensures VisitAll(c, e, w, now, q + 1) == Visit(c, e, VisitAll(c, e, w, now, q), c.order[q], now)
    ensures VisitAll(c, e, w, now, q + 1).Of(c)
  {
    hide Visit;
    OrderNext(c, q);
  }

  lemma OnlyOnce(c: Config, n: Name, q: nat)
    requires c.Valid() && q < |c.order| && c.order[q] == n
    ensures forall i :: 0 <= i < |c.order| && i != q ==> c.order[i] != n
  {
  }

  /** Over one tick a child that is running before and after keeps the reading it started at, and
      its restarts are forgiven exactly if it has been running for the stability window and
      waitpid did not fail on it. */
  lemma TickForgivesIff(c: Config, e: Env, w: World, n: Name)
    requires PacedAll(c) && Inv(c, w) && n in c.children
    requires w.Phase(n) == Running && Ticked(c, e, w).Phase(n) == Running
    ensures var a, b, now := w.kids[n].state, Ticked(c, e, w).kids[n].state, e.clock(w.clocks);
      && b.since == a.since
      && (now - a.since < c.children[n].spec.policy.windowNs ==> b.restarts == a.restarts)
      && (now - a.since >= c.children[n].spec.policy.windowNs ==>
            b.restarts == 0 || (b.restarts == a.restarts && exists k :: k >= w.waits && e.wait(k) == Failed))
  {
    hide Config.Valid, Visit, VisitAll, BringUp, Inv, Ticked;
    InvIsOf(c, w);
    InOrder(c, n);
    var q := Index(c.order, n);
    var now, w1 := e.clock(w.clocks), w.(clocks := w.clocks + 1);
    ThroughTick(c, e, w, n, q);
    InvCounters(c, w);
    VisitAllKeeps(c, e, w1, now, q);
    var v := VisitAll(c, e, w1, now, q);
    if v.kids[n] == w.kids[n] {
      VisitFate(c, e, v, n, now);
      VisitAllWaits(c, e, w1, now, q);
    } else {
      KidFacts(c, v, n);
      VisitDown(c, e, v, n, now);
    }
  }

  lemma InOrder(c: Config, n: Name)
    requires c.Valid() && n in c.children
    ensures n in c.order
  {
  }

  /** The answers of waitpid are used up one after the other. */
  lemma {:induction false} FeedWaits(c: Config, e: Env, w: World, n: Name, ev: Event)
    requires w.Of(c) && n in c.children
    ensures Feed(c, e, w, n, ev).Of(c) && Feed(c, e, w, n, ev).waits == w.waits
    decreases Rank(w.Phase(n), ev)
  {
    hide Config.Valid, Respawned, Step, Cascaded, Moved;
    MovedWaits(c, e, w, n, ev);
    var (w1, a) := Moved(c, e, w, n, ev);
    CascadedWaits(c, e, w1, n, w.Phase(n));
    var w2 := Cascaded(c, e, w1, n, w.Phase(n));
    if a.SpawnAt? && a.at <= e.clock(w.clocks) {
      MovedSpawns(c, e, w, n, ev);
      RespawnedWaits(c, e, w2, n);
      if !e.spawns(w2.tries) {
        FeedWaits(c, e, Respawned(c, e, w2, n), n, ExitedCrash);
      }
    } else {
      ReleaseAlone(c, w2, n);
    }
  }

  lemma MovedWaits(c: Config, e: Env, w: World, n: Name, ev: Event)
    requires w.Of(c) && n in c.children
    ensures Moved(c, e, w, n, ev).0.Of(c) && Moved(c, e, w, n, ev).0.waits == w.waits
  {
    hide Config.Valid, Step;
  }

  lemma RespawnedWaits(c: Config, e: Env, w: World, n: Name)
    requires w.Of(c) && n in c.children
    ensures Respawned(c, e, w, n).Of(c) && Respawned(c, e, w, n).waits == w.waits
  {
    hide Config.Valid, Step;
  }

  lemma {:induction false} YieldAllWaits(c: Config, e: Env, w: World, ns: seq<Name>)
    requires w.Of(c) && forall n :: n in ns ==> n in c.children
    ensures YieldAll(c, e, w, ns).Of(c) && YieldAll(c, e, w, ns).waits == w.waits
    decreases |ns|
  {
    hide Config.Valid, Step;
    if ns != [] {
      var last := ns[|ns| - 1];
      assert last in ns;
      YieldAllWaits(c, e, YieldOne(c, e, w, last), ns[..|ns| - 1]);
    }
  }

  lemma CascadedWaits(c: Config, e: Env, w: World, n: Name, before: Phase)
    requires w.Of(c) && n in c.children
    ensures Cascaded(c, e, w, n, before).Of(c) && Cascaded(c, e, w, n, before).waits == w.waits
  {
    hide Config.Valid, YieldAll, Dependents;
    YieldAllWaits(c, e, w, Dependents(c, n));
  }

  lemma PollWaits(c: Config, e: Env, w: World, n: Name, now: int)
    requires w.Of(c) && n in c.children
    ensures Poll(c, e, w, n, now).0.Of(c) && Poll(c, e, w, n, now).0.waits >= w.waits
  {
    hide Config.Valid, Feed;
    var w1 := w.(waits := w.waits + 1);
    FeedWaits(c, e, w1, n, AliveSeen);
    FeedWaits(c, e, w1, n, RunningStable);
    ReleaseAlone(c, w1, n);
    FeedWaits(c, e, Release(w1, n), n, ExitedOk);
    FeedWaits(c, e, Release(w1, n), n, ExitedCrash);
  }

  lemma VisitWaits(c: Config, e: Env, w: World, n: Name, now: int)
    requires w.Of(c) && n in c.children
    ensures Visit(c, e, w, n, now).Of(c) && Visit(c, e, w, n, now).waits >= w.waits
  {
    hide Config.Valid, Feed, Poll;
    PollWaits(c, e, w, n, now);
    var w1 := Poll(c, e, w, n, now).0;
    FeedWaits(c, e, w1, n, Tick);
    var w2 := CheckBackoff(c, e, w1, n, now);
    ReleaseAlone(c, w2, n);
    FeedWaits(c, e, Release(w2, n), n, StartTimeout);
  }

  lemma {:induction false} VisitAllWaits(c: Config, e: Env, w: World, now: int, k: nat)
    requires w.Of(c) && k <= |c.order|
    ensures VisitAll(c, e, w, now, k).Of(c) && VisitAll(c, e, w, now, k).waits >= w.waits
  {
    hide Visit, Config.Valid;
    if k > 0 {
      VisitAllWaits(c, e, w, now, k - 1);
      OrderNext(c, k - 1);
      VisitWaits(c, e, VisitAll(c, e, w, now, k - 1), c.order[k - 1], now);
    }
  }

  // ---- restarts add up ----

  /** The child died between a and b, or died again. */
  predicate Died(a: ChildState, b: ChildState) {
    a.phase != Fatal && (b.phase == Backoff || b.phase == Fatal) && (b.phase != a.phase || b.since != a.since)
  }

  /** No restart is forgotten, and a death spends one. */
  predicate Spends(a: ChildState, b: ChildState) {
    && (a.phase == Fatal ==> b == a)
    && b.restarts >= a.restarts + if Died(a, b) then 1 else 0
  }

  lemma SpendsTransitive(a: ChildState, b: ChildState, d: ChildState)
    requires Spends(a, b) && Spends(b, d)
    ensures Spends(a, d)
  {
  }

  lemma StepSpends(spec: ChildSpec, st: ChildState, ev: Event, now: int)
    requires ev != RunningStable && !(spec.oneshot && ev == ExitedOk)
    ensures Spends(st, Step(spec, st, ev, now).0)
  {
  }

  lemma MovedSpends(c: Config, e: Env, w: World, n: Name, ev: Event)
    requires w.Of(c) && n in c.children && ev != RunningStable && !(c.children[n].spec.oneshot && ev == ExitedOk)
    ensures Moved(c, e, w, n, ev).0.Of(c) && Spends(w.kids[n].state, Moved(c, e, w, n, ev).0.kids[n].state)
  {
    hide Config.Valid, Step, Spends;
    StepSpends(c.children[n].spec, w.kids[n].state, ev, e.clock(w.clocks));
  }

  lemma RespawnedSpends(c: Config, e: Env, w: World, n: Name)
    requires w.Of(c) && n in c.children
    ensures Respawned(c, e, w, n).Of(c) && Spends(w.kids[n].state, Respawned(c, e, w, n).kids[n].state)
  {
    hide Config.Valid, Moved, Spends;
    MovedSpends(c, e, w, n, Spawned);
  }

  lemma {:induction false} FeedSpends(c: Config, e: Env, w: World, n: Name, ev: Event)
    requires w.Of(c) && n in c.children && ev != RunningStable && !(c.children[n].spec.oneshot && ev == ExitedOk)
    ensures Feed(c, e, w, n, ev).Of(c) && Spends(w.kids[n].state, Feed(c, e, w, n, ev).kids[n].state)
    decreases Rank(w.Phase(n), ev)
  {
    hide Config.Valid, Respawned, Step, Cascaded, Moved, Spends;
    MovedSpends(c, e, w, n, ev);
    var (w1, a) := Moved(c, e, w, n, ev);
    var w2 := Cascaded(c, e, w1, n, w.Phase(n));
    if a.SpawnAt? && a.at <= e.clock(w.clocks) {
      MovedSpawns(c, e, w, n, ev);
      RespawnedSpends(c, e, w2, n);
      var w3 := Respawned(c, e, w2, n);
      SpendsTransitive(w.kids[n].state, w2.kids[n].state, w3.kids[n].state);
      if !e.spawns(w2.tries) {
        FeedSpends(c, e, w3, n, ExitedCrash);
        SpendsTransitive(w.kids[n].state, w3.kids[n].state, Feed(c, e, w3, n, ExitedCrash).kids[n].state);
      }
    } else {
      ReleaseAlone(c, w2, n);
    }
  }

  lemma BesideSpends(a: Kid, b: Kid)
    requires Beside(a, b)
    ensures Spends(a.state, b.state)
  {
  }

  /** The child has been running for its stability window. */
  predicate Stable(c: Config, w: World, n: Name, now: int)
    requires n in c.children && n in w.kids
  {
    w.Phase(n) == Running && now - w.kids[n].state.since >= c.children[n].spec.policy.windowNs
  }

  lemma PollSpends(c: Config, e: Env, w: World, n: Name, now: int)
    requires w.Of(c) && n in c.children && !c.children[n].spec.oneshot && !Stable(c, w, n, now)
    ensures Poll(c, e, w, n, now).0.Of(c) && Spends(w.kids[n].state, Poll(c, e, w, n, now).0.kids[n].state)
  {
    hide Config.Valid, Feed, Spends;
    SpendsNothing(w.kids[n].state);
    var w1 := w.(waits := w.waits + 1);
    ReleaseAlone(c, w1, n);
    FeedSpends(c, e, Release(w1, n), n, ExitedOk);
    FeedSpends(c, e, Release(w1, n), n, ExitedCrash);
    FeedSpends(c, e, w1, n, AliveSeen);
  }

  lemma SpendsNothing(a: ChildState)
    ensures Spends(a, a)
  {
  }

  lemma VisitSpends(c: Config, e: Env, w: World, n: Name, now: int)
    requires w.Of(c) && n in c.children && !c.children[n].spec.oneshot && !Stable(c, w, n, now)
    ensures Visit(c, e, w, n, now).Of(c) && Spends(w.kids[n].state, Visit(c, e, w, n, now).kids[n].state)
  {
    hide Config.Valid, Feed, Spends, Poll;
    PollSpends(c, e, w, n, now);
    var w1 := Poll(c, e, w, n, now).0;
    SpendsNothing(w1.kids[n].state);
    FeedSpends(c, e, w1, n, Tick);
    var w2 := CheckBackoff(c, e, w1, n, now);
    SpendsTransitive(w.kids[n].state, w1.kids[n].state, w2.kids[n].state);
    SpendsNothing(w2.kids[n].state);
    ReleaseAlone(c, w2, n);
    FeedSpends(c, e, Release(w2, n), n, StartTimeout);
    var w3 := CheckTimeout(c, e, w2, n, now);
    SpendsTransitive(w.kids[n].state, w2.kids[n].state, w3.kids[n].state);
  }

  lemma {:induction false} ScanSpends(c: Config, e: Env, w: World, n: Name, k: nat)
    requires w.Of(c) && n in c.children && k <= |c.topo|
    ensures BringUp(c, e, w, k).Of(c) && Spends(w.kids[n].state, BringUp(c, e, w, k).kids[n].state)
  {
    hide BringUpOne, Config.Valid, MarksLost, Spends;
    if k == 0 {
      SpendsNothing(w.kids[n].state);
    } else {
      ScanSpends(c, e, w, n, k - 1);
      var v := BringUp(c, e, w, k - 1);
      IndexAt(c, k - 1);
      StartSpends(c, e, v, c.topo[k - 1], n);
      SpendsTransitive(w.kids[n].state, v.kids[n].state, BringUp(c, e, w, k).kids[n].state);
    }
  }

  lemma StartSpends(c: Config, e: Env, w: World, m: Name, n: Name)
    requires w.Of(c) && m in c.children && n in c.children
    ensures BringUpOne(c, e, w, m).Of(c) && Spends(w.kids[n].state, BringUpOne(c, e, w, m).kids[n].state)
  {
    hide Config.Valid, Feed, Respawned, Spends, MarksLost, DepsRunning;
    SpendsNothing(w.kids[n].state);
    BringUpOneEffect(c, e, w, m);
    if m != n {
      BesideSpends(w.kids[n], BringUpOne(c, e, w, m).kids[n]);
    } else if w.Phase(n) == Stopped && !w.kids[n].completed && DepsRunning(c, w, n) {
      RespawnedSpends(c, e, w, n);
      var w1 := Respawned(c, e, w, n);
      FeedSpends(c, e, w1, n, ExitedCrash);
      SpendsTransitive(w.kids[n].state, w1.kids[n].state, Feed(c, e, w1, n, ExitedCrash).kids[n].state);
    }
  }

  /** A tick that does not find the child running for its window forgets no restart. */
  lemma TickSpends(c: Config, e: Env, w: World, n: Name)
    requires w.Of(c) && n in c.children && !c.children[n].spec.oneshot && !Stable(c, w, n, e.clock(w.clocks))
    ensures Ticked(c, e, w).Of(c) && Spends(w.kids[n].state, Ticked(c, e, w).kids[n].state)
  {
    hide Config.Valid, Visit, VisitAll, BringUp, Spends;
    InOrder(c, n);
    var q := Index(c.order, n);
    var now, w1 := e.clock(w.clocks), w.(clocks := w.clocks + 1);
    NoVisit(c, e, w1, now);
    OnlyOnce(c, n, q);
    VisitsBeside(c, e, w1, n, now, 0, q);
    var v := VisitAll(c, e, w1, now, q);
    BesideSpends(w.kids[n], v.kids[n]);
    StillNotStable(c, w, v, n, now);
    VisitSpends(c, e, v, n, now);
    OneVisit(c, e, w1, now, q);
    var u := VisitAll(c, e, w1, now, q + 1);
    SpendsTransitive(w.kids[n].state, v.kids[n].state, u.kids[n].state);
    VisitsBeside(c, e, w1, n, now, q + 1, |c.order|);
    var x := VisitAll(c, e, w1, now, |c.order|);
    BesideSpends(u.kids[n], x.kids[n]);
    SpendsTransitive(w.kids[n].state, u.kids[n].state, x.kids[n].state);
    ScanSpends(c, e, x, n, |c.topo|);
    SpendsTransitive(w.kids[n].state, x.kids[n].state, Ticked(c, e, w).kids[n].state);
  }

  lemma StillNotStable(c: Config, w: World, v: World, n: Name, now: int)
    requires n in c.children && n in w.kids && n in v.kids && Beside(w.kids[n], v.kids[n]) && !Stable(c, w, n, now)
    ensures !Stable(c, v, n, now)
  {
  }

  lemma {:induction false} DeliverSpends(c: Config, e: Env, w: World, out: seq<Signal>, n: Name)
    requires w.Of(c) && n in c.children
    ensures Delivered(c, e, w, out).Of(c) && Spends(w.kids[n].state, Delivered(c, e, w, out).kids[n].state)
    decreases |out|
  {
    hide Config.Valid, Feed, Spends, MarksLost;
    SpendsNothing(w.kids[n].state);
    if out != [] {
      var s, w1 := out[0], Signalled(c, e, w, out[0]);
      if s.child in c.children {
        var ev := if s.alive then HealthOk else HealthLost;
        FeedSpends(c, e, w, s.child, ev);
        FeedEffect(c, e, w, s.child, ev);
        if s.child != n {
          BesideSpends(w.kids[n], w1.kids[n]);
        }
      }
      DeliverSpends(c, e, w1, out[1..], n);
      SpendsTransitive(w.kids[n].state, w1.kids[n].state, Delivered(c, e, w, out).kids[n].state);
    }
  }

  // ---- runs ----

  /** The child's state after the first k inputs of a continuation. */
  function StateAt(c: Config, m: Mapping, e: Env, inputs: seq<Input>, more: seq<Input>, n: Name, k: nat): ChildState
    requires c.Valid() && m.Valid() && n in c.children && k <= |more|
  {
    Run(c, m, e, inputs + more[..k]).w.kids[n].state
  }

  /** How often the child died during the first k inputs of the continuation. */
  function Deaths(c: Config, m: Mapping, e: Env, inputs: seq<Input>, more: seq<Input>, n: Name, k: nat): nat
    requires c.Valid() && m.Valid() && n in c.children && k <= |more|
  {
    if k == 0 then 0
    else
      Deaths(c, m, e, inputs, more, n, k - 1) +
      if Died(StateAt(c, m, e, inputs, more, n, k - 1), StateAt(c, m, e, inputs, more, n, k)) then 1 else 0
  }

  /** Tick number k of the continuation does not find the child running for its window. */
  ghost predicate NotForgivenAt(c: Config, m: Mapping, e: Env, inputs: seq<Input>, more: seq<Input>, n: Name, k: nat)
    requires c.Valid() && m.Valid() && n in c.children && k < |more|
  {
    var w := Run(c, m, e, inputs + more[..k]).w;
    more[k].TimerTick? ==> !Stable(c, w, n, e.clock(w.clocks))
  }

  lemma NextSpends(c: Config, m: Mapping, e: Env, inputs: seq<Input>, more: seq<Input>, n: Name, k: nat)
    requires c.Valid() && m.Valid() && n in c.children && !c.children[n].spec.oneshot && k < |more|
    requires NotForgivenAt(c, m, e, inputs, more, n, k)
    ensures Spends(StateAt(c, m, e, inputs, more, n, k), StateAt(c, m, e, inputs, more, n, k + 1))
  {
    hide Config.Valid, Run, Next, Spends, Stable;
    RunNext(c, m, e, inputs + more[..k], more[k]);
    assert inputs + more[..k] + [more[k]] == inputs + more[..k + 1];
    InputSpends(c, m, e, Run(c, m, e, inputs + more[..k]), more[k], n);
  }

  lemma InputSpends(c: Config, m: Mapping, e: Env, s: System, i: Input, n: Name)
    requires s.w.Of(c) && m.Valid() && s.vs.Keys == m.nodes.Keys && n in c.children && !c.children[n].spec.oneshot
    requires i.TimerTick? ==> !Stable(c, s.w, n, e.clock(s.w.clocks))
    ensures Spends(s.w.kids[n].state, Next(c, m, e, s, i).w.kids[n].state)
  {
    hide Config.Valid, Ticked, Dispatched, Delivered, Spends, Stable;
    match i {
      case TimerTick => TickSpends(c, e, s.w, n);
      case Report(items) => DeliverSpends(c, e, s.w, Dispatched(m, s.vs, items).1, n);
    }
  }

  /** Deaths add up as long as the child is never found running for its window. */
  lemma {:induction false} DeathsAddUp(
    c: Config, m: Mapping, e: Env, inputs: seq<Input>, more: seq<Input>, n: Name, k: nat)
    requires c.Valid() && m.Valid() && n in c.children && !c.children[n].spec.oneshot && k <= |more|
    requires forall j :: 0 <= j < |more| ==> NotForgivenAt(c, m, e, inputs, more, n, j)
    ensures StateAt(c, m, e, inputs, more, n, k).restarts >=
            StateAt(c, m, e, inputs, more, n, 0).restarts + Deaths(c, m, e, inputs, more, n, k)
  {
    hide StateAt, Config.Valid, NotForgivenAt;
    if k > 0 {
      DeathsAddUp(c, m, e, inputs, more, n, k - 1);
      assert NotForgivenAt(c, m, e, inputs, more, n, k - 1);
      NextSpends(c, m, e, inputs, more, n, k - 1);
    }
  }

  /** More deaths than restarts allowed, with no stretch of the stability window between them,
      end in FATAL: on every run, for every policy. */
  lemma CrashLoopEndsFatal(c: Config, m: Mapping, e: Env, inputs: seq<Input>, more: seq<Input>, n: Name)
    requires c.Valid() && m.Valid() && n in c.children && !c.children[n].spec.oneshot
    requires forall j :: 0 <= j < |more| ==> NotForgivenAt(c, m, e, inputs, more, n, j)
    requires Deaths(c, m, e, inputs, more, n, |more|) > Max0(c.children[n].spec.policy.maxRestarts)
    ensures Run(c, m, e, inputs + more).w.Phase(n) == Fatal
  {
    hide Run, Config.Valid, Deaths, NotForgivenAt;
    DeathsAddUp(c, m, e, inputs, more, n, |more|);
    assert more[..|more|] == more && inputs + more[..0] == inputs;
    BudgetHolds(c, m, e, inputs, n);
    BudgetHolds(c, m, e, inputs + more, n);
  }

  /** The same for one input of any run: between inputs a running child's restarts change only by
      the forgiving tick. */
  lemma RunForgivesIff(c: Config, m: Mapping, e: Env, inputs: seq<Input>, i: Input, n: Name)
    requires Wired(c, m) && n in c.children
    requires Run(c, m, e, inputs).w.Phase(n) == Running && Run(c, m, e, inputs + [i]).w.Phase(n) == Running
    ensures var w := Run(c, m, e, inputs).w;
      var a, b := w.kids[n].state, Run(c, m, e, inputs + [i]).w.kids[n].state;
      && b.since == a.since
      && (i.TimerTick? && Stable(c, w, n, e.clock(w.clocks)) ==>
            b.restarts == 0 || (b.restarts == a.restarts && exists k :: k >= w.waits && e.wait(k) == Failed))
      && (!(i.TimerTick? && Stable(c, w, n, e.clock(w.clocks))) ==> b.restarts == a.restarts)
  {
    RunNext(c, m, e, inputs, i);
    RunKeeps(c, m, e, inputs);
    hide Config.Valid, Run, Ticked, Dispatched, Delivered, Inv;
    var s := Run(c, m, e, inputs);
    RunInvInv(c, m, s, History(inputs));
    match i {
      case TimerTick => TickForgivesIff(c, e, s.w, n);
      case Report(items) => DeliverRunning(c, e, s.w, Dispatched(m, s.vs, items).1, n);
    }
  }

  lemma {:induction false} DeliverRunning(c: Config, e: Env, w: World, out: seq<Signal>, n: Name)
    requires w.Of(c) && n in c.children && w.Phase(n) == Running
    ensures Delivered(c, e, w, out).Of(c)
    ensures Delivered(c, e, w, out).Phase(n) == Running ==> Delivered(c, e, w, out).kids[n].state == w.kids[n].state
    decreases |out|
  {
    hide Config.Valid, Feed, MarksLost;
    if out != [] {
      var s, w1 := out[0], Signalled(c, e, w, out[0]);
      if s.child in c.children {
        FeedEffect(c, e, w, s.child, if s.alive then HealthOk else HealthLost);
        if s.child == n {
          OwnSignal(c, e, w, s);
        } else {
          assert Beside(w.kids[n], w1.kids[n]);
        }
      }
      if w1.Phase(n) == Running {
        DeliverRunning(c, e, w1, out[1..], n);
      } else {
        StaysDown(c, e, w1, out[1..], n);
      }
    }
  }

  lemma OwnSignal(c: Config, e: Env, w: World, s: Signal)
    requires w.Of(c) && s.child in c.children && w.Phase(s.child) == Running
    ensures var r := Signalled(c, e, w, s);
      r.Of(c) && if s.alive then r.kids[s.child].state == w.kids[s.child].state else Out(r.kids[s.child])
  {
    hide Config.Valid, YieldAll, Dependents, Delay;
  }

  lemma {:induction false} StaysDown(c: Config, e: Env, w: World, out: seq<Signal>, n: Name)
    requires w.Of(c) && n in c.children && (Out(w.kids[n]) || w.Phase(n) == Stopped)
    ensures Delivered(c, e, w, out).Of(c) && Delivered(c, e, w, out).Phase(n) != Running
    decreases |out|
  {
    hide Config.Valid, Feed, MarksLost;
    if out != [] {
      var s, w1 := out[0], Signalled(c, e, w, out[0]);
      if s.child in c.children {
        FeedEffect(c, e, w, s.child, if s.alive then HealthOk else HealthLost);
        if s.child == n {
          SignalIgnored(c, e, w, s);
        } else {
          assert Beside(w.kids[n], w1.kids[n]);
        }
      }
      StaysDown(c, e, w1, out[1..], n);
    }
  }
}
