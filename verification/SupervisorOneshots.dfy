/** Children that depend on a oneshot: once it has completed, they wait as long as everything
    the oneshot depends on stays up. */
module SupervisorOneshots {
  import opened Sequences
  import opened SupervisorPolicy
  import opened SupervisorModel
  import opened SupervisorSafety
  import opened SupervisorCascade
  import opened SupervisorRuns
  import opened HealthFeed

  // ---- what a step does to the children it is not about ----

  /** Left the live phases, without a completion mark. */
  predicate Out(kid: Kid) {
    var p := kid.state.phase;
    p == Backoff || p == Fatal || (p == Stopped && !kid.completed)
  }

  /** Nothing to rely on: neither running nor completed. */
  predicate Low(kid: Kid) {
    kid.state.phase != Running && !(kid.state.phase == Stopped && kid.completed)
  }

  /** Untouched, or asked to step aside. */
  predicate Beside(a: Kid, b: Kid) {
    || b == a
    || (&& !b.completed && b.state.restarts == a.state.restarts && b.state.step == a.state.step
        && if a.state.phase == Fatal then b.state == a.state else b.state.phase == Stopped)
  }

  ghost predicate OthersBeside(w: World, r: World, n: Name)
    requires r.kids.Keys == w.kids.Keys
  {
    forall m {:trigger r.kids[m]} :: m in w.kids && m != n ==> Beside(w.kids[m], r.kids[m])
  }

  /** Some direct dependency of o is out. */
  ghost predicate DepOut(c: Config, w: World, o: Name)
    requires w.Of(c) && o in c.children
  {
    exists d {:trigger d in c.Deps(o)} :: d in c.Deps(o) && d in c.children && Out(w.kids[d])
  }

  /** Completion marks are lost only where a direct dependency is out, the child n being dead. */
  ghost predicate MarksLost(c: Config, w: World, r: World, n: Name)
    requires w.Of(c) && r.Of(c) && n in c.children
  {
    forall o {:trigger r.kids[o]} :: o in c.children && o != n && w.kids[o].completed && !r.kids[o].completed ==>
      DepOut(c, r, o) && (r.Phase(n) == Backoff || r.Phase(n) == Fatal)
  }

  lemma YieldOneOut(c: Config, e: Env, w: World, n: Name)
    requires w.Of(c) && n in c.children
    ensures Out(YieldOne(c, e, w, n).kids[n]) && Beside(w.kids[n], YieldOne(c, e, w, n).kids[n])
  {
    hide Config.Valid, Step;
    var w0 := w.Put(n, w.kids[n].(completed := false));
    if w0.Phase(n).Active() {
      StepAside(c.children[n].spec, w0.kids[n].state, e.clock(w0.clocks));
    }
  }

  lemma {:induction false} YieldAllOut(c: Config, e: Env, w: World, ns: seq<Name>)
    requires w.Of(c) && forall n :: n in ns ==> n in c.children
    ensures var r := YieldAll(c, e, w, ns);
      && (forall m {:trigger r.kids[m]} :: m in w.kids ==> Beside(w.kids[m], r.kids[m]))
      && (forall m {:trigger m in ns} :: m in ns ==> Out(r.kids[m]))
    decreases |ns|
  {
    hide Config.Valid, YieldOne;
    if ns != [] {
      var last, init := ns[|ns| - 1], ns[..|ns| - 1];
      assert last in ns;
      YieldOneOut(c, e, w, last);
      var w1 := YieldOne(c, e, w, last);
      YieldAllOut(c, e, w1, init);
      var r := YieldAll(c, e, w1, init);
      forall m | m in w.kids ensures Beside(w.kids[m], r.kids[m]) {
        assert Beside(w1.kids[m], r.kids[m]);
      }
      forall m | m in ns ensures Out(r.kids[m]) {
        assert m == last || m in init;
        assert Beside(w1.kids[m], r.kids[m]);
      }
    }
  }

  /** An affected child has a direct dependency that is the source or affected. */
  lemma {:induction false} ScanHit(c: Config, name: Name, k: nat, m: Name)
    requires c.Valid() && k <= |c.topo| && m in Scan(c, name, k).1
    ensures m in c.children && exists d :: d in c.Deps(m) && (d == name || d in Scan(c, name, k).1)
  {
    ScanBasics(c, name, k - 1);
    var before := Scan(c, name, k - 1);
    if m in before.1 {
      ScanHit(c, name, k - 1, m);
      var d :| d in c.Deps(m) && (d == name || d in before.1);
      assert d == name || d in Scan(c, name, k).1;
    } else {
      assert m == c.topo[k - 1] && DepHit(c, before.0, m);
      var d :| d in c.Deps(m) && d in before.0;
      assert d == name || d in Scan(c, name, k).1;
    }
  }

  lemma DependentHit(c: Config, n: Name, o: Name)
    requires c.Valid() && o in Dependents(c, n)
    ensures o in c.children && exists d :: d in c.Deps(o) && (d == n || d in Dependents(c, n))
  {
    ScanHit(c, n, |c.topo|, o);
  }

  lemma DepsDeclared(c: Config, o: Name)
    requires c.Valid() && o in c.children
    ensures forall d :: d in c.Deps(o) ==> d in c.children
  {
  }

  /** The cascade of a dead child. */
  lemma CascadeOut(c: Config, e: Env, w: World, n: Name)
    requires w.Of(c) && n in c.children && (w.Phase(n) == Backoff || w.Phase(n) == Fatal)
    ensures var r := YieldAll(c, e, w, Dependents(c, n));
      r.Of(c) && OthersBeside(w, r, n) && r.kids[n] == w.kids[n] && MarksLost(c, w, r, n)
  {
    hide Config.Valid, YieldAll, Dependents, Beside;
    var ns := Dependents(c, n);
    YieldAllOut(c, e, w, ns);
    var r := YieldAll(c, e, w, ns);
    forall o | o in c.children && o != n && w.kids[o].completed && !r.kids[o].completed
      ensures DepOut(c, r, o)
    {
      assert o in ns;
      DependentHit(c, n, o);
      DepsDeclared(c, o);
      var d :| d in c.Deps(o) && (d == n || d in ns);
      assert Out(r.kids[d]);
    }
  }

  /** Only n changed, and it did not come back. */
  lemma LocalEffect(c: Config, w: World, r: World, s: World, n: Name)
    requires w.Of(c) && r.Of(c) && s.Of(c) && n in c.children
    requires OthersBeside(w, r, n) && MarksLost(c, w, r, n)
    requires forall m :: m in r.kids && m != n ==> s.kids[m] == r.kids[m]
    requires r.Phase(n) == Backoff || r.Phase(n) == Fatal ==> s.Phase(n) == r.Phase(n)
    ensures OthersBeside(w, s, n) && MarksLost(c, w, s, n)
  {
    hide Config.Valid, Beside;
    forall o | o in c.children && o != n && w.kids[o].completed && !s.kids[o].completed
      ensures DepOut(c, s, o) && (s.Phase(n) == Backoff || s.Phase(n) == Fatal)
    {
      assert !r.kids[o].completed;
      var d :| d in c.Deps(o) && d in c.children && Out(r.kids[d]);
      assert Out(s.kids[d]);
    }
  }

  lemma NothingLost(c: Config, w: World, r: World, n: Name)
    requires w.Of(c) && r.Of(c) && n in c.children
    requires forall m :: m in w.kids && m != n ==> r.kids[m] == w.kids[m]
    ensures OthersBeside(w, r, n) && MarksLost(c, w, r, n)
  {
    hide Config.Valid;
  }

  lemma CascadedEffect(c: Config, e: Env, w: World, n: Name, ev: Event)
    requires w.Of(c) && n in c.children
    ensures var w1 := Moved(c, e, w, n, ev).0;
      var w2 := Cascaded(c, e, w1, n, w.Phase(n));
      && w2.Of(c) && w2.kids[n] == w1.kids[n] && OthersBeside(w, w2, n) && MarksLost(c, w, w2, n)
      && (!w.Phase(n).Live() ==> w2 == w1)
  {
    hide Config.Valid, YieldAll, Dependents, Step, Beside, MarksLost;
    var w1 := Moved(c, e, w, n, ev).0;
    NothingLost(c, w, w1, n);
    if IsDeadSource(w.Phase(n), w1.Phase(n)) {
      CascadeOut(c, e, w1, n);
      SameOthers(c, w, w1, YieldAll(c, e, w1, Dependents(c, n)), n);
    }
  }

  lemma SameOthers(c: Config, w: World, w1: World, r: World, n: Name)
    requires w.Of(c) && w1.Of(c) && r.Of(c) && n in c.children
    requires forall m :: m in w.kids && m != n ==> w1.kids[m] == w.kids[m]
    requires OthersBeside(w1, r, n) && MarksLost(c, w1, r, n)
    ensures OthersBeside(w, r, n) && MarksLost(c, w, r, n)
  {
    hide Config.Valid, Beside, DepOut;
  }

  lemma RespawnedAlone(c: Config, e: Env, w: World, n: Name)
    requires w.Of(c) && n in c.children
    ensures var r := Respawned(c, e, w, n);
      r.Of(c) && forall m :: m in w.kids && m != n ==> r.kids[m] == w.kids[m]
  {
    hide Config.Valid, Step;
  }

  lemma StepSpawns(spec: ChildSpec, st: ChildState, ev: Event, now: int)
    requires Step(spec, st, ev, now).1.SpawnAt?
    ensures st.phase.Live() ==> Step(spec, st, ev, now).0.phase == Backoff
    ensures !st.phase.Live() ==> st.phase == Backoff && ev == Tick && Step(spec, st, ev, now).0.phase == Starting
  {
  }

  /** A spawn that is already due after a death: n stays in BACKOFF whatever becomes of it. */
  lemma SpawnAfterDeath(c: Config, e: Env, w: World, w2: World, n: Name)
    requires w.Of(c) && w2.Of(c) && n in c.children && w2.Phase(n) == Backoff
    requires OthersBeside(w, w2, n) && MarksLost(c, w, w2, n)
    ensures var w3 := Respawned(c, e, w2, n);
      && w3.Of(c) && OthersBeside(w, w3, n) && MarksLost(c, w, w3, n)
      && var r := Feed(c, e, w3, n, ExitedCrash);
         r.Of(c) && OthersBeside(w, r, n) && MarksLost(c, w, r, n)
  {
    hide Config.Valid, Step, OthersBeside, MarksLost, Feed;
    RespawnedAlone(c, e, w2, n);
    var w3 := Respawned(c, e, w2, n);
    LocalEffect(c, w, w2, w3, n);
    IgnoredCrash(c, e, w3, n);
    MovedAlone(c, e, w3, n, ExitedCrash);
    LocalEffect(c, w, w3, Moved(c, e, w3, n, ExitedCrash).0, n);
  }

  lemma {:induction false} FeedEffect(c: Config, e: Env, w: World, n: Name, ev: Event)
    requires w.Of(c) && n in c.children
    ensures var r := Feed(c, e, w, n, ev);
      r.Of(c) && OthersBeside(w, r, n) && MarksLost(c, w, r, n)
    decreases Rank(w.Phase(n), ev)
  {
    hide Config.Valid, Cascaded, Respawned, Step, OthersBeside, MarksLost, Moved;
    CascadedEffect(c, e, w, n, ev);
    var (w1, a) := Moved(c, e, w, n, ev);
    var w2 := Cascaded(c, e, w1, n, w.Phase(n));
    if a.SpawnAt? && a.at <= e.clock(w.clocks) {
      MovedSpawns(c, e, w, n, ev);
      if w.Phase(n).Live() {
        SpawnAfterDeath(c, e, w, w2, n);
      } else {
        SpawnAgain(c, e, w, w1, n);
        FeedEffect(c, e, Respawned(c, e, w1, n), n, ExitedCrash);
        SameOthers(c, w, Respawned(c, e, w1, n), Feed(c, e, Respawned(c, e, w1, n), n, ExitedCrash), n);
      }
    } else {
      ReleaseAlone(c, w2, n);
      LocalEffect(c, w, w2, Release(w2, n), n);
    }
  }

  lemma MovedSpawns(c: Config, e: Env, w: World, n: Name, ev: Event)
    requires w.Of(c) && n in c.children && Moved(c, e, w, n, ev).1.SpawnAt?
    ensures var w1 := Moved(c, e, w, n, ev).0;
      && (w.Phase(n).Live() ==> w1.Phase(n) == Backoff && IsDeath(ev))
      && (!w.Phase(n).Live() ==> w.Phase(n) == Backoff && ev == Tick && w1.Phase(n) == Starting)
      && w1.Of(c) && forall m :: m in w.kids && m != n ==> w1.kids[m] == w.kids[m]
  {
    hide Config.Valid, Step;
    StepSpawns(c.children[n].spec, w.kids[n].state, ev, e.clock(w.clocks));
  }

  lemma SpawnAgain(c: Config, e: Env, w: World, w1: World, n: Name)
    requires w.Of(c) && w1.Of(c) && n in c.children && w1.Phase(n) == Starting
    requires forall m :: m in w.kids && m != n ==> w1.kids[m] == w.kids[m]
    ensures var w3 := Respawned(c, e, w1, n);
      && w3.Of(c) && w3.Phase(n) == Starting && OthersBeside(w, w3, n) && MarksLost(c, w, w3, n)
      && forall m :: m in w.kids && m != n ==> w3.kids[m] == w.kids[m]
  {
    hide Config.Valid, Respawned, OthersBeside, MarksLost;
    RespawnedAlone(c, e, w1, n);
    NothingLost(c, w, Respawned(c, e, w1, n), n);
  }

  lemma MovedAlone(c: Config, e: Env, w: World, n: Name, ev: Event)
    requires w.Of(c) && n in c.children
    ensures var r := Moved(c, e, w, n, ev).0;
      r.Of(c) && forall m :: m in w.kids && m != n ==> r.kids[m] == w.kids[m]
  {
    hide Config.Valid, Step;
  }

  /** A health signal does nothing to a child that is out or stopped. */
  lemma SignalIgnored(c: Config, e: Env, w: World, s: Signal)
    requires w.Of(c) && s.child in c.children && (Out(w.kids[s.child]) || w.Phase(s.child) == Stopped)
    ensures Signalled(c, e, w, s).kids == w.kids
  {
    hide Config.Valid, YieldAll, Dependents;
  }

  predicate Clear(kid: Kid) {
    kid.state.phase != Running && !kid.completed
  }

  lemma MovedClear(c: Config, e: Env, w: World, n: Name, ev: Event)
    requires w.Of(c) && n in c.children && Clear(w.kids[n])
    requires ev != AliveSeen && ev != HealthOk && ev != ExitedOk
    ensures Moved(c, e, w, n, ev).0.Of(c) && Clear(Moved(c, e, w, n, ev).0.kids[n])
  {
    hide Config.Valid, Step, Budgeted;
    StepOnward(c.children[n].spec, w.kids[n].state, ev, e.clock(w.clocks));
  }

  lemma RespawnedClear(c: Config, e: Env, w: World, n: Name)
    requires w.Of(c) && n in c.children && Clear(w.kids[n])
    ensures Respawned(c, e, w, n).Of(c) && Clear(Respawned(c, e, w, n).kids[n])
  {
    hide Config.Valid, Moved;
    MovedClear(c, e, w, n, Spawned);
  }

  /** Without a confirmation a child that is not running or completed does not get there. */
  lemma {:induction false} FeedLow(c: Config, e: Env, w: World, n: Name, ev: Event)
    requires w.Of(c) && n in c.children && Clear(w.kids[n])
    requires ev != AliveSeen && ev != HealthOk && ev != ExitedOk
    ensures Clear(Feed(c, e, w, n, ev).kids[n])
    decreases Rank(w.Phase(n), ev)
  {
    hide Config.Valid, Cascaded, Step, Moved, Respawned;
    MovedClear(c, e, w, n, ev);
    var (w1, a) := Moved(c, e, w, n, ev);
    var w2 := Cascaded(c, e, w1, n, w.Phase(n));
    if a.SpawnAt? && a.at <= e.clock(w.clocks) {
      MovedSpawns(c, e, w, n, ev);
      RespawnedClear(c, e, w2, n);
      if !e.spawns(w2.tries) {
        FeedLow(c, e, Respawned(c, e, w2, n), n, ExitedCrash);
      }
    } else {
      ReleaseAlone(c, w2, n);
    }
  }

  // ---- one visit ----

  lemma ConfirmAlone(c: Config, e: Env, w: World, n: Name, ev: Event)
    requires w.Of(c) && n in c.children
    requires (w.Phase(n) == Starting && ev == AliveSeen) || (w.Phase(n) == Running && ev == RunningStable)
    ensures var r := Feed(c, e, w, n, ev);
      r.Phase(n) == Running && forall m :: m in w.kids && m != n ==> r.kids[m] == w.kids[m]
  {
    hide Config.Valid, YieldAll, Dependents;
  }

  lemma ReleaseAlone(c: Config, w: World, n: Name)
    requires w.Of(c) && n in c.children
    ensures Release(w, n).Of(c)
    ensures forall m :: m in w.kids && m != n ==> Release(w, n).kids[m] == w.kids[m]
    ensures Release(w, n).kids[n].state == w.kids[n].state && Release(w, n).kids[n].completed == w.kids[n].completed
  {
    hide Config.Valid;
  }

  lemma PollEffect(c: Config, e: Env, w: World, n: Name, now: int)
    requires w.Of(c) && n in c.children
    ensures var (r, over) := Poll(c, e, w, n, now);
      && r.Of(c) && OthersBeside(w, r, n) && MarksLost(c, w, r, n)
      && (!over ==> forall m :: m in w.kids && m != n ==> r.kids[m] == w.kids[m])
      && (w.kids[n].pid <= 0 ==> r == w && !over)
  {
    hide Config.Valid, Feed, OthersBeside, MarksLost;
    var w1 := w.(waits := w.waits + 1);
    NothingLost(c, w, w, n);
    NothingLost(c, w, w1, n);
    if w.kids[n].pid > 0 {
      ReleaseAlone(c, w1, n);
      match e.wait(w.waits) {
        case Exited(ok) =>
          var ev := if ok then ExitedOk else ExitedCrash;
          FeedEffect(c, e, Release(w1, n), n, ev);
          SameOthers(c, w, Release(w1, n), Feed(c, e, Release(w1, n), n, ev), n);
        case Gone =>
          FeedEffect(c, e, Release(w1, n), n, ExitedCrash);
          SameOthers(c, w, Release(w1, n), Feed(c, e, Release(w1, n), n, ExitedCrash), n);
        case Failed =>
        case StillAlive =>
          var r := Poll(c, e, w, n, now).0;
          if w.Phase(n) == Starting {
            ConfirmAlone(c, e, w1, n, AliveSeen);
            FeedEffect(c, e, w1, n, AliveSeen);
          } else if w.Phase(n) == Running {
            ConfirmAlone(c, e, w1, n, RunningStable);
            FeedEffect(c, e, w1, n, RunningStable);
          }
          NothingLost(c, w, r, n);
      }
    }
  }

  /** The two checks after a poll that did not end the visit. */
  lemma ChecksEffect(c: Config, e: Env, w: World, n: Name, now: int)
    requires w.Of(c) && n in c.children
    ensures var r := CheckTimeout(c, e, CheckBackoff(c, e, w, n, now), n, now);
      r.Of(c) && OthersBeside(w, r, n) && MarksLost(c, w, r, n)
  {
    hide Config.Valid, Feed, OthersBeside, MarksLost;
    NothingLost(c, w, w, n);
    FeedEffect(c, e, w, n, Tick);
    var w1 := CheckBackoff(c, e, w, n, now);
    var r := CheckTimeout(c, e, w1, n, now);
    if r != w1 {
      ReleaseAlone(c, w1, n);
      FeedEffect(c, e, Release(w1, n), n, StartTimeout);
      SameOthers(c, w1, Release(w1, n), r, n);
      AfterStart(c, w, w1, r, n);
    }
  }

  /** A child that is starting has just lost nobody a mark. */
  lemma AfterStart(c: Config, w: World, w1: World, r: World, n: Name)
    requires w.Of(c) && w1.Of(c) && r.Of(c) && n in c.children && w1.Phase(n) == Starting
    requires OthersBeside(w, w1, n) && MarksLost(c, w, w1, n) && OthersBeside(w1, r, n) && MarksLost(c, w1, r, n)
    ensures OthersBeside(w, r, n) && MarksLost(c, w, r, n)
  {
    hide Config.Valid, DepOut;
    forall m | m in w.kids && m != n ensures Beside(w.kids[m], r.kids[m]) {
      assert Beside(w.kids[m], w1.kids[m]);
    }
    forall o | o in c.children && o != n && w.kids[o].completed && !r.kids[o].completed
      ensures DepOut(c, r, o) && (r.Phase(n) == Backoff || r.Phase(n) == Fatal)
    {
      assert w1.kids[o].completed;
    }
  }

  lemma VisitEffect(c: Config, e: Env, w: World, n: Name, now: int)
    requires w.Of(c) && n in c.children
    ensures var r := Visit(c, e, w, n, now);
      r.Of(c) && OthersBeside(w, r, n) && MarksLost(c, w, r, n)
  {
    hide Config.Valid, Poll, CheckBackoff, CheckTimeout, OthersBeside, MarksLost;
    PollEffect(c, e, w, n, now);
    var (w1, over) := Poll(c, e, w, n, now);
    if !over {
      ChecksEffect(c, e, w1, n, now);
      SameOthers(c, w, w1, Visit(c, e, w, n, now), n);
    }
  }

  /** A stopped child is passed over; one that is out is not running after its own visit. */
  lemma VisitDown(c: Config, e: Env, w: World, n: Name, now: int)
    requires w.Of(c) && n in c.children && Owns(w.kids[n])
    requires w.Phase(n) == Backoff ==> !w.kids[n].completed
    ensures w.Phase(n) == Stopped ==> Visit(c, e, w, n, now) == w
    ensures Out(w.kids[n]) ==> Low(Visit(c, e, w, n, now).kids[n])
  {
    hide Config.Valid, Feed;
    if w.Phase(n) == Backoff {
      FeedLow(c, e, w, n, Tick);
      var w1 := CheckBackoff(c, e, w, n, now);
      ReleaseAlone(c, w1, n);
      FeedLow(c, e, Release(w1, n), n, StartTimeout);
    }
  }

  // ---- the visits of one tick ----

  /** o completed, or something it depends on is down for the rest of the visits. */
  ghost predicate MarkOrDown(c: Config, w: World, o: Name, k: nat)
    requires w.Of(c) && o in c.children && k <= |c.order|
  {
    w.kids[o].completed ||
    exists d {:trigger d in c.Deps(o)} :: d in c.Deps(o) && d in c.children && Low(w.kids[d]) &&
                                          (d in c.order[..k] || Out(w.kids[d]))
  }

  lemma KidFacts(c: Config, w: World, n: Name)
    requires Inv(c, w) && n in c.children
    ensures w.Of(c) && Owns(w.kids[n]) && (w.kids[n].completed ==> w.Phase(n) == Stopped)
  {
    assert KidOk(c.children[n], w.kids[n]);
  }

  lemma StaysStopped(c: Config, e: Env, w: World, n: Name, now: int, y: Name)
    requires Inv(c, w) && n in c.children && y in c.children && w.Phase(y) == Stopped
    ensures Visit(c, e, w, n, now).Phase(y) == Stopped
  {
    hide Inv, Visit, MarksLost;
    KidFacts(c, w, n);
    VisitEffect(c, e, w, n, now);
    VisitDown(c, e, w, n, now);
    assert n != y ==> Beside(w.kids[y], Visit(c, e, w, n, now).kids[y]);
  }

  lemma OrderNext(c: Config, k: nat)
    requires c.Valid() && k < |c.order|
    ensures c.order[k] in c.children && c.order[k] !in c.order[..k]
    ensures forall d :: d in c.order[..k + 1] <==> d in c.order[..k] || d == c.order[k]
  {
    var n := c.order[k];
    assert n in c.order;
  }

  lemma VisitMark(c: Config, e: Env, w: World, now: int, o: Name, k: nat)
    requires Inv(c, w) && o in c.children && k < |c.order| && w.Phase(o) == Stopped && MarkOrDown(c, w, o, k)
    ensures c.order[k] in c.children && MarkOrDown(c, Visit(c, e, w, c.order[k], now), o, k + 1)
  {
    hide Inv, Visit, Config.Valid;
    InvIsOf(c, w);
    OrderNext(c, k);
    var n := c.order[k];
    KidFacts(c, w, n);
    VisitEffect(c, e, w, n, now);
    VisitDown(c, e, w, n, now);
    var r := Visit(c, e, w, n, now);
    if w.kids[o].completed {
      if !r.kids[o].completed {
        assert o != n;
        assert DepOut(c, r, o);
      }
    } else {
      var d :| d in c.Deps(o) && d in c.children && Low(w.kids[d]) && (d in c.order[..k] || Out(w.kids[d]));
      assert d != n ==> Beside(w.kids[d], r.kids[d]);
      assert Low(r.kids[d]) && (d in c.order[..k + 1] || Out(r.kids[d]));
    }
  }

  lemma {:induction false} VisitAllMark(c: Config, e: Env, w: World, now: int, o: Name, x: Name, k: nat)
    requires PacedAll(c) && Inv(c, w) && o in c.children && x in c.children && k <= |c.order|
    requires w.Phase(o) == Stopped && w.kids[o].completed && w.Phase(x) == Stopped
    ensures var r := VisitAll(c, e, w, now, k);
      Inv(c, r) && r.Phase(o) == Stopped && r.Phase(x) == Stopped && MarkOrDown(c, r, o, k)
  {
    hide Inv, Visit, MarkOrDown, Config.Valid;
    InvIsOf(c, w);
    if k == 0 {
      StartMark(c, w, o);
    } else {
      VisitAllMark(c, e, w, now, o, x, k - 1);
      var before := VisitAll(c, e, w, now, k - 1);
      InvIsOf(c, before);
      VisitMark(c, e, before, now, o, k - 1);
      StaysStopped(c, e, before, c.order[k - 1], now, o);
      StaysStopped(c, e, before, c.order[k - 1], now, x);
      VisitAllKeeps(c, e, w, now, k);
    }
  }

  lemma StartMark(c: Config, w: World, o: Name)
    requires w.Of(c) && o in c.children && w.kids[o].completed
    ensures MarkOrDown(c, w, o, 0)
  {
  }

  // ---- the bring-up ----

  ghost predicate MarkOrLow(c: Config, w: World, o: Name)
    requires w.Of(c) && o in c.children
  {
    w.kids[o].completed || exists d {:trigger d in c.Deps(o)} :: d in c.Deps(o) && d in c.children && Low(w.kids[d])
  }

  lemma BringUpOneEffect(c: Config, e: Env, w: World, n: Name)
    requires w.Of(c) && n in c.children
    ensures var r := BringUpOne(c, e, w, n);
      && r.Of(c) && OthersBeside(w, r, n) && MarksLost(c, w, r, n)
      && (w.Phase(n) != Running ==> r.Phase(n) != Running)
      && (Low(w.kids[n]) ==> Low(r.kids[n]))
      && (w.kids[n].completed || !DepsRunning(c, w, n) ==> r == w)
  {
    hide Config.Valid, Feed, Respawned, OthersBeside, MarksLost, DepsRunning;
    NothingLost(c, w, w, n);
    if w.Phase(n) == Stopped && !w.kids[n].completed && DepsRunning(c, w, n) {
      RespawnedAlone(c, e, w, n);
      RespawnedFresh(c, e, w, n);
      var w1 := Respawned(c, e, w, n);
      NothingLost(c, w, w1, n);
      if !e.spawns(w.tries) {
        FeedEffect(c, e, w1, n, ExitedCrash);
        FeedLow(c, e, w1, n, ExitedCrash);
        SameOthers(c, w, w1, Feed(c, e, w1, n, ExitedCrash), n);
      }
    }
  }

  lemma RespawnedFresh(c: Config, e: Env, w: World, n: Name)
    requires w.Of(c) && n in c.children && w.Phase(n) == Stopped && !w.kids[n].completed
    ensures Respawned(c, e, w, n).Phase(n) == Starting && !Respawned(c, e, w, n).kids[n].completed
  {
    hide Config.Valid;
  }

  lemma BringUpOneMark(c: Config, e: Env, w: World, n: Name, o: Name, x: Name)
    requires w.Of(c) && n in c.children && o in c.children && x in c.children && o in c.Deps(x)
    requires w.Phase(o) != Running && w.Phase(x) == Stopped && MarkOrLow(c, w, o)
    ensures var r := BringUpOne(c, e, w, n);
      r.Of(c) && r.Phase(o) != Running && r.Phase(x) == Stopped && MarkOrLow(c, r, o)
  {
    hide Config.Valid, BringUpOne;
    BringUpOneEffect(c, e, w, n);
    var r := BringUpOne(c, e, w, n);
    assert o != n ==> Beside(w.kids[o], r.kids[o]);
    assert x != n ==> Beside(w.kids[x], r.kids[x]);
    if w.kids[o].completed {
      if !r.kids[o].completed {
        assert o != n && DepOut(c, r, o);
      }
    } else {
      var d :| d in c.Deps(o) && d in c.children && Low(w.kids[d]);
      assert d != n ==> Beside(w.kids[d], r.kids[d]);
      assert Low(r.kids[d]);
    }
  }

  lemma {:induction false} BringUpMark(c: Config, e: Env, w: World, o: Name, x: Name, k: nat)
    requires w.Of(c) && o in c.children && x in c.children && o in c.Deps(x) && k <= |c.topo|
    requires w.Phase(o) != Running && w.Phase(x) == Stopped && MarkOrLow(c, w, o)
    ensures var r := BringUp(c, e, w, k);
      r.Of(c) && r.Phase(o) != Running && r.Phase(x) == Stopped && MarkOrLow(c, r, o)
  {
    hide BringUpOne, MarkOrLow;
    if k > 0 {
      BringUpMark(c, e, w, o, x, k - 1);
      BringUpOneMark(c, e, BringUp(c, e, w, k - 1), c.topo[k - 1], o, x);
    }
  }

  lemma TickMark(c: Config, e: Env, w: World, o: Name, x: Name)
    requires PacedAll(c) && Inv(c, w) && o in c.children && x in c.children && o in c.Deps(x)
    requires w.Phase(o) == Stopped && w.kids[o].completed && w.Phase(x) == Stopped
    ensures var r := Ticked(c, e, w);
      r.Of(c) && r.Phase(x) == Stopped && MarkOrLow(c, r, o)
  {
    hide Inv, VisitAll, BringUp, MarkOrDown, Config.Valid;
    InvIsOf(c, w);
    InvSound(c, w, x);
    var w1 := w.(clocks := w.clocks + 1);
    InvCounters(c, w);
    var now := e.clock(w.clocks);
    VisitAllMark(c, e, w1, now, o, x, |c.order|);
    var w2 := VisitAll(c, e, w1, now, |c.order|);
    InvIsOf(c, w2);
    DownIsLow(c, w2, o, |c.order|);
    BringUpMark(c, e, w2, o, x, |c.topo|);
  }

  lemma InvCounters(c: Config, w: World)
    requires Inv(c, w)
    ensures Inv(c, w.(clocks := w.clocks + 1))
  {
    hide Table, KidsOk, DepSafe;
    CountersFree(c, w, w.clocks + 1, w.waits);
  }

  lemma DownIsLow(c: Config, w: World, o: Name, k: nat)
    requires w.Of(c) && o in c.children && k <= |c.order| && MarkOrDown(c, w, o, k)
    ensures MarkOrLow(c, w, o)
  {
  }

  // ---- a health report ----

  ghost predicate MarkOrOut(c: Config, w: World, o: Name)
    requires w.Of(c) && o in c.children
  {
    w.kids[o].completed || DepOut(c, w, o)
  }

  lemma SignalMark(c: Config, e: Env, w: World, s: Signal, o: Name, x: Name)
    requires w.Of(c) && o in c.children && x in c.children
    requires w.Phase(o) == Stopped && w.Phase(x) == Stopped && MarkOrOut(c, w, o)
    ensures var r := Signalled(c, e, w, s);
      r.Of(c) && r.Phase(o) == Stopped && r.Phase(x) == Stopped && MarkOrOut(c, r, o)
  {
    hide Config.Valid, Feed;
    var r := Signalled(c, e, w, s);
    if s.child in c.children {
      if Out(w.kids[s.child]) || w.Phase(s.child) == Stopped {
        SignalIgnored(c, e, w, s);
        assert forall m :: m in w.kids ==> r.kids[m] == w.kids[m];
        KeptOut(c, w, r, o);
      } else {
        FeedEffect(c, e, w, s.child, if s.alive then HealthOk else HealthLost);
        assert Beside(w.kids[o], r.kids[o]) && Beside(w.kids[x], r.kids[x]);
        OthersKeepOut(c, w, r, o, s.child);
      }
    }
  }

  lemma KeptOut(c: Config, w: World, r: World, o: Name)
    requires w.Of(c) && r.Of(c) && o in c.children && r.kids == w.kids && MarkOrOut(c, w, o)
    ensures MarkOrOut(c, r, o)
  {
    hide Config.Valid;
    if !w.kids[o].completed {
      var d :| d in c.Deps(o) && d in c.children && Out(w.kids[d]);
      assert Out(r.kids[d]);
    }
  }

  lemma OthersKeepOut(c: Config, w: World, r: World, o: Name, n: Name)
    requires w.Of(c) && r.Of(c) && o in c.children && n in c.children && o != n && !Out(w.kids[n])
    requires OthersBeside(w, r, n) && MarksLost(c, w, r, n) && MarkOrOut(c, w, o)
    ensures MarkOrOut(c, r, o)
  {
    hide Config.Valid;
    if w.kids[o].completed {
      if !r.kids[o].completed {
        assert DepOut(c, r, o);
      }
    } else {
      var d :| d in c.Deps(o) && d in c.children && Out(w.kids[d]);
      assert Beside(w.kids[d], r.kids[d]);
      assert Out(r.kids[d]);
    }
  }

  lemma {:induction false} DeliverMark(c: Config, e: Env, w: World, out: seq<Signal>, o: Name, x: Name)
    requires w.Of(c) && o in c.children && x in c.children
    requires w.Phase(o) == Stopped && w.Phase(x) == Stopped && MarkOrOut(c, w, o)
    ensures var r := Delivered(c, e, w, out);
      r.Of(c) && r.Phase(x) == Stopped && MarkOrOut(c, r, o)
    decreases |out|
  {
    hide Config.Valid, Signalled, MarkOrOut;
    if out != [] {
      SignalMark(c, e, w, out[0], o, x);
      DeliverMark(c, e, Signalled(c, e, w, out[0]), out[1..], o, x);
    }
  }

  // ---- the result ----

  /** Everything o depends on is running or has completed. */
  ghost predicate AllReliable(c: Config, w: World, o: Name)
    requires w.Of(c) && o in c.children
  {
    forall d :: d in c.Deps(o) ==> d in c.children && Reliable(c.children[d], w.kids[d])
  }

  lemma MarkMeansReliable(c: Config, w: World, o: Name)
    requires Inv(c, w) && o in c.children
    ensures w.Of(c)
    ensures w.kids[o].completed ==> AllReliable(c, w, o)
    ensures MarkOrLow(c, w, o) && AllReliable(c, w, o) ==> w.kids[o].completed
  {
    hide Table, Config.Valid, KidOk;
    if w.kids[o].completed {
      assert Up(w.kids[o]);
    }
  }

  lemma OutIsLow(c: Config, w: World, o: Name)
    requires w.Of(c) && o in c.children && MarkOrOut(c, w, o)
    ensures MarkOrLow(c, w, o)
  {
    hide Config.Valid;
    if !w.kids[o].completed {
      var d :| d in c.Deps(o) && d in c.children && Out(w.kids[d]);
      assert Low(w.kids[d]);
    }
  }

  /** Over one input a stopped dependent of a completed oneshot stays stopped, and the oneshot
      keeps its mark exactly if everything it depends on is still up. */
  lemma NextWaits(c: Config, m: Mapping, e: Env, s: System, i: Input, o: Name, x: Name)
    requires Wired(c, m) && s.vs.Keys == m.nodes.Keys && Inv(c, s.w)
    requires o in c.children && x in c.children && o in c.Deps(x)
    requires s.w.kids[o].completed && s.w.Phase(x) == Stopped
    requires Inv(c, Next(c, m, e, s, i).w)
    ensures var r := Next(c, m, e, s, i).w;
      r.Phase(x) == Stopped && (r.kids[o].completed <==> AllReliable(c, r, o))
  {
    hide Inv, Config.Valid, Ticked, Dispatched, Delivered, MarkOrLow, AllReliable;
    InvIsOf(c, s.w);
    KidFacts(c, s.w, o);
    var r := Next(c, m, e, s, i).w;
    MarkMeansReliable(c, r, o);
    match i {
      case TimerTick => TickMark(c, e, s.w, o, x);
      case Report(items) =>
        DeliverMark(c, e, s.w, Dispatched(m, s.vs, items).1, o, x);
        OutIsLow(c, r, o);
    }
  }

  /** The oneshot o has completed and its dependent x is stopped. */
  predicate Waiting(w: World, o: Name, x: Name) {
    o in w.kids && x in w.kids && w.kids[o].completed && w.Phase(x) == Stopped
  }

  lemma WaitStep(c: Config, m: Mapping, e: Env, inputs: seq<Input>, last: Input, o: Name, x: Name)
    requires Wired(c, m) && o in c.children && x in c.children && o in c.Deps(x)
    requires Waiting(Run(c, m, e, inputs).w, o, x)
    requires AllReliable(c, Run(c, m, e, inputs + [last]).w, o)
    ensures Waiting(Run(c, m, e, inputs + [last]).w, o, x)
  {
    RunKeeps(c, m, e, inputs);
    RunKeeps(c, m, e, inputs + [last]);
    RunNext(c, m, e, inputs, last);
    hide Next, Config.Valid, Inv, Run, AllReliable, History;
    RunInvInv(c, m, Run(c, m, e, inputs), History(inputs));
    RunInvInv(c, m, Run(c, m, e, inputs + [last]), History(inputs + [last]));
    NextWaits(c, m, e, Run(c, m, e, inputs), last, o, x);
  }

  /** Everything o depends on is up after the first k inputs of the continuation. */
  ghost predicate UpheldAt(c: Config, m: Mapping, e: Env, inputs: seq<Input>, more: seq<Input>, o: Name, k: nat)
    requires c.Valid() && m.Valid() && o in c.children && k <= |more|
  {
    AllReliable(c, Run(c, m, e, inputs + more[..k]).w, o)
  }

  /** A stopped dependent of a completed oneshot stays stopped on every continuation through
      which everything the oneshot depends on stays up. */
  lemma {:induction false} DependentWaits(c: Config, m: Mapping, e: Env, inputs: seq<Input>, more: seq<Input>,
                                          o: Name, x: Name, n: nat)
    requires Wired(c, m) && o in c.children && x in c.children && o in c.Deps(x) && n <= |more|
    requires Waiting(Run(c, m, e, inputs).w, o, x)
    requires forall k :: 0 <= k <= |more| ==> UpheldAt(c, m, e, inputs, more, o, k)
    ensures Waiting(Run(c, m, e, inputs + more[..n]).w, o, x)
  {
    hide Next, Config.Valid, Run, AllReliable, Waiting;
    if n == 0 {
      assert inputs + more[..0] == inputs;
    } else {
      DependentWaits(c, m, e, inputs, more, o, x, n - 1);
      assert UpheldAt(c, m, e, inputs, more, o, n);
      assert inputs + more[..n - 1] + [more[n - 1]] == inputs + more[..n];
      WaitStep(c, m, e, inputs + more[..n - 1], more[n - 1], o, x);
    }
  }

  /** For good, if the oneshot depends on nothing. */
  lemma WaitsForGood(c: Config, m: Mapping, e: Env, inputs: seq<Input>, more: seq<Input>, o: Name, x: Name)
    requires Wired(c, m) && o in c.children && x in c.children && o in c.Deps(x) && c.Deps(o) == []
    requires Waiting(Run(c, m, e, inputs).w, o, x)
    ensures Waiting(Run(c, m, e, inputs + more).w, o, x)
  {
    hide Run, Config.Valid, AllReliable, Waiting;
    forall k | 0 <= k <= |more| ensures UpheldAt(c, m, e, inputs, more, o, k) {
      NoDepsReliable(c, Run(c, m, e, inputs + more[..k]).w, o);
    }
    DependentWaits(c, m, e, inputs, more, o, x, |more|);
    assert more[..|more|] == more;
  }

  lemma NoDepsReliable(c: Config, w: World, o: Name)
    requires w.Of(c) && o in c.children
    ensures c.Deps(o) == [] ==> AllReliable(c, w, o)
  {
  }

  lemma RunInvInv(c: Config, m: Mapping, s: System, history: seq<Item>)
    requires m.Valid() && RunInv(c, m, s, history)
    ensures Inv(c, s.w)
  {
    hide Inv;
  }

  lemma RunNext(c: Config, m: Mapping, e: Env, inputs: seq<Input>, last: Input)
    requires c.Valid() && m.Valid()
    ensures Run(c, m, e, inputs + [last]) == Next(c, m, e, Run(c, m, e, inputs), last)
  {
    hide Next, Config.Valid;
    assert (inputs + [last])[..|inputs + [last]| - 1] == inputs;
  }

  /** The other way: when something the oneshot depends on dies, the mark goes, ... */
  lemma MarkGoes(c: Config, e: Env, w: World, n: Name, ev: Event, o: Name)
    requires w.Of(c) && n in c.children && o in c.children && o != n && DependsOn(c, o, n)
    requires w.Phase(n).Live() && IsDeath(ev) && Applies(w.Phase(n), ev)
    requires !(ev == ExitedOk && c.children[n].spec.oneshot)
    ensures !Feed(c, e, w, n, ev).kids[o].completed
  {
    hide Config.Valid, YieldAll, Dependents, Step, DependsOn;
    DependentsExact(c, n, o);
    StepOnDeath(c.children[n].spec, w.kids[n].state, ev, e.clock(w.clocks));
    var w1 := Moved(c, e, w, n, ev).0;
    YieldAllUnmarks(c, e, w1, Dependents(c, n), o);
    FeedAfterCascade(c, e, w, n, ev, o);
  }

  lemma {:induction false} YieldAllUnmarks(c: Config, e: Env, w: World, ns: seq<Name>, o: Name)
    requires w.Of(c) && (forall n :: n in ns ==> n in c.children) && o in ns
    ensures !YieldAll(c, e, w, ns).kids[o].completed
    decreases |ns|
  {
    hide Config.Valid, YieldOne;
    var last, init := ns[|ns| - 1], ns[..|ns| - 1];
    assert last in ns;
    var w1 := YieldOne(c, e, w, last);
    if o in init {
      YieldAllUnmarks(c, e, w1, init, o);
    } else {
      YieldOneUnmarks(c, e, w, last);
    }
  }

  lemma YieldOneUnmarks(c: Config, e: Env, w: World, n: Name)
    requires w.Of(c) && n in c.children
    ensures !YieldOne(c, e, w, n).kids[n].completed
  {
    hide Config.Valid, Step;
  }

  lemma FeedAfterCascade(c: Config, e: Env, w: World, n: Name, ev: Event, o: Name)
    requires w.Of(c) && n in c.children && o in c.children && o != n && w.Phase(n).Live()
    ensures var w1 := Moved(c, e, w, n, ev).0;
      Feed(c, e, w, n, ev).kids[o] == Cascaded(c, e, w1, n, w.Phase(n)).kids[o]
  {
    hide Config.Valid, Cascaded, Step;
    var (w1, a) := Moved(c, e, w, n, ev);
    var w2 := Cascaded(c, e, w1, n, w.Phase(n));
    if a.SpawnAt? && a.at <= e.clock(w.clocks) {
      StepSpawns(c.children[n].spec, w.kids[n].state, ev, e.clock(w.clocks));
      RespawnedAlone(c, e, w2, n);
      if !e.spawns(w2.tries) {
        IgnoredCrash(c, e, Respawned(c, e, w2, n), n);
        MovedAlone(c, e, Respawned(c, e, w2, n), n, ExitedCrash);
      }
    }
  }

  /** ... and a stopped child without a mark is started by the next scan that finds its
      dependencies running: the oneshot first, its dependents once it runs. */
  lemma ReadyStarts(c: Config, e: Env, w: World, n: Name)
    requires w.Of(c) && n in c.children && w.Phase(n) == Stopped && !w.kids[n].completed
    requires DepsRunning(c, w, n) && e.spawns(w.tries)
    ensures BringUpOne(c, e, w, n).Phase(n) == Starting && BringUpOne(c, e, w, n).kids[n].pid > 0
  {
    hide Config.Valid, Step;
    RespawnedFresh(c, e, w, n);
  }

  // ---- a run in which it happens ----

  /** A oneshot and its one dependent, and an environment in which every process exits at once. */
  function Pair(p: RestartPolicy): Config {
    Config(map[0 := Child(ChildSpec(0, [], true, p), false), 1 := Child(ChildSpec(1, [0], false, p), false)],
           [0, 1], [0, 1])
  }

  function Hasty(): Env {
    Env(k => 0, k => Exited(true), k => true)
  }

  lemma PairIsValid(p: RestartPolicy)
    ensures Pair(p).Valid()
  {
    var t := Pair(p).topo;
    assert t[0] == 0 && t[1] == 1;
    assert 0 in t && 1 in t;
    assert Index(t, 0) == 0 && Index(t, 1) == 1;
    assert forall n, d :: n in Pair(p).children && d in Pair(p).Deps(n) ==> n == 1 && d == 0;
  }

  lemma PairBringUp(p: RestartPolicy, w: World)
    requires w.Of(Pair(p))
    ensures BringUp(Pair(p), Hasty(), w, 2) == BringUpOne(Pair(p), Hasty(), BringUpOne(Pair(p), Hasty(), w, 0), 1)
  {
    var c, e := Pair(p), Hasty();
    assert BringUp(c, e, w, 0) == w;
    assert BringUp(c, e, w, 1) == BringUpOne(c, e, w, 0);
  }

  lemma PairActivated(p: RestartPolicy)
    ensures Pair(p).Valid()
    ensures var w := Activated(Pair(p), Hasty());
      && w.Of(Pair(p)) && w.Phase(0) == Starting && w.kids[0].pid == 1 && !w.kids[0].completed
      && w.kids[1] == Kid(INITIAL, -1, false)
  {
    PairIsValid(p);
    hide Config.Valid, YieldAll, Dependents;
    var c, e, w := Pair(p), Hasty(), Initial(Pair(p));
    PairBringUp(p, w);
    assert DepsRunning(c, w, 0);
    var w1 := BringUpOne(c, e, w, 0);
    assert w1 == Respawned(c, e, w, 0) && w1.Phase(0) == Starting;
    NotRunningDep(c, w1);
    assert BringUpOne(c, e, w1, 1) == w1;
  }

  lemma NotRunningDep(c: Config, w: World)
    requires 1 in c.children && c.Deps(1) == [0] && 0 in w.kids && w.Phase(0) != Running
    ensures !DepsRunning(c, w, 1)
  {
    assert 0 in c.Deps(1);
  }

  lemma PairTick(p: RestartPolicy, w: World)
    requires w.Of(Pair(p)) && w.Phase(0) == Starting && w.kids[0].pid > 0 && w.kids[1] == Kid(INITIAL, -1, false)
    ensures Waiting(Ticked(Pair(p), Hasty(), w), 0, 1)
  {
    hide Config.Valid, Visit, BringUp, BringUpOne, VisitAll;
    var c, e, w0, now := Pair(p), Hasty(), w.(clocks := w.clocks + 1), Hasty().clock(w.clocks);
    PairVisits(p, w0, now);
    PairPoll(p, w0, now);
    var w1 := Visit(c, e, w0, 0, now);
    VisitDown(c, e, w1, 1, now);
    PairBringUp(p, w1);
    BringUpOneEffect(c, e, w1, 0);
    NotRunningDep(c, w1);
    BringUpOneEffect(c, e, w1, 1);
  }

  /** The oneshot exits before it was seen alive: after one tick its dependent waits. */
  lemma PairWaits(p: RestartPolicy)
    ensures Pair(p).Valid() && Mapping(map[], map[]).Valid()
    ensures Waiting(Run(Pair(p), Mapping(map[], map[]), Hasty(), [TimerTick]).w, 0, 1)
  {
    PairActivated(p);
    hide Config.Valid, Activated, Ticked, Waiting;
    var c, e, m := Pair(p), Hasty(), Mapping(map[], map[]);
    PairTick(p, Activated(c, e));
    RunNext(c, m, e, [], TimerTick);
    assert [] + [TimerTick] == [TimerTick];
    assert Run(c, m, e, []).w == Activated(c, e);
  }

  lemma PairPoll(p: RestartPolicy, w: World, now: int)
    requires w.Of(Pair(p)) && w.Phase(0) == Starting && w.kids[0].pid > 0
    ensures var r := Visit(Pair(p), Hasty(), w, 0, now);
      r.Of(Pair(p)) && r.Phase(0) == Stopped && r.kids[0].completed && r.kids[1] == w.kids[1]
  {
    hide Config.Valid, YieldAll, Dependents;
  }

  lemma PairVisits(p: RestartPolicy, w: World, now: int)
    requires w.Of(Pair(p))
    ensures VisitAll(Pair(p), Hasty(), w, now, 2) ==
            Visit(Pair(p), Hasty(), Visit(Pair(p), Hasty(), w, 0, now), 1, now)
  {
    hide Config.Valid, Visit;
    var c, e := Pair(p), Hasty();
    assert VisitAll(c, e, w, now, 0) == w;
    assert VisitAll(c, e, w, now, 1) == Visit(c, e, w, 0, now);
  }
}
