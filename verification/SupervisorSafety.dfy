/** What every step of the supervisor keeps: process ownership, the restart budget and
    the dependency order, over the whole child table. */
module SupervisorSafety {
  import opened Sequences
  import opened SupervisorPolicy
  import opened SupervisorModel

  // ---- the invariant ----

  /** The process table and the children's process numbers mirror each other. */
  ghost predicate Table(w: World) {
    && (forall p :: p in w.os ==> w.os[p] in w.kids && w.kids[w.os[p]].pid == p && 0 < p <= w.tries)
    && (forall n :: n in w.kids && w.kids[n].pid > 0 ==> w.kids[n].pid in w.os && w.os[w.kids[n].pid] == n)
  }

  ghost predicate KidOk(child: Child, kid: Kid) {
    && Budgeted(child.spec.policy, kid.state)
    && (kid.completed ==> child.spec.oneshot && kid.state.phase == Stopped)
  }

  ghost predicate KidsOk(c: Config, w: World)
    requires w.Of(c)
  {
    forall n :: n in c.children ==> KidOk(c.children[n], w.kids[n])
  }

  /** A child has a process exactly in the live phases. */
  predicate Owns(kid: Kid) {
    kid.pid > 0 <==> kid.state.phase.Live()
  }

  ghost predicate OthersOwn(w: World, n: Name) {
    forall m :: m in w.kids && m != n ==> Owns(w.kids[m])
  }

  /** Started, waiting to restart, or finished for good: the child relies on its dependencies. */
  predicate Up(kid: Kid) {
    kid.state.phase.Active() || kid.completed
  }

  predicate Aside(kid: Kid) {
    Owns(kid) && !Up(kid)
  }

  /** A dependency that can be relied on: running, or a oneshot that completed. */
  predicate Reliable(child: Child, kid: Kid) {
    kid.state.phase == Running || (child.spec.oneshot && kid.state.phase == Stopped && kid.completed)
  }

  ghost predicate DepSafe(c: Config, w: World)
    requires w.Of(c)
  {
    forall n, d {:trigger d in c.Deps(n), Up(w.kids[n])} :: n in c.children && d in c.Deps(n) && Up(w.kids[n]) ==>
      d in c.children && Reliable(c.children[d], w.kids[d])
  }

  ghost predicate Sound(c: Config, w: World) {
    w.Of(c) && Table(w) && KidsOk(c, w) && DepSafe(c, w)
  }

  ghost predicate Inv(c: Config, w: World) {
    Sound(c, w) && forall n :: n in w.kids ==> Owns(w.kids[n])
  }

  ghost predicate PacedAll(c: Config) {
    forall n :: n in c.children ==> Paced(c.children[n].spec.policy)
  }

  // ---- dependents ----

  /** A child with an affected dependency is affected, whatever was added later. */
  lemma {:induction false} ScanClosed(c: Config, name: Name, k: nat, y: Name, d: Name)
    requires c.Valid() && k <= |c.topo|
    requires y in c.children && Index(c.topo, y) < k && d in c.Deps(y) && d in Scan(c, name, k).0
    ensures y in Scan(c, name, k).0
  {
    var m := c.topo[k - 1];
    assert Index(c.topo, m) == k - 1;
    if y != m {
      ScanClosed(c, name, k - 1, y, d);
    }
  }

  /** Affected children stand after the source in the dependency order. */
  lemma {:induction false} ScanAfter(c: Config, name: Name, k: nat)
    requires c.Valid() && k <= |c.topo| && name in c.children
    ensures forall m :: m in Scan(c, name, k).1 ==> m in c.children && Index(c.topo, name) < Index(c.topo, m)
  {
    if k > 0 {
      ScanAfter(c, name, k - 1);
      ScanBasics(c, name, k - 1);
    }
  }

  lemma DependentsClosed(c: Config, n: Name, y: Name, d: Name)
    requires c.Valid() && n in c.children && y in c.children && d in c.Deps(y)
    requires d == n || d in Dependents(c, n)
    ensures y in Dependents(c, n)
  {
    ScanBasics(c, n, |c.topo|);
    ScanClosed(c, n, |c.topo|, y, d);
    ScanAfter(c, n, |c.topo|);
  }

  // ---- the elementary steps ----

  lemma ReleaseKeepsTable(w: World, n: Name)
    requires Table(w) && n in w.kids
    ensures Table(Release(w, n)) && Release(w, n).kids[n].pid <= 0
    ensures Release(w, n).kids[n].state == w.kids[n].state && Release(w, n).kids[n].completed == w.kids[n].completed
    ensures forall m :: m in w.kids && m != n ==> Release(w, n).kids[m] == w.kids[m]
  {
  }

  lemma SpawnKeepsTable(e: Env, w: World, n: Name)
    requires Table(w) && n in w.kids && w.kids[n].pid <= 0
    ensures var r := TrySpawn(e, w, n);
      && Table(r) && (r.kids[n].pid > 0 <==> e.spawns(w.tries))
      && r.kids[n].state == w.kids[n].state && r.kids[n].completed == w.kids[n].completed
      && forall m :: m in w.kids && m != n ==> r.kids[m] == w.kids[m]
  {
  }

  /** A transition moves one child, touches no process and keeps the child's budget. */
  lemma MovedKeeps(c: Config, e: Env, w: World, n: Name, ev: Event)
    requires w.Of(c) && Table(w) && KidsOk(c, w) && n in c.children
    requires ev == Spawned ==> !w.kids[n].completed
    ensures var r := Moved(c, e, w, n, ev).0;
      && r.Of(c) && Table(r) && KidsOk(c, r)
      && r.kids[n].pid == w.kids[n].pid
      && forall m :: m in w.kids && m != n ==> r.kids[m] == w.kids[m]
  {
    hide Config.Valid, KidOk, Step;
    MovedKid(c, e, w, n, ev);
  }

  lemma MovedKid(c: Config, e: Env, w: World, n: Name, ev: Event)
    requires w.Of(c) && n in c.children && KidOk(c.children[n], w.kids[n])
    requires ev == Spawned ==> !w.kids[n].completed
    ensures KidOk(c.children[n], Moved(c, e, w, n, ev).0.kids[n])
  {
    hide Config.Valid, Budgeted;
    BudgetKept(c.children[n].spec, w.kids[n].state, ev, e.clock(w.clocks));
  }

  lemma NotOwnDep(c: Config, n: Name)
    requires c.Valid() && n in c.children
    ensures n !in c.Deps(n)
  {
  }

  /** Only n changed, it relies on nothing new, and nobody can rely on it less. */
  lemma LocalChangeSafe(c: Config, w: World, r: World, n: Name)
    requires w.Of(c) && r.Of(c) && DepSafe(c, w) && n in c.children
    requires forall m :: m in w.kids && m != n ==> r.kids[m] == w.kids[m]
    requires Up(r.kids[n]) ==> Up(w.kids[n]) || DepsRunning(c, w, n)
    requires Reliable(c.children[n], w.kids[n]) ==> Reliable(c.children[n], r.kids[n])
    ensures DepSafe(c, r)
  {
    hide Config.Valid;
    NotOwnDep(c, n);
    forall y, d | y in c.children && d in c.Deps(y) && Up(r.kids[y])
      ensures d in c.children && Reliable(c.children[d], r.kids[d])
    {
      assert y == n ==> Up(w.kids[n]) || DepsRunning(c, w, n);
    }
  }

  // ---- the cascade ----

  lemma ClearKeeps(c: Config, w: World, n: Name)
    requires w.Of(c) && Table(w) && KidsOk(c, w) && n in c.children
    ensures var w0 := w.Put(n, w.kids[n].(completed := false));
      w0.Of(c) && Table(w0) && KidsOk(c, w0)
  {
    hide Config.Valid, Budgeted;
  }

  /** Asked to step aside, a child that is up stops; a live one is killed. */
  lemma StepAside(spec: ChildSpec, st: ChildState, now: int)
    requires st.phase.Active()
    ensures Step(spec, st, DepRestarting, now) ==
            (Entered(st, Stopped, now), if st.phase.Live() then Kill else NoAction)
  {
  }

  lemma YieldOneKeeps(c: Config, e: Env, w: World, n: Name)
    requires w.Of(c) && Table(w) && KidsOk(c, w) && n in c.children && Owns(w.kids[n])
    ensures var r := YieldOne(c, e, w, n);
      && r.Of(c) && Table(r) && KidsOk(c, r)
      && Aside(r.kids[n])
  {
    hide Table, KidsOk, Config.Valid, Step;
    ClearKeeps(c, w, n);
    var w0 := w.Put(n, w.kids[n].(completed := false));
    MovedKeeps(c, e, w0, n, DepRestarting);
    if w0.Phase(n).Active() {
      StepAside(c.children[n].spec, w0.kids[n].state, e.clock(w0.clocks));
    }
    var w1 := Moved(c, e, w0, n, DepRestarting).0;
    ReleaseKeepsTable(w1, n);
    KidsSame(c, w1, Release(w1, n));
  }

  /** KidsOk does not look at process numbers. */
  lemma KidsSame(c: Config, w: World, r: World)
    requires w.Of(c) && r.Of(c) && KidsOk(c, w)
    requires forall m :: m in w.kids ==>
               r.kids[m].state == w.kids[m].state && r.kids[m].completed == w.kids[m].completed
    ensures KidsOk(c, r)
  {
    hide Config.Valid, Budgeted;
  }

  lemma {:induction false} YieldAllKeeps(c: Config, e: Env, w: World, ns: seq<Name>)
    requires w.Of(c) && Table(w) && KidsOk(c, w)
    requires forall n :: n in ns ==> n in c.children && Owns(w.kids[n])
    ensures var r := YieldAll(c, e, w, ns);
      && r.Of(c) && Table(r) && KidsOk(c, r)
      && forall n :: n in ns ==> Aside(r.kids[n])
    decreases |ns|
  {
    hide Table, KidsOk, Config.Valid, YieldOne, Owns, Up;
    if ns != [] {
      var last, init := ns[|ns| - 1], ns[..|ns| - 1];
      YieldOneKeeps(c, e, w, last);
      var w1 := YieldOne(c, e, w, last);
      YieldAllKeeps(c, e, w1, init);
      assert last !in init ==> YieldAll(c, e, w1, init).kids[last] == w1.kids[last];
    }
  }

  /** After a death and its cascade nobody relies on the dead child. */
  lemma CascadeSafe(c: Config, e: Env, w: World, w1: World, n: Name)
    requires w.Of(c) && w1.Of(c) && DepSafe(c, w) && n in c.children
    requires Table(w1) && KidsOk(c, w1) && OthersOwn(w1, n)
    requires forall m :: m in w.kids && m != n ==> w1.kids[m] == w.kids[m]
    requires Up(w.kids[n])
    ensures var w2 := YieldAll(c, e, w1, Dependents(c, n));
      Sound(c, w2) && OthersOwn(w2, n) && w2.kids[n] == w1.kids[n]
  {
    hide Table, KidsOk, Config.Valid, YieldAll, Dependents;
    var out := Dependents(c, n);
    YieldAllKeeps(c, e, w1, out);
    var w2 := YieldAll(c, e, w1, out);
    forall y, d | y in c.children && d in c.Deps(y) && Up(w2.kids[y])
      ensures d in c.children && Reliable(c.children[d], w2.kids[d])
    {
      if d == n || d in out {
        DependentsClosed(c, n, y, d);
      }
    }
  }

  // ---- feed ----

  lemma ReleaseKeepsSound(c: Config, w: World, n: Name)
    requires Sound(c, w) && n in c.children
    ensures Sound(c, Release(w, n))
  {
    hide Config.Valid, KidOk, Budgeted;
    ReleaseKeepsTable(w, n);
    KidsSame(c, w, Release(w, n));
    LocalChangeSafe(c, w, Release(w, n), n);
  }

  lemma EveryoneOwns(c: Config, w: World, n: Name)
    requires Sound(c, w) && n in c.children && OthersOwn(w, n) && Owns(w.kids[n])
    ensures Inv(c, w)
  {
    hide Config.Valid, Table, KidsOk, DepSafe;
  }

  /** The outcomes of a fatal event in a live phase. */
  lemma StepOnDeath(spec: ChildSpec, st: ChildState, ev: Event, now: int)
    requires st.phase.Live() && IsDeath(ev) && Applies(st.phase, ev)
    ensures Step(spec, st, ev, now) ==
      if ev == ExitedOk && spec.oneshot then (ChildState(Stopped, 0, now, st.resumeAt, 0), NoAction)
      else Died(spec.policy, st, now, ev != HealthLost)
  {
  }

  /** START_TIMEOUT counts while starting, HEALTH_LOST while running. */
  predicate Applies(phase: Phase, ev: Event) {
    (ev == StartTimeout ==> phase == Starting) && (ev == HealthLost ==> phase == Running)
  }

  /** With the dead process gone (or still to be killed, if its health was lost), feeding the
      death leaves the whole table sound. */
  lemma DeathKeeps(c: Config, e: Env, w: World, n: Name, ev: Event)
    requires PacedAll(c) && Sound(c, w) && n in c.children && OthersOwn(w, n)
    requires w.Phase(n).Live() && IsDeath(ev) && Applies(w.Phase(n), ev)
    requires ev != HealthLost ==> w.kids[n].pid <= 0
    ensures Inv(c, Feed(c, e, w, n, ev))
  {
    hide Config.Valid, Table, KidOk, DepSafe, Step, YieldAll, Dependents, Delay, Owns;
    var (w1, a) := Moved(c, e, w, n, ev);
    var now := e.clock(w.clocks);
    StepOnDeath(c.children[n].spec, w.kids[n].state, ev, now);
    MovedKeeps(c, e, w, n, ev);
    if a == NoAction {
      OneshotDone(c, e, w, n);
    } else {
      CascadeSafe(c, e, w, w1, n);
      var w2 := YieldAll(c, e, w1, Dependents(c, n));
      if a.SpawnAt? {
        DelayAhead(c, w, n);
        DeadOwnsNothing(w2, n);
        EveryoneOwns(c, w2, n);
      } else {
        ReleaseKeepsSound(c, w2, n);
        ReleaseKeepsTable(w2, n);
        DeadOwnsNothing(Release(w2, n), n);
        EveryoneOwns(c, Release(w2, n), n);
      }
    }
  }

  lemma DeadOwnsNothing(w: World, n: Name)
    requires n in w.kids && w.kids[n].pid <= 0 && !w.Phase(n).Live()
    ensures Owns(w.kids[n])
  {
  }

  lemma DelayAhead(c: Config, w: World, n: Name)
    requires PacedAll(c) && w.Of(c) && KidsOk(c, w) && n in c.children && w.Phase(n).Live()
    ensures w.kids[n].state.restarts < c.children[n].spec.policy.maxRestarts ==>
            Delay(c.children[n].spec.policy, w.kids[n].state.step) > 0
  {
    if w.kids[n].state.restarts < c.children[n].spec.policy.maxRestarts {
      PacedDelay(c.children[n].spec.policy, w.kids[n].state);
    }
  }

  lemma OneshotDone(c: Config, e: Env, w: World, n: Name)
    requires Sound(c, w) && n in c.children && OthersOwn(w, n)
    requires w.Phase(n).Live() && c.children[n].spec.oneshot && w.kids[n].pid <= 0
    ensures Inv(c, Feed(c, e, w, n, ExitedOk))
  {
    hide Config.Valid, Table, KidOk, YieldAll, Dependents;
    MovedKeeps(c, e, w, n, ExitedOk);
    var w1 := Moved(c, e, w, n, ExitedOk).0;
    LocalChangeSafe(c, w, w1, n);
    EveryoneOwns(c, w1, n);
  }

  /** Events that confirm a child or reset its budget. */
  lemma ConfirmKeeps(c: Config, e: Env, w: World, n: Name, ev: Event)
    requires Inv(c, w) && n in c.children
    requires ev == AliveSeen || ev == HealthOk || ev == RunningStable || (ev == HealthLost && w.Phase(n) != Running)
    ensures Inv(c, Feed(c, e, w, n, ev))
  {
    hide Config.Valid, Table, KidOk, YieldAll, Dependents;
    MovedKeeps(c, e, w, n, ev);
    var w1 := Moved(c, e, w, n, ev).0;
    LocalChangeSafe(c, w, w1, n);
    EveryoneOwns(c, w1, n);
  }

  lemma StepOnSpawned(spec: ChildSpec, st: ChildState, now: int)
    ensures Step(spec, st, Spawned, now) == (if st.phase == Stopped then Entered(st, Starting, now) else st, NoAction)
  {
  }

  /** A spawn attempt for a child about to start: it ends owning its process, or dead. */
  lemma SpawnKeeps(c: Config, e: Env, w: World, n: Name)
    requires PacedAll(c) && Sound(c, w) && n in c.children && OthersOwn(w, n)
    requires w.kids[n].pid <= 0 && !w.kids[n].completed
    requires w.Phase(n) == Starting || (w.Phase(n) == Stopped && DepsRunning(c, w, n))
    ensures var r := Respawned(c, e, w, n);
      if e.spawns(w.tries) then Inv(c, r) else Inv(c, Feed(c, e, r, n, ExitedCrash))
  {
    hide Config.Valid, Table, KidOk, Step, Feed;
    MovedKeeps(c, e, w, n, Spawned);
    StepOnSpawned(c.children[n].spec, w.kids[n].state, e.clock(w.clocks));
    var w1 := Moved(c, e, w, n, Spawned).0;
    LocalChangeSafe(c, w, w1, n);
    SpawnKeepsTable(e, w1, n);
    var r := TrySpawn(e, w1, n);
    KidsSame(c, w1, r);
    LocalChangeSafe(c, w1, r, n);
    if e.spawns(w.tries) {
      EveryoneOwns(c, r, n);
    } else {
      DeathKeeps(c, e, r, n, ExitedCrash);
    }
  }

  lemma StepOnTick(spec: ChildSpec, st: ChildState, now: int)
    requires st.phase == Backoff
    ensures Step(spec, st, Tick, now) ==
            if now >= st.resumeAt then (Entered(st, Starting, now), SpawnAt(now)) else (st, NoAction)
  {
  }

  /** A due restart: although dependencies are not looked at again, they are still running. */
  lemma RestartKeeps(c: Config, e: Env, w: World, n: Name)
    requires PacedAll(c) && Inv(c, w) && n in c.children && w.Phase(n) == Backoff
    ensures Inv(c, Feed(c, e, w, n, Tick))
  {
    hide Config.Valid, Table, KidOk, Step, YieldAll, Dependents, Respawned, DepSafe;
    MovedKeeps(c, e, w, n, Tick);
    StepOnTick(c.children[n].spec, w.kids[n].state, e.clock(w.clocks));
    var w1 := Moved(c, e, w, n, Tick).0;
    LocalChangeSafe(c, w, w1, n);
    NotCompleted(c, w, n);
    if w1.Phase(n) == Starting {
      SpawnKeeps(c, e, w1, n);
    } else {
      EveryoneOwns(c, w1, n);
    }
  }

  lemma NotCompleted(c: Config, w: World, n: Name)
    requires w.Of(c) && KidsOk(c, w) && n in c.children && w.Phase(n) != Stopped
    ensures !w.kids[n].completed
  {
  }

  // ---- the tick and the activation ----

  lemma BringUpOneKeeps(c: Config, e: Env, w: World, n: Name)
    requires PacedAll(c) && Inv(c, w) && n in c.children
    ensures Inv(c, BringUpOne(c, e, w, n))
  {
    hide Config.Valid, Table, KidOk, DepSafe, Feed, Respawned;
    if w.Phase(n) == Stopped && !w.kids[n].completed && DepsRunning(c, w, n) {
      SpawnKeeps(c, e, w, n);
    }
  }

  lemma {:induction false} BringUpKeeps(c: Config, e: Env, w: World, k: nat)
    requires PacedAll(c) && Inv(c, w) && k <= |c.topo|
    ensures Inv(c, BringUp(c, e, w, k))
  {
    hide Table, KidsOk, DepSafe, BringUpOne;
    if k > 0 {
      BringUpKeeps(c, e, w, k - 1);
      BringUpOneKeeps(c, e, BringUp(c, e, w, k - 1), c.topo[k - 1]);
    }
  }

  /** Counters and the process of n aside, nothing changed. */
  lemma ReapedSound(c: Config, w: World, n: Name)
    requires Inv(c, w) && n in c.children
    ensures var r := Release(w.(waits := w.waits + 1), n);
      && Sound(c, r) && OthersOwn(r, n) && r.kids[n].pid <= 0
      && r.kids[n].state == w.kids[n].state && r.kids[n].completed == w.kids[n].completed
  {
    hide Config.Valid, KidsOk, DepSafe;
    CountersFree(c, w, w.clocks, w.waits + 1);
    ReleaseKeepsSound(c, w.(waits := w.waits + 1), n);
    ReleaseKeepsTable(w.(waits := w.waits + 1), n);
  }

  lemma CountersFree(c: Config, w: World, clocks: nat, waits: nat)
    requires Inv(c, w)
    ensures Inv(c, w.(clocks := clocks, waits := waits))
  {
    hide Config.Valid, KidOk, Up, Reliable;
  }

  lemma PollKeeps(c: Config, e: Env, w: World, n: Name, now: int)
    requires PacedAll(c) && Inv(c, w) && n in c.children
    ensures Inv(c, Poll(c, e, w, n, now).0)
  {
    hide Config.Valid, Table, KidsOk, DepSafe, Feed;
    if w.kids[n].pid > 0 {
      var w1 := w.(waits := w.waits + 1);
      CountersFree(c, w, w.clocks, w.waits + 1);
      ReapedSound(c, w, n);
      match e.wait(w.waits) {
        case Exited(ok) => DeathKeeps(c, e, Release(w1, n), n, if ok then ExitedOk else ExitedCrash);
        case Gone => DeathKeeps(c, e, Release(w1, n), n, ExitedCrash);
        case Failed =>
        case StillAlive =>
          ConfirmKeeps(c, e, w1, n, AliveSeen);
          ConfirmKeeps(c, e, w1, n, RunningStable);
      }
    }
  }

  lemma CheckBackoffKeeps(c: Config, e: Env, w: World, n: Name, now: int)
    requires PacedAll(c) && Inv(c, w) && n in c.children
    ensures Inv(c, CheckBackoff(c, e, w, n, now))
  {
    hide Config.Valid, Table, KidsOk, DepSafe, Feed;
    if w.Phase(n) == Backoff {
      RestartKeeps(c, e, w, n);
    }
  }

  lemma CheckTimeoutKeeps(c: Config, e: Env, w: World, n: Name, now: int)
    requires PacedAll(c) && Inv(c, w) && n in c.children
    ensures Inv(c, CheckTimeout(c, e, w, n, now))
  {
    hide Config.Valid, KidsOk, DepSafe, Feed;
    ReleaseKeepsSound(c, w, n);
    ReleaseKeepsTable(w, n);
    if w.Phase(n) == Starting {
      DeathKeeps(c, e, Release(w, n), n, StartTimeout);
    }
  }

  lemma VisitKeeps(c: Config, e: Env, w: World, n: Name, now: int)
    requires PacedAll(c) && Inv(c, w) && n in c.children
    ensures Inv(c, Visit(c, e, w, n, now))
  {
    hide Inv, Poll, CheckBackoff, CheckTimeout;
    InvIsOf(c, w);
    PollKeeps(c, e, w, n, now);
    var w1 := Poll(c, e, w, n, now).0;
    CheckBackoffKeeps(c, e, w1, n, now);
    CheckTimeoutKeeps(c, e, CheckBackoff(c, e, w1, n, now), n, now);
  }

  lemma InvIsOf(c: Config, w: World)
    requires Inv(c, w)
    ensures w.Of(c)
  {
  }

  lemma {:induction false} VisitAllKeeps(c: Config, e: Env, w: World, now: int, k: nat)
    requires PacedAll(c) && Inv(c, w) && k <= |c.order|
    ensures Inv(c, VisitAll(c, e, w, now, k))
  {
    hide Table, KidsOk, DepSafe, Visit;
    if k > 0 {
      VisitAllKeeps(c, e, w, now, k - 1);
      VisitKeeps(c, e, VisitAll(c, e, w, now, k - 1), c.order[k - 1], now);
    }
  }

  lemma TickKeeps(c: Config, e: Env, w: World)
    requires PacedAll(c) && Inv(c, w)
    ensures Inv(c, Ticked(c, e, w))
  {
    hide Table, KidsOk, DepSafe, VisitAll, BringUp;
    CountersFree(c, w, w.clocks + 1, w.waits);
    var w1 := w.(clocks := w.clocks + 1);
    VisitAllKeeps(c, e, w1, e.clock(w.clocks), |c.order|);
    BringUpKeeps(c, e, VisitAll(c, e, w1, e.clock(w.clocks), |c.order|), |c.topo|);
  }

  lemma ActivationKeeps(c: Config, e: Env)
    requires PacedAll(c) && c.Valid()
    ensures Inv(c, Activated(c, e))
  {
    BringUpKeeps(c, e, Initial(c), |c.topo|);
  }
}
