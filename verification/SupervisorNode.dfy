/** The supervisor node: the methods that work on the child table, step by step, and what
    each of them leaves behind. */
module SupervisorNode {
  import opened Sequences
  import opened SupervisorPolicy
  import opened SupervisorModel
  import opened SupervisorSafety
  import opened SupervisorRuns
  import opened HealthFeed
  import opened TopoOrder

  // ---- loading the declared children ----

  /** The table of an accepted declaration; order is the map's iteration order. */
  ghost function ConfigOf(specs: seq<ChildSpec>, gated: set<Name>, order: seq<Name>, topo: seq<Name>): Config {
    Config(map n | n in Names(specs) :: Child(specs[Index(Names(specs), n)], n in gated), order, topo)
  }

  /** A declaration that passes the graph check yields a valid configuration. */
  lemma LoadedIsValid(specs: seq<ChildSpec>, gated: set<Name>, order: seq<Name>, topo: seq<Name>)
    requires NoRepeats(Names(specs)) && Known(specs) && IsOrder(specs, topo)
    requires NoRepeats(order) && forall n :: n in order <==> n in Names(specs)
    ensures ConfigOf(specs, gated, order, topo).Valid()
  {
    var c := ConfigOf(specs, gated, order, topo);
    forall n, d | n in c.children && d in c.Deps(n)
      ensures d in c.children && Index(topo, d) < Index(topo, n)
    {
      var s := specs[Index(Names(specs), n)];
      assert s in specs && s.name == n && Needs(specs, n, d);
      var i := Index(topo, n);
      assert topo[i] == n;
      assert d in topo[..i];
      var j :| 0 <= j < i && topo[j] == d;
      assert Index(topo, d) == j;
    }
  }

  /** on_configure's verdict on the declared children and their command lines. */
  method LoadChildren(specs: seq<ChildSpec>, commands: seq<seq<string>>) returns (ok: bool, topo: seq<Name>)
    requires |commands| == |specs|
    ensures ok <==> WellFormed(specs) && forall i :: 0 <= i < |commands| ==> commands[i] != []
    ensures ok ==> IsOrder(specs, topo)
  {
    for i := 0 to |commands|
      invariant forall j :: 0 <= j < i ==> commands[j] != []
    {
      if commands[i] == [] { return false, []; }
    }
    topo := Topo(specs);
    if topo == [] && specs != [] {
      if WellFormed(specs) {
        OrderNonEmpty(specs, topo);
      }
      return false, topo;
    }
    ok := true;
    if specs == [] {
      NothingIsWellFormed();
    }
  }

  lemma OrderNonEmpty(specs: seq<ChildSpec>, order: seq<Name>)
    requires IsOrder(specs, order) && specs != []
    ensures order != []
  {
    var n := Names(specs)[0];
    assert n in Names(specs);
  }

  lemma NothingIsWellFormed()
    ensures WellFormed([])
  {
    forall c | |c| >= 2 && Chain([], c) ensures c[0] != c[|c| - 1] {
      assert ChainAt([], c, 0);
    }
  }

  class SupervisorNode {
    const config: Config
    /** The operating system's answers, used up by the counters below. */
    const env: Env
    var clocks: nat
    var waits: nat
    var tries: nat

    var children: map<Name, Kid>
    /** Processes started and neither killed nor reaped. */
    ghost var os: map<int, Name>

    ghost function State(): World
      reads this
    {
      World(children, os, clocks, waits, tries)
    }

    ghost predicate Ready()
      reads this
    {
      State().Of(config)
    }

    constructor (config: Config, env: Env)
      requires config.Valid()
      ensures Ready() && this.config == config && this.env == env && State() == Initial(config)
    {
      this.config, this.env := config, env;
      clocks, waits, tries := 0, 0, 0;
      children := map n | n in config.children :: Kid(INITIAL, -1, false);
      os := map[];
    }

    method NowNs() returns (now: int)
      modifies this`clocks
      ensures now == env.clock(old(clocks)) && clocks == old(clocks) + 1
    {
      now := env.clock(clocks);
      clocks := clocks + 1;
    }

    method WaitPid() returns (r: Wait)
      modifies this`waits
      ensures r == env.wait(old(waits)) && waits == old(waits) + 1
    {
      r := env.wait(waits);
      waits := waits + 1;
    }

    method SpawnChild(n: Name) returns (ok: bool)
      requires Ready() && n in children
      modifies this
      ensures Ready() && State() == TrySpawn(env, old(State()), n) && ok == env.spawns(old(tries))
    {
      ok := env.spawns(tries);
      tries := tries + 1;
      if ok {
        children := children[n := children[n].(pid := tries)];
        os := os[tries := n];
      }
    }

    method KillChild(n: Name)
      requires Ready() && n in children
      modifies this
      ensures Ready() && State() == Release(old(State()), n)
    {
      if children[n].pid <= 0 { return; }
      os := os - {children[n].pid};
      children := children[n := children[n].(pid := -1)];
    }

    method DepsAllRunning(n: Name) returns (all: bool)
      requires Ready() && n in children
      ensures all == DepsRunning(config, State(), n)
    {
      var deps := config.Deps(n);
      for i := 0 to |deps|
        invariant forall k :: 0 <= k < i ==> deps[k] in children && children[deps[k]].state.phase == Running
      {
        var d := deps[i];
        if d !in children || children[d].state.phase != Running {
          assert d in deps;
          return false;
        }
      }
      all := true;
    }

    method TransitiveDependents(name: Name) returns (out: seq<Name>)
      requires Ready()
      ensures out == Dependents(config, name)
    {
      var affected := {name};
      out := [];
      for i := 0 to |config.topo|
        invariant (affected, out) == Scan(config, name, i)
      {
        var n := config.topo[i];
        var hit := AnyDepIn(n, affected);
        if hit && n !in affected {
          affected := affected + {n};
          out := out + [n];
        }
      }
    }

    method AnyDepIn(n: Name, affected: set<Name>) returns (hit: bool)
      requires n in config.children
      ensures hit == DepHit(config, affected, n)
    {
      var deps := config.Deps(n);
      for i := 0 to |deps|
        invariant forall k :: 0 <= k < i ==> deps[k] !in affected
      {
        var d := deps[i];
        if d in affected {
          assert d in deps;
          return true;
        }
      }
      hit := false;
    }

    /** The dependents of name step aside, most downstream first. */
    method CascadeYield(name: Name)
      requires Ready() && name in children
      modifies this
      ensures Ready() && State() == YieldAll(config, env, old(State()), Dependents(config, name))
      decreases 1, 0
    {
      hide YieldOne, YieldAll, Dependents;
      var deps := TransitiveDependents(name);
      var i := |deps|;
      ghost var w0 := State();
      NoneYielded(config, env, w0, deps);
      while i > 0
        invariant 0 <= i <= |deps| && Ready() && Yielding(config, env, w0, deps, State(), i)
      {
        i := i - 1;
        YieldNext(config, env, w0, deps, State(), i);
        YieldChild(deps[i]);
      }
      AllYielded(config, env, w0, deps, State());
    }

    method YieldChild(n: Name)
      requires Ready() && n in children
      modifies this
      ensures Ready() && State() == YieldOne(config, env, old(State()), n)
      decreases 0, 2
    {
      hide Config.Valid, SupervisorModel.Feed, Step;
      ghost var w := State();
      children := children[n := children[n].(completed := false)];
      var phase := children[n].state.phase;
      if phase == Stopped || phase == Fatal { return; }
      YieldIsFeed(config, env, w, n);
      Feed(n, DepRestarting);
    }

    /** The transition, and the completion mark of a oneshot that finished. */
    method Move(n: Name, ev: Event) returns (now: int, a: Action)
      requires Ready() && n in children
      modifies this
      ensures Ready() && now == env.clock(old(clocks))
      ensures (State(), a) == Moved(config, env, old(State()), n, ev)
    {
      hide Config.Valid, Step;
      now := NowNs();
      var spec := config.children[n].spec;
      var st;
      st, a := Transition(spec, children[n].state, ev, now);
      children := children[n := children[n].(state := st)];
      if spec.oneshot && ev == ExitedOk && st.phase == Stopped {
        children := children[n := children[n].(completed := true)];
        assert children == old(children)[n := Kid(st, old(children)[n].pid, true)];
      }
    }

    /** The one entry to the state machine: transition, cascade, action. */
    method Feed(n: Name, ev: Event)
      requires Ready() && n in children
      modifies this
      ensures Ready() && State() == SupervisorModel.Feed(config, env, old(State()), n, ev)
      decreases Rank(children[n].state.phase, ev), 1
    {
      hide Config.Valid, YieldAll, Dependents;
      ghost var w := State();
      var before := children[n].state.phase;
      MoveRank(config, env, w, n, ev);
      var now, a := Move(n, ev);
      hide Moved;
      ghost var w1 := State();
      var after := children[n].state.phase;
      if before.Live() && (after == Backoff || after == Fatal) {
        CascadeYield(n);
      }
      assert State() == Cascaded(config, env, w1, n, before);
      match a {
        case SpawnAt(at) =>
          if at <= now {
            FeedSpawned(config, env, State(), n);
            Feed(n, Spawned);
            var ok := SpawnChild(n);
            if !ok {
              Feed(n, ExitedCrash);
            }
          }
        case Kill => KillChild(n);
        case MarkFatal => KillChild(n);
        case NoAction =>
      }
    }

    method TryBringUp()
      requires Ready()
      modifies this
      ensures Ready() && State() == BringUp(config, env, old(State()), |config.topo|)
    {
      hide BringUpOne;
      ghost var w0 := State();
      for i := 0 to |config.topo|
        invariant Ready() && State() == BringUp(config, env, w0, i)
      {
        var n := config.topo[i];
        assert n in config.topo;
        BringUpChild(n);
      }
    }

    method BringUpChild(n: Name)
      requires Ready() && n in children
      modifies this
      ensures Ready() && State() == BringUpOne(config, env, old(State()), n)
    {
      hide Config.Valid, SupervisorModel.Feed, Step, DepsRunning;
      if children[n].state.phase != Stopped || children[n].completed { return; }
      var ready := DepsAllRunning(n);
      if !ready { return; }
      FeedSpawned(config, env, State(), n);
      Feed(n, Spawned);
      var ok := SpawnChild(n);
      if !ok {
        Feed(n, ExitedCrash);
      }
    }

    /** Step 1 of a visit: what became of the process. */
    method PollChild(n: Name, now: int) returns (over: bool)
      requires Ready() && n in children
      modifies this
      ensures Ready() && (State(), over) == Poll(config, env, old(State()), n, now)
    {
      hide Config.Valid, SupervisorModel.Feed;
      over := false;
      if children[n].pid > 0 {
        var r := WaitPid();
        match r {
          case Exited(ok) =>
            Reap(n);
            Feed(n, if ok then ExitedOk else ExitedCrash);
            over := true;
          case StillAlive =>
            var st := children[n].state;
            if st.phase == Starting {
              if !config.children[n].gated {
                Feed(n, AliveSeen);
              }
            } else if st.phase == Running && now - st.since >= config.children[n].spec.policy.windowNs {
              Feed(n, RunningStable);
            }
          case Gone =>
            Reap(n);
            Feed(n, ExitedCrash);
            over := true;
          case Failed =>
        }
      }
    }

    /** The process is gone already; only the books are updated. */
    method Reap(n: Name)
      requires Ready() && n in children && children[n].pid > 0
      modifies this
      ensures Ready() && State() == Release(old(State()), n)
    {
      os := os - {children[n].pid};
      children := children[n := children[n].(pid := -1)];
    }

    method VisitChild(n: Name, now: int)
      requires Ready() && n in children
      modifies this
      ensures Ready() && State() == Visit(config, env, old(State()), n, now)
    {
      var over := PollChild(n, now);
      if over { return; }
      if children[n].state.phase == Backoff && now >= children[n].state.resumeAt {
        Feed(n, Tick);
      }
      if children[n].state.phase == Starting && children[n].pid > 0 &&
         now - children[n].state.since > config.children[n].spec.policy.startupTimeoutNs
      {
        KillChild(n);
        Feed(n, StartTimeout);
      }
    }

    method OnTick()
      requires Ready()
      modifies this
      ensures Ready() && State() == Ticked(config, env, old(State()))
    {
      hide Visit, BringUp;
      var now := NowNs();
      ghost var w1 := State();
      for i := 0 to |config.order|
        invariant Ready() && State() == VisitAll(config, env, w1, now, i)
      {
        var n := config.order[i];
        assert n in config.order;
        VisitChild(n, now);
      }
      TryBringUp();
    }

    /** The health feed's callback. */
    method OnHealth(s: Signal)
      requires Ready()
      modifies this
      ensures Ready() && State() == Signalled(config, env, old(State()), s)
    {
      if s.child !in children { return; }
      Feed(s.child, if s.alive then HealthOk else HealthLost);
    }

    /** One health report, from the subscription to the last callback. */
    method OnReport(feed: HealthFeed, items: seq<Item>)
      requires Ready() && feed.Valid()
      modifies this, feed
      ensures Ready() && feed.Valid() && feed.Map() == old(feed.Map())
      ensures System(State(), feed.views) ==
              Next(config, old(feed.Map()), env, old(System(State(), feed.views)), Report(items))
    {
      hide Config.Valid, Dispatched, Signalled;
      var out := feed.Dispatch(items);
      ghost var w0 := State();
      for i := 0 to |out|
        invariant Ready() && feed.Valid() && feed.Map() == old(feed.Map())
        invariant feed.views == Dispatched(old(feed.Map()), old(feed.views), items).0
        invariant Delivered(config, env, State(), out[i..]) == Delivered(config, env, w0, out)
      {
        assert out[i..][0] == out[i] && out[i..][1..] == out[i + 1..];
        OnHealth(out[i]);
      }
    }

    /** on_activate: the first scan does not wait for a tick. */
    method OnActivate()
      requires Ready() && State() == Initial(config)
      modifies this
      ensures Ready() && State() == Activated(config, env)
    {
      TryBringUp();
    }
  }

  ghost predicate InTable(c: Config, w: World, ns: seq<Name>) {
    forall n :: n in ns ==> n in w.kids && n in c.children
  }

  /** What is left of the cascade over ns from w is the first i of them from s. */
  ghost predicate Yielding(c: Config, e: Env, w: World, ns: seq<Name>, s: World, i: nat) {
    && i <= |ns| && InTable(c, w, ns) && InTable(c, s, ns)
    && InTable(c, s, ns[..i])
    && YieldAll(c, e, s, ns[..i]) == YieldAll(c, e, w, ns)
  }

  lemma NoneYielded(c: Config, e: Env, w: World, ns: seq<Name>)
    requires w.Of(c) && forall n :: n in ns ==> n in c.children
    ensures Yielding(c, e, w, ns, w, |ns|)
  {
    hide Config.Valid, YieldAll;
    assert ns[..|ns|] == ns;
  }

  lemma YieldNext(c: Config, e: Env, w: World, ns: seq<Name>, s: World, i: nat)
    requires s.Of(c) && i < |ns| && Yielding(c, e, w, ns, s, i + 1)
    ensures ns[i] in s.kids && ns[i] in c.children
    ensures Yielding(c, e, w, ns, YieldOne(c, e, s, ns[i]), i)
  {
    hide Config.Valid, YieldOne;
    var n := ns[i];
    assert n in ns;
    assert ns[..i + 1][..i] == ns[..i];
  }

  lemma AllYielded(c: Config, e: Env, w: World, ns: seq<Name>, s: World)
    requires Yielding(c, e, w, ns, s, 0)
    ensures s == YieldAll(c, e, w, ns)
  {
  }

  /** Only a death or a due restart leads to a nested event, and each is of higher rank. */
  lemma MoveRank(c: Config, e: Env, w: World, n: Name, ev: Event)
    requires w.Of(c) && n in c.children
    ensures var (w1, a) := Moved(c, e, w, n, ev);
      && (IsDeadSource(w.Phase(n), w1.Phase(n)) ==> Rank(w.Phase(n), ev) >= 1)
      && (a.SpawnAt? ==> Rank(w.Phase(n), ev) > Rank(w1.Phase(n), ExitedCrash) && w1.Phase(n) != Stopped)
  {
    hide Config.Valid;
  }

  lemma FeedSpawned(c: Config, e: Env, w: World, n: Name)
    requires w.Of(c) && n in c.children
    ensures SupervisorModel.Feed(c, e, w, n, Spawned) == Moved(c, e, w, n, Spawned).0
  {
    hide Config.Valid, Step, YieldAll, Dependents;
    StepOnSpawned(c.children[n].spec, w.kids[n].state, e.clock(w.clocks));
  }

  lemma YieldIsFeed(c: Config, e: Env, w: World, n: Name)
    requires w.Of(c) && n in c.children && w.Phase(n).Active()
    ensures YieldOne(c, e, w, n) ==
            SupervisorModel.Feed(c, e, w.Put(n, w.kids[n].(completed := false)), n, DepRestarting)
  {
    hide Config.Valid, Step, YieldAll, Dependents;
    StepAside(c.children[n].spec, w.kids[n].state, e.clock(w.clocks));
  }
}
