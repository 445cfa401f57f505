/** Whole runs: any sequence of timer ticks and health reports, in any environment. */
module SupervisorRuns {
  import opened Sequences
  import opened SupervisorPolicy
  import opened SupervisorModel
  import opened SupervisorSafety
  import opened SupervisorCascade
  import opened HealthFeed

  // ---- what no step undoes ----

  /** From a to b a child's state keeps FATAL and the budget, and if the child is gated it does
      not become running. */
  predicate KidOnward(child: Child, a: ChildState, b: ChildState) {
    && (a.phase == Fatal ==> b.phase == Fatal)
    && (child.gated && b.phase == Running ==> a.phase == Running)
    && (Budgeted(child.spec.policy, a) ==> Budgeted(child.spec.policy, b))
  }

  /** FATAL stays FATAL, budgets are kept, and only a health report makes a gated child running. */
  ghost predicate Onward(c: Config, w: World, r: World)
    requires w.Of(c) && r.Of(c)
  {
    forall m {:trigger r.kids[m]} :: m in c.children ==>
      KidOnward(c.children[m], w.kids[m].state, r.kids[m].state)
  }

  /** The events that the node feeds on its own account. */
  predicate Ordinary(child: Child, ev: Event) {
    ev != HealthOk && (ev == AliveSeen ==> !child.gated)
  }

  lemma StepOnward(spec: ChildSpec, st: ChildState, ev: Event, now: int)
    ensures var r := Step(spec, st, ev, now).0;
      && (st.phase == Fatal ==> r.phase == Fatal)
      && (r.phase == Running ==> st.phase == Running || ev == AliveSeen || ev == HealthOk)
      && (Budgeted(spec.policy, st) ==> Budgeted(spec.policy, r))
  {
    if Budgeted(spec.policy, st) {
      BudgetKept(spec, st, ev, now);
    }
  }

  lemma MovedOnward(c: Config, e: Env, w: World, n: Name, ev: Event)
    requires w.Of(c) && n in c.children && Ordinary(c.children[n], ev)
    ensures var r := Moved(c, e, w, n, ev).0;
      r.Of(c) && Onward(c, w, r)
  {
    hide Config.Valid, Step, Budgeted;
    StepOnward(c.children[n].spec, w.kids[n].state, ev, e.clock(w.clocks));
  }

  lemma OnwardTransitive(c: Config, a: World, b: World, d: World)
    requires a.Of(c) && b.Of(c) && d.Of(c) && Onward(c, a, b) && Onward(c, b, d)
    ensures Onward(c, a, d)
  {
    hide Config.Valid, Budgeted;
    forall m | m in c.children
      ensures KidOnward(c.children[m], a.kids[m].state, d.kids[m].state)
    {
      assert KidOnward(c.children[m], a.kids[m].state, b.kids[m].state);
    }
  }

  lemma SamePhasesOnward(c: Config, w: World, r: World)
    requires w.Of(c) && r.Of(c)
    requires forall m :: m in w.kids ==> r.kids[m].state == w.kids[m].state
    ensures Onward(c, w, r)
  {
    hide Config.Valid, Budgeted;
  }

  lemma YieldOneOnward(c: Config, e: Env, w: World, n: Name)
    requires w.Of(c) && n in c.children
    ensures YieldOne(c, e, w, n).Of(c) && Onward(c, w, YieldOne(c, e, w, n))
  {
    hide Config.Valid, Step;
    var w0 := w.Put(n, w.kids[n].(completed := false));
    SamePhasesOnward(c, w, w0);
    MovedOnward(c, e, w0, n, DepRestarting);
    var w1 := Moved(c, e, w0, n, DepRestarting).0;
    OnwardTransitive(c, w, w0, w1);
    SamePhasesOnward(c, w1, Release(w1, n));
    OnwardTransitive(c, w, w1, Release(w1, n));
  }

  lemma {:induction false} YieldAllOnward(c: Config, e: Env, w: World, ns: seq<Name>)
    requires w.Of(c) && forall n :: n in ns ==> n in c.children
    ensures YieldAll(c, e, w, ns).Of(c) && Onward(c, w, YieldAll(c, e, w, ns))
    decreases |ns|
  {
    hide Config.Valid, YieldOne, Onward;
    if ns == [] {
      SamePhasesOnward(c, w, w);
    } else {
      var last := ns[|ns| - 1];
      assert last in ns;
      YieldOneOnward(c, e, w, last);
      var w1 := YieldOne(c, e, w, last);
      YieldAllOnward(c, e, w1, ns[..|ns| - 1]);
      OnwardTransitive(c, w, w1, YieldAll(c, e, w1, ns[..|ns| - 1]));
    }
  }

  lemma CascadedOnward(c: Config, e: Env, w: World, n: Name, before: Phase)
    requires w.Of(c) && n in c.children
    ensures Cascaded(c, e, w, n, before).Of(c) && Onward(c, w, Cascaded(c, e, w, n, before))
  {
    hide Config.Valid, Onward, YieldAll, Dependents;
    YieldAllOnward(c, e, w, Dependents(c, n));
    SamePhasesOnward(c, w, w);
  }

  lemma RespawnedOnward(c: Config, e: Env, w: World, n: Name)
    requires w.Of(c) && n in c.children
    ensures Respawned(c, e, w, n).Of(c) && Onward(c, w, Respawned(c, e, w, n))
  {
    hide Config.Valid, Onward, Step;
    MovedOnward(c, e, w, n, Spawned);
    var w1 := Moved(c, e, w, n, Spawned).0;
    SamePhasesOnward(c, w1, TrySpawn(e, w1, n));
    OnwardTransitive(c, w, w1, TrySpawn(e, w1, n));
  }

  lemma {:induction false} FeedOnward(c: Config, e: Env, w: World, n: Name, ev: Event)
    requires w.Of(c) && n in c.children && Ordinary(c.children[n], ev)
    ensures Feed(c, e, w, n, ev).Of(c) && Onward(c, w, Feed(c, e, w, n, ev))
    decreases Rank(w.Phase(n), ev)
  {
    hide Config.Valid, Onward, Cascaded, Respawned;
    MovedOnward(c, e, w, n, ev);
    var (w1, a) := Moved(c, e, w, n, ev);
    CascadedOnward(c, e, w1, n, w.Phase(n));
    var w2 := Cascaded(c, e, w1, n, w.Phase(n));
    OnwardTransitive(c, w, w1, w2);
    if a.SpawnAt? && a.at <= e.clock(w.clocks) {
      RespawnedOnward(c, e, w2, n);
      var w3 := Respawned(c, e, w2, n);
      OnwardTransitive(c, w, w2, w3);
      if !e.spawns(w2.tries) {
        FeedOnward(c, e, w3, n, ExitedCrash);
        OnwardTransitive(c, w, w3, Feed(c, e, w3, n, ExitedCrash));
      }
    } else {
      SamePhasesOnward(c, w2, Release(w2, n));
      OnwardTransitive(c, w, w2, Release(w2, n));
    }
  }

  lemma BringUpOneOnward(c: Config, e: Env, w: World, n: Name)
    requires w.Of(c) && n in c.children
    ensures BringUpOne(c, e, w, n).Of(c) && Onward(c, w, BringUpOne(c, e, w, n))
  {
    hide Config.Valid, Onward, Respawned, Feed;
    SamePhasesOnward(c, w, w);
    RespawnedOnward(c, e, w, n);
    var w1 := Respawned(c, e, w, n);
    FeedOnward(c, e, w1, n, ExitedCrash);
    OnwardTransitive(c, w, w1, Feed(c, e, w1, n, ExitedCrash));
  }

  lemma {:induction false} BringUpOnward(c: Config, e: Env, w: World, k: nat)
    requires w.Of(c) && k <= |c.topo|
    ensures BringUp(c, e, w, k).Of(c) && Onward(c, w, BringUp(c, e, w, k))
  {
    hide Onward, BringUpOne;
    if k == 0 {
      SamePhasesOnward(c, w, w);
    } else {
      BringUpOnward(c, e, w, k - 1);
      BringUpOneOnward(c, e, BringUp(c, e, w, k - 1), c.topo[k - 1]);
      OnwardTransitive(c, w, BringUp(c, e, w, k - 1), BringUp(c, e, w, k));
    }
  }

  lemma ReleaseOnward(c: Config, w: World, n: Name, waits: nat)
    requires w.Of(c) && n in c.children
    ensures var r := Release(w.(waits := waits), n); r.Of(c) && Onward(c, w, r)
  {
    hide Config.Valid, Onward;
    SamePhasesOnward(c, w, Release(w.(waits := waits), n));
  }

  lemma PollOnward(c: Config, e: Env, w: World, n: Name, now: int)
    requires w.Of(c) && n in c.children
    ensures var r := Poll(c, e, w, n, now).0; r.Of(c) && Onward(c, w, r)
  {
    hide Config.Valid, Onward, Feed;
    SamePhasesOnward(c, w, w);
    if w.kids[n].pid > 0 {
      var w1 := w.(waits := w.waits + 1);
      SamePhasesOnward(c, w, w1);
      ReleaseOnward(c, w, n, w.waits + 1);
      match e.wait(w.waits) {
        case Exited(ok) => FeedAfterOnward(c, e, w, Release(w1, n), n, if ok then ExitedOk else ExitedCrash);
        case Gone => FeedAfterOnward(c, e, w, Release(w1, n), n, ExitedCrash);
        case Failed =>
        case StillAlive =>
          if !c.children[n].gated {
            FeedAfterOnward(c, e, w, w1, n, AliveSeen);
          }
          FeedAfterOnward(c, e, w, w1, n, RunningStable);
      }
    }
  }

  lemma FeedAfterOnward(c: Config, e: Env, w: World, w1: World, n: Name, ev: Event)
    requires w.Of(c) && w1.Of(c) && n in c.children && Ordinary(c.children[n], ev) && Onward(c, w, w1)
    ensures Onward(c, w, Feed(c, e, w1, n, ev))
  {
    hide Config.Valid, Onward, Feed;
    FeedOnward(c, e, w1, n, ev);
    OnwardTransitive(c, w, w1, Feed(c, e, w1, n, ev));
  }

  lemma VisitOnward(c: Config, e: Env, w: World, n: Name, now: int)
    requires w.Of(c) && n in c.children
    ensures Visit(c, e, w, n, now).Of(c) && Onward(c, w, Visit(c, e, w, n, now))
  {
    hide Config.Valid, Onward, Feed, Poll;
    PollOnward(c, e, w, n, now);
    var w1 := Poll(c, e, w, n, now).0;
    var w2 := CheckBackoff(c, e, w1, n, now);
    SamePhasesOnward(c, w1, w1);
    FeedOnward(c, e, w1, n, Tick);
    OnwardTransitive(c, w, w1, w2);
    var w3 := CheckTimeout(c, e, w2, n, now);
    SamePhasesOnward(c, w2, w2);
    ReleaseOnward(c, w2, n, w2.waits);
    assert w2.(waits := w2.waits) == w2;
    FeedAfterOnward(c, e, w2, Release(w2, n), n, StartTimeout);
    OnwardTransitive(c, w, w2, w3);
  }

  lemma {:induction false} VisitAllOnward(c: Config, e: Env, w: World, now: int, k: nat)
    requires w.Of(c) && k <= |c.order|
    ensures VisitAll(c, e, w, now, k).Of(c) && Onward(c, w, VisitAll(c, e, w, now, k))
  {
    hide Onward, Visit;
    if k == 0 {
      SamePhasesOnward(c, w, w);
    } else {
      VisitAllOnward(c, e, w, now, k - 1);
      VisitOnward(c, e, VisitAll(c, e, w, now, k - 1), c.order[k - 1], now);
      OnwardTransitive(c, w, VisitAll(c, e, w, now, k - 1), VisitAll(c, e, w, now, k));
    }
  }

  lemma TickOnward(c: Config, e: Env, w: World)
    requires w.Of(c)
    ensures Ticked(c, e, w).Of(c) && Onward(c, w, Ticked(c, e, w))
  {
    hide Config.Valid, Onward, VisitAll, BringUp;
    var w1 := w.(clocks := w.clocks + 1);
    SamePhasesOnward(c, w, w1);
    var w2 := VisitAll(c, e, w1, e.clock(w.clocks), |c.order|);
    VisitAllOnward(c, e, w1, e.clock(w.clocks), |c.order|);
    OnwardTransitive(c, w, w1, w2);
    BringUpOnward(c, e, w2, |c.topo|);
    OnwardTransitive(c, w, w2, Ticked(c, e, w));
  }

  // ---- health signals ----

  /** The callback of the health feed: signals for unknown children are dropped. */
  function Signalled(c: Config, e: Env, w: World, s: Signal): (r: World)
    requires w.Of(c)
    ensures r.kids.Keys == w.kids.Keys
  {
    if s.child in c.children then Feed(c, e, w, s.child, if s.alive then HealthOk else HealthLost) else w
  }

  function Delivered(c: Config, e: Env, w: World, out: seq<Signal>): (r: World)
    requires w.Of(c)
    ensures r.kids.Keys == w.kids.Keys
    decreases |out|
  {
    if out == [] then w else Delivered(c, e, Signalled(c, e, w, out[0]), out[1..])
  }

  lemma SignalKeeps(c: Config, e: Env, w: World, s: Signal)
    requires PacedAll(c) && Inv(c, w)
    ensures Inv(c, Signalled(c, e, w, s))
  {
    hide Config.Valid, Table, KidsOk, DepSafe, Feed;
    if s.child in c.children {
      if !s.alive && w.Phase(s.child) == Running {
        InvSound(c, w, s.child);
        DeathKeeps(c, e, w, s.child, HealthLost);
      } else {
        ConfirmKeeps(c, e, w, s.child, if s.alive then HealthOk else HealthLost);
      }
    }
  }

  lemma InvSound(c: Config, w: World, n: Name)
    requires Inv(c, w)
    ensures Sound(c, w) && OthersOwn(w, n)
  {
  }

  /** A confirmation changes the confirmed child only. */
  lemma HealthOkLocal(c: Config, e: Env, w: World, n: Name)
    requires w.Of(c) && n in c.children
    ensures var r := Feed(c, e, w, n, HealthOk);
      && (forall m :: m in w.kids && m != n ==> r.kids[m] == w.kids[m])
      && (w.Phase(n) == Fatal ==> r.Phase(n) == Fatal)
      && (var p := c.children[n].spec.policy; Budgeted(p, w.kids[n].state) ==> Budgeted(p, r.kids[n].state))
  {
    hide Config.Valid, YieldAll, Dependents, Budgeted, Delay;
    StepOnward(c.children[n].spec, w.kids[n].state, HealthOk, e.clock(w.clocks));
  }

  /** After a loss the child is not running. */
  lemma HealthLostStops(c: Config, e: Env, w: World, n: Name)
    requires w.Of(c) && n in c.children
    ensures Feed(c, e, w, n, HealthLost).Phase(n) != Running
  {
    hide Config.Valid, YieldAll, Dependents;
  }

  ghost predicate AllBudgeted(c: Config, w: World)
    requires w.Of(c)
  {
    forall m :: m in c.children ==> Budgeted(c.children[m].spec.policy, w.kids[m].state)
  }

  lemma OnwardBudgets(c: Config, w: World, r: World)
    requires w.Of(c) && r.Of(c) && Onward(c, w, r) && AllBudgeted(c, w)
    ensures AllBudgeted(c, r)
  {
    hide Config.Valid, Budgeted;
  }

  /** FATAL stays FATAL, budgets are kept, and nobody but the signalled child can have become
      running. */
  lemma SignalOnward(c: Config, e: Env, w: World, s: Signal)
    requires w.Of(c)
    ensures var r := Signalled(c, e, w, s);
      && r.Of(c)
      && (forall m :: m in c.children && w.Phase(m) == Fatal ==> r.Phase(m) == Fatal)
      && (AllBudgeted(c, w) ==> AllBudgeted(c, r))
      && (forall m :: m in c.children && c.children[m].gated && r.Phase(m) == Running ==>
            w.Phase(m) == Running || m == s.child)
      && (!s.alive && s.child in c.children ==> r.Phase(s.child) != Running)
  {
    hide Config.Valid, Feed, Budgeted;
    if s.child in c.children {
      if s.alive {
        HealthOkLocal(c, e, w, s.child);
      } else {
        FeedOnward(c, e, w, s.child, HealthLost);
        HealthLostStops(c, e, w, s.child);
      }
    }
  }

  // ---- the run ----

  datatype Input = TimerTick | Report(items: seq<Item>)

  datatype System = System(w: World, vs: Views)

  /** Health nodes are declared exactly for the gated children. */
  ghost predicate Wired(c: Config, m: Mapping) {
    && c.Valid() && m.Valid() && PacedAll(c)
    && (forall n :: n in m.nodes <==> n in c.children && c.children[n].gated)
    && (forall n :: n in m.nodes ==> m.nodes[n] != [])
  }

  function Next(c: Config, m: Mapping, e: Env, s: System, i: Input): (r: System)
    requires s.w.Of(c) && m.Valid() && s.vs.Keys == m.nodes.Keys
    ensures r.w.kids.Keys == s.w.kids.Keys && r.vs.Keys == s.vs.Keys
  {
    match i
    case TimerTick => System(Ticked(c, e, s.w), s.vs)
    case Report(items) =>
      var (vs, out) := Dispatched(m, s.vs, items);
      System(Delivered(c, e, s.w, out), vs)
  }

  function Run(c: Config, m: Mapping, e: Env, inputs: seq<Input>): (r: System)
    requires c.Valid() && m.Valid()
    ensures r.w.Of(c) && r.vs.Keys == m.nodes.Keys
  {
    if inputs == [] then System(Activated(c, e), Fresh(m))
    else Next(c, m, e, Run(c, m, e, inputs[..|inputs| - 1]), inputs[|inputs| - 1])
  }

  /** All items reported so far. */
  ghost function History(inputs: seq<Input>): seq<Item> {
    if inputs == [] then []
    else
      var last := inputs[|inputs| - 1];
      History(inputs[..|inputs| - 1]) + if last.Report? then last.items else []
  }

  /** A gated child runs only while its aggregate is alive. */
  ghost predicate Gated(c: Config, w: World, vs: Views)
    requires w.Of(c)
  {
    forall n :: n in c.children && c.children[n].gated && w.Phase(n) == Running ==> n in vs && vs[n].alive
  }

  /** Like Gated, while the losses of `out` are still to be delivered. */
  ghost predicate GatedBut(c: Config, w: World, vs: Views, out: seq<Signal>)
    requires w.Of(c)
  {
    forall n :: n in c.children && c.children[n].gated && w.Phase(n) == Running ==>
      n in vs && (vs[n].alive || Signal(n, false) in out)
  }

  ghost predicate Truthful(vs: Views, out: seq<Signal>) {
    forall s :: s in out ==> s.child in vs && s.alive == vs[s.child].alive
  }

  lemma {:induction false} DeliverKeeps(c: Config, e: Env, w: World, vs: Views, out: seq<Signal>)
    requires PacedAll(c) && Inv(c, w) && GatedBut(c, w, vs, out) && Truthful(vs, out)
    ensures Inv(c, Delivered(c, e, w, out)) && Gated(c, Delivered(c, e, w, out), vs)
    decreases |out|
  {
    hide Config.Valid, Table, KidsOk, DepSafe, Signalled;
    if out != [] {
      var s, w1 := out[0], Signalled(c, e, w, out[0]);
      assert s in out;
      SignalKeeps(c, e, w, s);
      SignalOnward(c, e, w, s);
      assert out == [s] + out[1..];
      assert GatedBut(c, w1, vs, out[1..]);
      DeliverKeeps(c, e, w1, vs, out[1..]);
    }
  }

  lemma {:induction false} DeliverFatal(c: Config, e: Env, w: World, out: seq<Signal>, n: Name)
    requires w.Of(c) && n in c.children && w.Phase(n) == Fatal
    ensures Delivered(c, e, w, out).Phase(n) == Fatal
    decreases |out|
  {
    hide Config.Valid, Signalled;
    if out != [] {
      SignalOnward(c, e, w, out[0]);
      DeliverFatal(c, e, Signalled(c, e, w, out[0]), out[1..], n);
    }
  }

  ghost predicate RunInv(c: Config, m: Mapping, s: System, history: seq<Item>)
    requires m.Valid()
  {
    && Inv(c, s.w)
    && Tracks(m, s.vs, history) && Sampled(m, s.vs, history)
    && Gated(c, s.w, s.vs)
  }

  lemma NextKeeps(c: Config, m: Mapping, e: Env, s: System, history: seq<Item>, i: Input)
    requires Wired(c, m) && RunInv(c, m, s, history)
    ensures RunInv(c, m, Next(c, m, e, s, i), history + if i.Report? then i.items else [])
  {
    hide Config.Valid, Inv, Tracks, Sampled, Ticked, Dispatched, Delivered;
    InvIsOf(c, s.w);
    TracksKeys(m, s.vs, history);
    match i {
      case TimerTick =>
        assert history + [] == history;
        TickKeeps(c, e, s.w);
        TickOnward(c, e, s.w);
      case Report(items) =>
        DispatchExact(m, s.vs, history, items);
        var (vs, out) := Dispatched(m, s.vs, items);
        SignalsTruthful(c, m, s, vs, out, history, items);
        DeliverKeeps(c, e, s.w, vs, out);
    }
  }

  lemma SignalsTruthful(c: Config, m: Mapping, s: System, vs: Views, out: seq<Signal>,
                        history: seq<Item>, items: seq<Item>)
    requires m.Valid() && s.w.Of(c) && s.vs.Keys == m.nodes.Keys == vs.Keys && Gated(c, s.w, s.vs)
    requires Sampled(m, s.vs, history) && Sampled(m, vs, history + items)
    requires forall n, b :: Signal(n, b) in out <==>
      n in m.nodes && Aggregate(m, history + items, n) == b && Aggregate(m, history, n) != b
    ensures Truthful(vs, out) && GatedBut(c, s.w, vs, out)
  {
    hide Aggregate, Config.Valid;
    forall x | x in out ensures x.child in vs && x.alive == vs[x.child].alive {
      assert Signal(x.child, x.alive) in out;
    }
  }

  /** The main invariant of every run in every environment: process ownership, restart
      budget, dependency order and health gate all hold after each input. */
  lemma {:induction false} RunKeeps(c: Config, m: Mapping, e: Env, inputs: seq<Input>)
    requires Wired(c, m)
    ensures RunInv(c, m, Run(c, m, e, inputs), History(inputs))
  {
    hide Next, RunInv, Activated;
    if inputs == [] {
      StartHolds(c, m, e);
    } else {
      RunKeeps(c, m, e, inputs[..|inputs| - 1]);
      NextKeeps(c, m, e, Run(c, m, e, inputs[..|inputs| - 1]), History(inputs[..|inputs| - 1]), inputs[|inputs| - 1]);
    }
  }

  lemma StartHolds(c: Config, m: Mapping, e: Env)
    requires Wired(c, m)
    ensures RunInv(c, m, System(Activated(c, e), Fresh(m)), [])
  {
    hide Inv, Tracks, Sampled, BringUp, Config.Valid;
    ActivationKeeps(c, e);
    FreshTracks(m);
    assert Initial(c).Of(c);
    BringUpOnward(c, e, Initial(c), |c.topo|);
  }

  // ---- what the invariant means for a reader ----

  /** Between inputs a child has a process exactly while STARTING or RUNNING, and never two. */
  lemma ProcessOwnership(c: Config, m: Mapping, e: Env, inputs: seq<Input>, n: Name)
    requires Wired(c, m) && n in c.children
    ensures var w := Run(c, m, e, inputs).w;
      && (w.Phase(n).Live() <==> exists p :: p in w.os && w.os[p] == n)
      && (forall p, q :: p in w.os && q in w.os && w.os[p] == n && w.os[q] == n ==> p == q)
  {
    hide Run;
    RunKeeps(c, m, e, inputs);
    var w := Run(c, m, e, inputs).w;
    assert Owns(w.kids[n]);
    assert w.kids[n].pid > 0 ==> w.kids[n].pid in w.os && w.os[w.kids[n].pid] == n;
  }

  /** A child that is starting, running or waiting to restart has every dependency running,
      save for oneshot dependencies, which may have completed instead. */
  lemma DependencySafety(c: Config, m: Mapping, e: Env, inputs: seq<Input>, n: Name, d: Name)
    requires Wired(c, m) && n in c.children && d in c.Deps(n)
    requires Run(c, m, e, inputs).w.Phase(n).Active()
    ensures var w := Run(c, m, e, inputs).w;
      && d in c.children
      && (w.Phase(d) == Running || (c.children[d].spec.oneshot && w.Phase(d) == Stopped && w.kids[d].completed))
  {
    hide Run, Config.Valid;
    RunKeeps(c, m, e, inputs);
    assert Up(Run(c, m, e, inputs).w.kids[n]);
  }

  lemma {:induction false} DeliverBudgets(c: Config, e: Env, w: World, out: seq<Signal>)
    requires w.Of(c) && AllBudgeted(c, w)
    ensures AllBudgeted(c, Delivered(c, e, w, out))
    decreases |out|
  {
    hide Config.Valid, Signalled, AllBudgeted;
    if out != [] {
      SignalOnward(c, e, w, out[0]);
      DeliverBudgets(c, e, Signalled(c, e, w, out[0]), out[1..]);
    }
  }

  lemma {:induction false} RunBudgets(c: Config, m: Mapping, e: Env, inputs: seq<Input>)
    requires c.Valid() && m.Valid()
    ensures AllBudgeted(c, Run(c, m, e, inputs).w)
  {
    hide Config.Valid, Ticked, Dispatched, Delivered, BringUp, Onward;
    if inputs == [] {
      assert AllBudgeted(c, Initial(c));
      BringUpOnward(c, e, Initial(c), |c.topo|);
      OnwardBudgets(c, Initial(c), Activated(c, e));
    } else {
      RunBudgets(c, m, e, inputs[..|inputs| - 1]);
      var s := Run(c, m, e, inputs[..|inputs| - 1]);
      match inputs[|inputs| - 1] {
        case TimerTick =>
          TickOnward(c, e, s.w);
          OnwardBudgets(c, s.w, Ticked(c, e, s.w));
        case Report(items) => DeliverBudgets(c, e, s.w, Dispatched(m, s.vs, items).1);
      }
    }
  }

  /** For every policy: FATAL exactly when the budget is overspent; otherwise the step counts
      the restarts spent; a waiting child waits the delay of its last restart. */
  lemma BudgetHolds(c: Config, m: Mapping, e: Env, inputs: seq<Input>, n: Name)
    requires c.Valid() && m.Valid() && n in c.children
    ensures Budgeted(c.children[n].spec.policy, Run(c, m, e, inputs).w.kids[n].state)
  {
    hide Run, Config.Valid, Budgeted;
    RunBudgets(c, m, e, inputs);
  }

  /** After any run a waiting child that has spent k restarts since its last reset waits
      min(base * 2^(k-1), max), provided the base is at most the maximum. */
  lemma BackoffWaits(c: Config, m: Mapping, e: Env, inputs: seq<Input>, n: Name)
    requires c.Valid() && m.Valid() && n in c.children && Run(c, m, e, inputs).w.Phase(n) == Backoff
    ensures var p, st := c.children[n].spec.policy, Run(c, m, e, inputs).w.kids[n].state;
      && 0 < st.restarts <= p.maxRestarts
      && (p.backoffBaseNs <= p.backoffMaxNs ==>
            st.resumeAt - st.since == Min(Doubled(p.backoffBaseNs, st.restarts - 1), p.backoffMaxNs))
  {
    hide Run, Config.Valid, Doubled;
    BudgetHolds(c, m, e, inputs, n);
    DelayIff(c.children[n].spec.policy);
  }

  /** A gated child whose health stays OK while it is not running is never confirmed: no flip,
      no report, on any continuation. */
  lemma {:induction false} NeverConfirmed(c: Config, m: Mapping, e: Env, inputs: seq<Input>, more: seq<Input>, n: Name)
    requires c.Valid() && m.Valid() && n in c.children && c.children[n].gated
    requires n in m.nodes && m.nodes[n] != [] && (forall x :: x in m.nodes ==> m.nodes[x] != [])
    requires Run(c, m, e, inputs).w.Phase(n) != Running
    requires forall k :: 0 <= k <= |more| ==> Aggregate(m, History(inputs + more[..k]), n)
    ensures Run(c, m, e, inputs + more).w.Phase(n) != Running
    decreases |more|
  {
    hide Next, Config.Valid, Aggregate, History;
    if more == [] {
      assert inputs + more == inputs;
    } else {
      var init, last := more[..|more| - 1], more[|more| - 1];
      forall k | 0 <= k <= |init| ensures Aggregate(m, History(inputs + init[..k]), n) {
        assert init[..k] == more[..k];
      }
      NeverConfirmed(c, m, e, inputs, init, n);
      assert (inputs + more)[..|inputs + more| - 1] == inputs + init;
      assert more[..|init|] == init && more[..|more|] == more;
      HistoryNext(inputs + init, last);
      assert inputs + init + [last] == inputs + more;
      RunSampled(c, m, e, inputs + init);
      StepUnconfirmed(c, m, e, Run(c, m, e, inputs + init), History(inputs + init), last, n);
    }
  }

  lemma HistoryNext(inputs: seq<Input>, last: Input)
    ensures History(inputs + [last]) == History(inputs) + if last.Report? then last.items else []
  {
    assert (inputs + [last])[..|inputs + [last]| - 1] == inputs;
  }

  /** The views follow the reports whatever the supervisor does. */
  lemma {:induction false} RunSampled(c: Config, m: Mapping, e: Env, inputs: seq<Input>)
    requires c.Valid() && m.Valid() && forall x :: x in m.nodes ==> m.nodes[x] != []
    ensures Tracks(m, Run(c, m, e, inputs).vs, History(inputs)) && Sampled(m, Run(c, m, e, inputs).vs, History(inputs))
  {
    hide Config.Valid, Tracks, Sampled, Ticked, Dispatched, Delivered, Activated;
    if inputs == [] {
      FreshTracks(m);
    } else {
      var before, last := inputs[..|inputs| - 1], inputs[|inputs| - 1];
      RunSampled(c, m, e, before);
      match last {
        case TimerTick => assert History(before) + [] == History(before);
        case Report(items) => DispatchExact(m, Run(c, m, e, before).vs, History(before), items);
      }
    }
  }

  lemma StepUnconfirmed(c: Config, m: Mapping, e: Env, s: System, history: seq<Item>, i: Input, n: Name)
    requires s.w.Of(c) && m.Valid() && s.vs.Keys == m.nodes.Keys && n in m.nodes
    requires Tracks(m, s.vs, history) && Sampled(m, s.vs, history)
    requires n in c.children && c.children[n].gated && s.w.Phase(n) != Running
    requires Aggregate(m, history, n) && Aggregate(m, history + if i.Report? then i.items else [], n)
    ensures Next(c, m, e, s, i).w.Phase(n) != Running
  {
    hide Config.Valid, Tracks, Sampled, Ticked, Dispatched, Delivered, Aggregate;
    match i {
      case TimerTick => TickOnward(c, e, s.w);
      case Report(items) =>
        DispatchExact(m, s.vs, history, items);
        DeliverUnconfirmed(c, e, s.w, Dispatched(m, s.vs, items).1, n);
    }
  }

  lemma {:induction false} DeliverUnconfirmed(c: Config, e: Env, w: World, out: seq<Signal>, n: Name)
    requires w.Of(c) && n in c.children && c.children[n].gated && w.Phase(n) != Running
    requires forall b :: Signal(n, b) !in out
    ensures Delivered(c, e, w, out).Phase(n) != Running
    decreases |out|
  {
    hide Config.Valid, Signalled;
    if out != [] {
      var s := out[0];
      assert s in out && s == Signal(s.child, s.alive);
      SignalOnward(c, e, w, s);
      DeliverUnconfirmed(c, e, Signalled(c, e, w, s), out[1..], n);
    }
  }

  /** A gated child is running only while the latest verdict on each of its nodes is OK. */
  lemma GateHolds(c: Config, m: Mapping, e: Env, inputs: seq<Input>, n: Name)
    requires Wired(c, m) && n in c.children && c.children[n].gated
    ensures Run(c, m, e, inputs).w.Phase(n) == Running ==>
              Aggregate(m, History(inputs), n) && AllLatestOk(m, History(inputs), n)
  {
    hide Run, Latest;
    RunKeeps(c, m, e, inputs);
  }

  lemma NextFatal(c: Config, m: Mapping, e: Env, s: System, i: Input, n: Name)
    requires s.w.Of(c) && m.Valid() && s.vs.Keys == m.nodes.Keys
    requires n in c.children && s.w.Phase(n) == Fatal
    ensures Next(c, m, e, s, i).w.Phase(n) == Fatal
  {
    hide Config.Valid, Ticked, Dispatched, Delivered;
    match i {
      case TimerTick => TickOnward(c, e, s.w);
      case Report(items) => DeliverFatal(c, e, s.w, Dispatched(m, s.vs, items).1, n);
    }
  }

  lemma {:induction false} FatalStays(c: Config, m: Mapping, e: Env, inputs: seq<Input>, more: seq<Input>, n: Name)
    requires c.Valid() && m.Valid() && n in c.children && Run(c, m, e, inputs).w.Phase(n) == Fatal
    ensures Run(c, m, e, inputs + more).w.Phase(n) == Fatal
    decreases |more|
  {
    hide Next, Config.Valid;
    if more == [] {
      assert inputs + more == inputs;
    } else {
      var init := more[..|more| - 1];
      FatalStays(c, m, e, inputs, init, n);
      assert (inputs + more)[..|inputs + more| - 1] == inputs + init;
      NextFatal(c, m, e, Run(c, m, e, inputs + init), more[|more| - 1], n);
    }
  }

  /** A child that is up has nothing FATAL among all it depends on. */
  lemma {:induction false} UpNeedsAll(c: Config, w: World, p: seq<Name>)
    requires Inv(c, w) && |p| >= 2 && Links(c, p) && p[|p| - 1] in c.children
    requires p[0] in c.children && Up(w.kids[p[0]])
    ensures w.Phase(p[|p| - 1]) != Fatal
    decreases |p|
  {
    hide Config.Valid, Table, KidOk;
    assert LinkAt(c, p, 0);
    var m, d := p[0], p[1];
    assert d in c.Deps(m) && Reliable(c.children[d], w.kids[d]);
    if |p| > 2 {
      LinksTail(c, p);
      UpNeedsAll(c, w, p[1..]);
    }
  }

  /** Once a child is FATAL, no transitive dependent ever has a process again. */
  lemma FatalBlocks(c: Config, m: Mapping, e: Env, inputs: seq<Input>, more: seq<Input>, n: Name, x: Name)
    requires Wired(c, m) && n in c.children && x in c.children && DependsOn(c, x, n)
    requires Run(c, m, e, inputs).w.Phase(n) == Fatal
    ensures var w := Run(c, m, e, inputs + more).w;
      !w.Phase(x).Live() && forall p :: p in w.os ==> w.os[p] != x
  {
    hide Run, Config.Valid, KidsOk, DepSafe;
    FatalStays(c, m, e, inputs, more, n);
    RunKeeps(c, m, e, inputs + more);
    var w := Run(c, m, e, inputs + more).w;
    var p :| |p| >= 2 && p[0] == x && p[|p| - 1] == n && Links(c, p);
    if Up(w.kids[x]) {
      UpNeedsAll(c, w, p);
    }
    assert Owns(w.kids[x]);
  }

  // ---- when a backoff is over before it starts ----

  /** Feeding the crash of a reaped child leaves the table sound exactly if the child is over
      budget, or has a positive wait ahead, or the premature spawn fails. */
  lemma CrashSoundIff(c: Config, e: Env, w: World, n: Name)
    requires Sound(c, w) && n in c.children && OthersOwn(w, n)
    requires w.Phase(n).Live() && w.kids[n].pid <= 0
    ensures var p, st := c.children[n].spec.policy, w.kids[n].state;
      Inv(c, Feed(c, e, w, n, ExitedCrash)) <==>
        st.restarts + 1 > p.maxRestarts || Delay(p, st.step) > 0 || !e.spawns(w.tries)
  {
    hide Config.Valid, Table, KidOk, DepSafe, Step, YieldAll, Dependents, Delay, Owns;
    StepOnDeath(c.children[n].spec, w.kids[n].state, ExitedCrash, e.clock(w.clocks));
    MovedKeeps(c, e, w, n, ExitedCrash);
    var (w1, a) := Moved(c, e, w, n, ExitedCrash);
    CascadeSafe(c, e, w, w1, n);
    var w2 := YieldAll(c, e, w1, Dependents(c, n));
    CascadeSpawnsNothing(c, e, w1, Dependents(c, n));
    if a.SpawnAt? && a.at <= e.clock(w.clocks) {
      PrematureSpawn(c, e, w2, n);
    } else {
      DeadOwnsNothing(w2, n);
      EveryoneOwns(c, w2, n);
    }
  }

  lemma {:induction false} CascadeSpawnsNothing(c: Config, e: Env, w: World, ns: seq<Name>)
    requires forall n :: n in ns ==> n in w.kids && n in c.children
    ensures YieldAll(c, e, w, ns).tries == w.tries
    decreases |ns|
  {
    hide Step;
    if ns != [] {
      var last := ns[|ns| - 1];
      assert last in ns;
      CascadeSpawnsNothing(c, e, YieldOne(c, e, w, last), ns[..|ns| - 1]);
    }
  }

  lemma PrematureSpawn(c: Config, e: Env, w: World, n: Name)
    requires Sound(c, w) && n in c.children && OthersOwn(w, n)
    requires w.Phase(n) == Backoff && w.kids[n].pid <= 0
    ensures var r := Respawned(c, e, w, n);
      if e.spawns(w.tries) then !Inv(c, r) else Inv(c, Feed(c, e, r, n, ExitedCrash))
  {
    hide Config.Valid, Table, KidOk, Step, YieldAll, Dependents;
    NotCompleted(c, w, n);
    MovedKeeps(c, e, w, n, Spawned);
    StepOnSpawned(c.children[n].spec, w.kids[n].state, e.clock(w.clocks));
    var w1 := Moved(c, e, w, n, Spawned).0;
    SpawnKeepsTable(e, w1, n);
    var r := TrySpawn(e, w1, n);
    if e.spawns(w.tries) {
      assert !Owns(r.kids[n]);
    } else {
      IgnoredCrash(c, e, r, n);
      var r1 := Moved(c, e, r, n, ExitedCrash).0;
      KidsSame(c, w1, r);
      LocalChangeSafe(c, w, r, n);
      MovedKeeps(c, e, r, n, ExitedCrash);
      LocalChangeSafe(c, r, r1, n);
      EveryoneOwns(c, r1, n);
    }
  }

  lemma IgnoredCrash(c: Config, e: Env, w: World, n: Name)
    requires w.Of(c) && n in c.children && w.Phase(n) == Backoff
    ensures Feed(c, e, w, n, ExitedCrash) == Moved(c, e, w, n, ExitedCrash).0
    ensures Moved(c, e, w, n, ExitedCrash).0.kids[n].state == w.kids[n].state
    ensures Moved(c, e, w, n, ExitedCrash).0.kids[n].completed == w.kids[n].completed
  {
    hide Config.Valid, YieldAll, Dependents;
  }

  /** And from there the due restart gives the child a second process beside the first. */
  lemma SecondProcess(c: Config, e: Env, w: World, n: Name)
    requires w.Of(c) && Table(w) && n in c.children
    requires w.Phase(n) == Backoff && w.kids[n].pid > 0
    requires e.clock(w.clocks) >= w.kids[n].state.resumeAt && e.spawns(w.tries)
    ensures var r := Feed(c, e, w, n, Tick);
      exists p, q :: p != q && p in r.os && q in r.os && r.os[p] == n && r.os[q] == n
  {
    hide Config.Valid, Feed;
    DueRestart(c, e, w, n);
    var r := Feed(c, e, w, n, Tick);
    assert w.kids[n].pid in r.os && w.tries + 1 in r.os && w.kids[n].pid <= w.tries;
  }

  lemma DueRestart(c: Config, e: Env, w: World, n: Name)
    requires w.Of(c) && n in c.children && w.Phase(n) == Backoff
    requires e.clock(w.clocks) >= w.kids[n].state.resumeAt && e.spawns(w.tries)
    ensures Feed(c, e, w, n, Tick).os == w.os[w.tries + 1 := n]
  {
    hide Config.Valid, YieldAll, Dependents, Step;
    StepOnTick(c.children[n].spec, w.kids[n].state, e.clock(w.clocks));
  }

  // ---- the unpaced policy, from the very first step ----

  /** A first spawn that fails, every later one succeeding. */
  function Stumbling(): Env {
    Env(k => 0, k => StillAlive, k => k > 0)
  }

  predicate WaitsWithProcess(w: World, n: Name) {
    n in w.kids && w.Phase(n) == Backoff && w.kids[n].pid > 0 && w.tries > 0
  }

  lemma DepsEarlier(c: Config, n: Name, d: Name)
    requires c.Valid() && n in c.children && d in c.Deps(n)
    ensures d in c.topo && n in c.topo && Index(c.topo, d) < Index(c.topo, n)
  {
  }

  lemma FirstInOrder(c: Config)
    requires c.Valid() && c.topo != []
    ensures c.topo[0] in c.topo && c.topo[0] in c.children && Index(c.topo, c.topo[0]) == 0
  {
    var n := c.topo[0];
    assert n in c.topo;
  }

  lemma FirstNeedsNothing(c: Config)
    requires c.Valid() && c.topo != []
    ensures c.topo[0] in c.children && c.Deps(c.topo[0]) == []
  {
    hide Config.Valid;
    FirstInOrder(c);
    var ds := c.Deps(c.topo[0]);
    if ds != [] {
      var d := ds[0];
      assert d in ds;
      DepsEarlier(c, c.topo[0], d);
    }
  }

  lemma FirstBringUpStumbles(c: Config, n: Name)
    requires c.Valid() && c.topo != [] && n == c.topo[0]
    requires c.children[n].spec.policy.maxRestarts > 0 && c.children[n].spec.policy.backoffBaseNs <= 0
    ensures WaitsWithProcess(BringUpOne(c, Stumbling(), Initial(c), n), n)
  {
    hide YieldAll, Dependents;
    var e, w := Stumbling(), Initial(c);
    FirstNeedsNothing(c);
    var w1 := Respawned(c, e, w, n);
    var w2 := Moved(c, e, w1, n, ExitedCrash).0;
    assert w2.Phase(n) == Backoff && w2.tries == 1;
    CascadeSpawnsNothing(c, e, w2, Dependents(c, n));
    var w3 := Cascaded(c, e, w2, n, Starting);
    assert w3.tries == 1 && Feed(c, e, w1, n, ExitedCrash) == Respawned(c, e, w3, n);
  }

  lemma {:induction false} StumbleStays(c: Config, k: nat)
    requires c.Valid() && 0 < k <= |c.topo|
    requires WaitsWithProcess(BringUpOne(c, Stumbling(), Initial(c), c.topo[0]), c.topo[0])
    ensures WaitsWithProcess(BringUp(c, Stumbling(), Initial(c), k), c.topo[0])
  {
    hide Feed, Config.Valid;
    var e, w := Stumbling(), Initial(c);
    if k == 1 {
      assert BringUp(c, e, w, 0) == w;
    } else {
      StumbleStays(c, k - 1);
    }
  }

  /** With a backoff base of zero or less for the first child in dependency order, the node
      breaks process ownership during activation already, in some environment: the child is
      left waiting to restart and owning a process. */
  lemma UnpacedActivation(c: Config)
    requires c.Valid() && c.topo != []
    requires c.topo[0] in c.children
    requires var p := c.children[c.topo[0]].spec.policy; p.maxRestarts > 0 && p.backoffBaseNs <= 0
    ensures exists e: Env {:trigger Activated(c, e)} :: !Inv(c, Activated(c, e))
  {
    hide Config.Valid, BringUp, BringUpOne;
    FirstBringUpStumbles(c, c.topo[0]);
    StumbleStays(c, |c.topo|);
    var e := Stumbling();
    var w := Activated(c, e);
    assert WaitsWithProcess(w, c.topo[0]);
    assert !Owns(w.kids[c.topo[0]]);
    assert !Inv(c, Activated(c, e));
  }
}
