/** When exactly a health-gated child is confirmed, and what becomes of a healthy one that is not. */
module SupervisorConfirmation {
  import opened Sequences
  import opened SupervisorPolicy
  import opened SupervisorModel
  import opened SupervisorSafety
  import opened SupervisorCascade
  import opened SupervisorRuns
  import opened SupervisorOneshots
  import opened HealthFeed

  // ---- one report ----

  /** Whoever depends on a dependent is a dependent. */
  lemma {:induction false} LinksInto(c: Config, x: Name, p: seq<Name>)
    requires c.Valid() && x in c.children && |p| >= 1 && Links(c, p) && p[|p| - 1] in Dependents(c, x)
    ensures p[0] in Dependents(c, x)
    decreases |p|
  {
    hide Config.Valid, Dependents;
    if |p| > 1 {
      assert LinkAt(c, p, 0);
      LinksTail(c, p);
      LinksInto(c, x, p[1..]);
      DependentsClosed(c, x, p[0], p[1]);
    }
  }

  lemma DependentsTransitive(c: Config, x: Name, y: Name, n: Name)
    requires c.Valid() && x in c.children && y in c.children
    requires y in Dependents(c, x) && n in Dependents(c, y)
    ensures n in Dependents(c, x)
  {
    hide Dependents, Config.Valid;
    DependentsExact(c, y, n);
    var p :| |p| >= 2 && p[0] == n && p[|p| - 1] == y && Links(c, p);
    LinksInto(c, x, p);
  }

  /** A loss that is still to be delivered will pull n down: that of a running child n depends on. */
  ghost predicate Doomed(c: Config, w: World, out: seq<Signal>, n: Name)
    requires w.Of(c)
  {
    exists x {:trigger Signal(x, false)} ::
      x in c.children && w.Phase(x) == Running && Signal(x, false) in out && n in Dependents(c, x)
  }

  /** No child is reported alive and lost at once. */
  predicate Consistent(out: seq<Signal>) {
    forall s, t :: s in out && t in out && s.child == t.child ==> s.alive == t.alive
  }

  /** The children that are confirmed or were running, and are not pulled down. */
  ghost predicate Confirmed(c: Config, w: World, out: seq<Signal>, n: Name)
    requires w.Of(c) && n in c.children
  {
    && (w.Phase(n) == Running || (w.Phase(n) == Starting && Signal(n, true) in out))
    && !Doomed(c, w, out, n)
  }

  lemma StepOnHealthOk(spec: ChildSpec, st: ChildState, now: int)
    ensures Step(spec, st, HealthOk, now) ==
            if st.phase == Starting then (Entered(st, Running, now), NoAction) else (st, NoAction)
    ensures st.phase != Running ==> Step(spec, st, HealthLost, now) == (st, NoAction)
  {
  }

  lemma FoundAlive(c: Config, e: Env, w: World, n: Name)
    requires w.Of(c) && n in c.children
    ensures var r := Signalled(c, e, w, Signal(n, true));
      && r.Of(c) && (forall m :: m in w.kids && m != n ==> r.kids[m] == w.kids[m])
      && r.Phase(n) == if w.Phase(n) == Starting then Running else w.Phase(n)
  {
    hide Config.Valid, Step, YieldAll, Dependents;
    StepOnHealthOk(c.children[n].spec, w.kids[n].state, e.clock(w.clocks));
  }

  lemma LostInVain(c: Config, e: Env, w: World, n: Name)
    requires w.Of(c) && n in c.children && w.Phase(n) != Running
    ensures var r := Signalled(c, e, w, Signal(n, false));
      && r.Of(c) && forall m {:trigger r.kids[m]} :: m in w.kids ==>
           r.Phase(m) == w.Phase(m) && r.kids[m].completed == w.kids[m].completed
  {
    hide Config.Valid, Step, YieldAll, Dependents;
    StepOnHealthOk(c.children[n].spec, w.kids[n].state, e.clock(w.clocks));
  }

  /** A running child that is lost pulls down itself and its dependents, and nobody else. */
  lemma LostPullsDown(c: Config, e: Env, w: World, n: Name)
    requires w.Of(c) && n in c.children && w.Phase(n) == Running
    ensures var r := Signalled(c, e, w, Signal(n, false));
      && r.Of(c) && r.Phase(n) != Running && r.Phase(n) != Starting
      && (forall m :: m in w.kids && m != n && m !in Dependents(c, n) ==> r.kids[m] == w.kids[m])
      && (forall m :: m in Dependents(c, n) ==> Out(r.kids[m]))
  {
    hide Config.Valid, Step, YieldAll, Dependents, Delay;
    StepOnDeath(c.children[n].spec, w.kids[n].state, HealthLost, e.clock(w.clocks));
    var w1 := Moved(c, e, w, n, HealthLost).0;
    YieldAllOut(c, e, w1, Dependents(c, n));
    ReleaseAlone(c, YieldAll(c, e, w1, Dependents(c, n)), n);
  }

  lemma ConfirmedNone(c: Config, w: World, n: Name)
    requires w.Of(c) && n in c.children
    ensures Confirmed(c, w, [], n) <==> w.Phase(n) == Running
  {
  }

  /** Delivering one signal changes nothing about who will have been confirmed in the end. */
  lemma SignalConfirms(c: Config, e: Env, w: World, s: Signal, rest: seq<Signal>, n: Name)
    requires w.Of(c) && n in c.children && Consistent([s] + rest) && Signal(n, false) !in [s] + rest
    ensures var r := Signalled(c, e, w, s);
      r.Of(c) && (Confirmed(c, r, rest, n) <==> Confirmed(c, w, [s] + rest, n))
  {
    hide Config.Valid, Dependents, Feed;
    var out, r := [s] + rest, Signalled(c, e, w, s);
    assert s in out && forall t :: t in out <==> t == s || t in rest;
    if s.child !in c.children {
      assert r == w;
      SameDoom(c, w, r, s, rest, n);
    } else if s.alive {
      FoundAlive(c, e, w, s.child);
      assert s == Signal(s.child, true);
      SameDoom(c, w, r, s, rest, n);
    } else if w.Phase(s.child) != Running {
      LostInVain(c, e, w, s.child);
      assert s == Signal(s.child, false);
      SameDoom(c, w, r, s, rest, n);
    } else {
      assert s == Signal(s.child, false);
      LostPullsDown(c, e, w, s.child);
      if n in Dependents(c, s.child) {
        assert Out(r.kids[n]);
        assert Doomed(c, w, out, n);
      } else {
        DoomElsewhere(c, w, r, s, rest, n);
      }
    }
  }

  /** A signal that stops nobody leaves the doom of n as it is. */
  lemma SameDoom(c: Config, w: World, r: World, s: Signal, rest: seq<Signal>, n: Name)
    requires w.Of(c) && r.Of(c) && n in c.children && Consistent([s] + rest)
    requires forall x :: x in c.children && w.Phase(x) == Running ==> r.Phase(x) == Running
    requires forall x :: x in c.children && r.Phase(x) == Running ==> w.Phase(x) == Running || s == Signal(x, true)
    requires s.child in c.children && !s.alive ==> w.Phase(s.child) != Running
    ensures Doomed(c, r, rest, n) <==> Doomed(c, w, [s] + rest, n)
  {
    hide Config.Valid, Dependents;
    var out := [s] + rest;
    assert s in out && forall t :: t in out <==> t == s || t in rest;
    if Doomed(c, w, out, n) {
      var x :| x in c.children && w.Phase(x) == Running && Signal(x, false) in out && n in Dependents(c, x);
      assert Signal(x, false) in rest;
    }
    if Doomed(c, r, rest, n) {
      var x :| x in c.children && r.Phase(x) == Running && Signal(x, false) in rest && n in Dependents(c, x);
      assert Signal(x, false) in out;
    }
  }

  /** After the loss of a child that n does not depend on, the doom of n is as before. */
  lemma DoomElsewhere(c: Config, w: World, r: World, s: Signal, rest: seq<Signal>, n: Name)
    requires w.Of(c) && r.Of(c) && n in c.children && s.child in c.children && n !in Dependents(c, s.child)
    requires r.Phase(s.child) != Running
    requires forall m :: m in w.kids && m != s.child && m !in Dependents(c, s.child) ==> r.kids[m] == w.kids[m]
    requires forall m :: m in Dependents(c, s.child) ==> Out(r.kids[m])
    ensures Doomed(c, r, rest, n) <==> Doomed(c, w, [s] + rest, n)
  {
    hide Config.Valid, Dependents;
    var out := [s] + rest;
    assert s in out && forall t :: t in out <==> t == s || t in rest;
    if Doomed(c, w, out, n) {
      var x :| x in c.children && w.Phase(x) == Running && Signal(x, false) in out && n in Dependents(c, x);
      if x in Dependents(c, s.child) {
        DependentsTransitive(c, s.child, x, n);
      }
      assert Signal(x, false) in rest;
    }
    if Doomed(c, r, rest, n) {
      var x :| x in c.children && r.Phase(x) == Running && Signal(x, false) in rest && n in Dependents(c, x);
      assert Signal(x, false) in out;
    }
  }

  lemma {:induction false} DeliverConfirms(c: Config, e: Env, w: World, out: seq<Signal>, n: Name)
    requires w.Of(c) && n in c.children && Consistent(out) && Signal(n, false) !in out
    ensures Delivered(c, e, w, out).Phase(n) == Running <==> Confirmed(c, w, out, n)
    decreases |out|
  {
    hide Config.Valid, Signalled, Confirmed;
    if out == [] {
      ConfirmedNone(c, w, n);
    } else {
      var s, rest := out[0], out[1..];
      assert out == [s] + rest;
      SignalConfirms(c, e, w, s, rest, n);
      DeliverConfirms(c, e, Signalled(c, e, w, s), rest, n);
    }
  }

  // ---- one input ----

  /** The report flips n to alive, and every running child that n depends on stays alive if it was. */
  ghost predicate Flips(c: Config, m: Mapping, w: World, h: seq<Item>, items: seq<Item>, n: Name)
    requires w.Of(c) && m.Valid() && n in m.nodes
  {
    && !Aggregate(m, h, n) && Aggregate(m, h + items, n)
    && forall x {:trigger Aggregate(m, h, x)} ::
         x in m.nodes && x in c.children && w.Phase(x) == Running && n in Dependents(c, x) && Aggregate(m, h, x) ==>
           Aggregate(m, h + items, x)
  }

  lemma ReportConfirms(c: Config, m: Mapping, e: Env, s: System, h: seq<Item>, items: seq<Item>, n: Name)
    requires s.w.Of(c) && m.Valid() && s.vs.Keys == m.nodes.Keys && Tracks(m, s.vs, h) && Sampled(m, s.vs, h)
    requires n in c.children && n in m.nodes && s.w.Phase(n) != Running
    ensures Next(c, m, e, s, Report(items)).w.Phase(n) == Running <==>
            s.w.Phase(n) == Starting && Flips(c, m, s.w, h, items, n)
  {
    hide Config.Valid, Tracks, Sampled, Dispatched, Delivered, Aggregate, Dependents;
    DispatchExact(m, s.vs, h, items);
    var out := Dispatched(m, s.vs, items).1;
    forall a, b | a in out && b in out && a.child == b.child ensures a.alive == b.alive {
      assert Signal(a.child, a.alive) in out && Signal(b.child, b.alive) in out;
    }
    if Signal(n, false) in out {
      LostIsNotConfirmed(c, e, s.w, out, n);
    } else {
      DeliverConfirms(c, e, s.w, out, n);
      DoomIsLoss(c, m, s.w, h, items, out, n);
    }
  }

  lemma DoomIsLoss(c: Config, m: Mapping, w: World, h: seq<Item>, items: seq<Item>, out: seq<Signal>, n: Name)
    requires w.Of(c) && m.Valid() && n in c.children
    requires forall x, b :: Signal(x, b) in out <==>
               x in m.nodes && Aggregate(m, h + items, x) == b && Aggregate(m, h, x) != b
    ensures Doomed(c, w, out, n) <==>
            exists x {:trigger Aggregate(m, h, x)} ::
              x in m.nodes && x in c.children && w.Phase(x) == Running && n in Dependents(c, x) &&
              Aggregate(m, h, x) && !Aggregate(m, h + items, x)
  {
    hide Config.Valid, Aggregate, Dependents;
    if Doomed(c, w, out, n) {
      var x :| x in c.children && w.Phase(x) == Running && Signal(x, false) in out && n in Dependents(c, x);
      assert Aggregate(m, h, x);
    }
    forall x | x in m.nodes && x in c.children && w.Phase(x) == Running && n in Dependents(c, x) &&
               Aggregate(m, h, x) && !Aggregate(m, h + items, x)
      ensures Doomed(c, w, out, n)
    {
      assert Signal(x, false) in out;
    }
  }

  lemma {:induction false} LostIsNotConfirmed(c: Config, e: Env, w: World, out: seq<Signal>, n: Name)
    requires w.Of(c) && n in c.children && w.Phase(n) != Running && Signal(n, true) !in out
    ensures Delivered(c, e, w, out).Phase(n) != Running
    decreases |out|
  {
    hide Config.Valid, Signalled, Dependents;
    if out != [] {
      var s := out[0];
      assert s in out && s == Signal(s.child, s.alive);
      SignalNotConfirmed(c, e, w, s, n);
      LostIsNotConfirmed(c, e, Signalled(c, e, w, s), out[1..], n);
    }
  }

  lemma SignalNotConfirmed(c: Config, e: Env, w: World, s: Signal, n: Name)
    requires w.Of(c) && n in c.children && w.Phase(n) != Running && s != Signal(n, true)
    ensures Signalled(c, e, w, s).Of(c) && Signalled(c, e, w, s).Phase(n) != Running
  {
    hide Config.Valid, Dependents, Feed;
    if s.child in c.children {
      if s.alive {
        FoundAlive(c, e, w, s.child);
      } else if w.Phase(s.child) != Running {
        LostInVain(c, e, w, s.child);
      } else {
        LostPullsDown(c, e, w, s.child);
        assert n in Dependents(c, s.child) ==> Out(Signalled(c, e, w, s).kids[n]);
      }
    }
  }

  /** Over one input of any run a gated child that is not running becomes running exactly if it
      is starting, the input is a report that flips it to alive, and no running child it depends
      on is lost by the same report. */
  lemma ConfirmedIff(c: Config, m: Mapping, e: Env, inputs: seq<Input>, i: Input, n: Name)
    requires c.Valid() && m.Valid() && (forall x :: x in m.nodes ==> m.nodes[x] != [])
    requires n in c.children && c.children[n].gated && n in m.nodes
    requires Run(c, m, e, inputs).w.Phase(n) != Running
    ensures var w, h := Run(c, m, e, inputs).w, History(inputs);
      Run(c, m, e, inputs + [i]).w.Phase(n) == Running <==>
        i.Report? && w.Phase(n) == Starting && Flips(c, m, w, h, i.items, n)
  {
    RunNext(c, m, e, inputs, i);
    hide Config.Valid, Run, Ticked, Flips;
    RunSampled(c, m, e, inputs);
    var s := Run(c, m, e, inputs);
    match i {
      case TimerTick => TickOnward(c, e, s.w);
      case Report(items) => ReportConfirms(c, m, e, s, History(inputs), items, n);
    }
  }

  // ---- the completion mark of a oneshot, over one report ----

  lemma SignalMarks(c: Config, e: Env, w: World, s: Signal, rest: seq<Signal>, o: Name)
    requires w.Of(c) && o in c.children && w.Phase(o) == Stopped && Consistent([s] + rest)
    ensures var r := Signalled(c, e, w, s);
      && r.Of(c) && r.Phase(o) == Stopped
      && (r.kids[o].completed && !Doomed(c, r, rest, o) <==> w.kids[o].completed && !Doomed(c, w, [s] + rest, o))
  {
    hide Config.Valid, Dependents, Feed;
    var out, r := [s] + rest, Signalled(c, e, w, s);
    assert s in out && forall t :: t in out <==> t == s || t in rest;
    if s.child !in c.children {
      assert r == w;
      SameDoom(c, w, r, s, rest, o);
    } else if s.alive {
      if s.child == o {
        SignalIgnored(c, e, w, s);
      }
      FoundAlive(c, e, w, s.child);
      assert s == Signal(s.child, true);
      SameDoom(c, w, r, s, rest, o);
    } else if w.Phase(s.child) != Running {
      LostInVain(c, e, w, s.child);
      assert s == Signal(s.child, false);
      SameDoom(c, w, r, s, rest, o);
    } else {
      assert s == Signal(s.child, false);
      LostPullsDown(c, e, w, s.child);
      if o in Dependents(c, s.child) {
        assert Out(r.kids[o]);
        StoppedBeside(c, e, w, s, o);
        assert Doomed(c, w, out, o);
      } else {
        DoomElsewhere(c, w, r, s, rest, o);
      }
    }
  }

  lemma StoppedBeside(c: Config, e: Env, w: World, s: Signal, o: Name)
    requires w.Of(c) && o in c.children && s.child in c.children && s.child != o && w.Phase(o) == Stopped
    ensures Signalled(c, e, w, s).Of(c) && Signalled(c, e, w, s).Phase(o) == Stopped
  {
    hide Config.Valid, Feed;
    FeedEffect(c, e, w, s.child, if s.alive then HealthOk else HealthLost);
    assert Beside(w.kids[o], Signalled(c, e, w, s).kids[o]);
  }

  lemma {:induction false} DeliverMarks(c: Config, e: Env, w: World, out: seq<Signal>, o: Name)
    requires w.Of(c) && o in c.children && w.Phase(o) == Stopped && Consistent(out)
    ensures Delivered(c, e, w, out).kids[o].completed <==> w.kids[o].completed && !Doomed(c, w, out, o)
    decreases |out|
  {
    hide Config.Valid, Signalled, Dependents;
    if out != [] {
      var s, rest := out[0], out[1..];
      assert out == [s] + rest;
      SignalMarks(c, e, w, s, rest, o);
      DeliverMarks(c, e, Signalled(c, e, w, s), rest, o);
    }
  }

  /** Over one report of any run a completed oneshot keeps its mark exactly if no running child
      it depends on is lost by the report. */
  lemma MarkKeptIff(c: Config, m: Mapping, e: Env, inputs: seq<Input>, items: seq<Item>, o: Name)
    requires Wired(c, m) && o in c.children && Run(c, m, e, inputs).w.kids[o].completed
    ensures var w, h := Run(c, m, e, inputs).w, History(inputs);
      Run(c, m, e, inputs + [Report(items)]).w.kids[o].completed <==>
        forall x {:trigger Aggregate(m, h, x)} ::
          x in m.nodes && x in c.children && w.Phase(x) == Running && o in Dependents(c, x) && Aggregate(m, h, x) ==>
            Aggregate(m, h + items, x)
  {
    RunNext(c, m, e, inputs, Report(items));
    RunKeeps(c, m, e, inputs);
    hide Config.Valid, Run, Dispatched, Delivered, Aggregate, Dependents, Inv, Tracks, Sampled;
    var s, h := Run(c, m, e, inputs), History(inputs);
    RunInvInv(c, m, s, h);
    KidFacts(c, s.w, o);
    RunSampled(c, m, e, inputs);
    DispatchExact(m, s.vs, h, items);
    var out := Dispatched(m, s.vs, items).1;
    forall a, b | a in out && b in out && a.child == b.child ensures a.alive == b.alive {
      assert Signal(a.child, a.alive) in out && Signal(b.child, b.alive) in out;
    }
    DeliverMarks(c, e, s.w, out, o);
    DoomIsLoss(c, m, s.w, h, items, out, o);
  }

  // ---- a healthy child that is never confirmed ----

  /** One gated child and its one health node; clock readings are g apart, the first spawn fails. */
  function Lone(p: RestartPolicy): Config {
    Config(map[0 := Child(ChildSpec(0, [], false, p), true)], [0], [0])
  }

  function LoneFeed(): Mapping {
    Mapping(map[0 := [0]], map[0 := 0])
  }

  function FirstFails(g: int): Env {
    Env(k => k * g, k => StillAlive, k => k > 0)
  }

  /** Clock readings are further apart than any wait of the policy. */
  predicate Ample(p: RestartPolicy, g: int) {
    0 < p.backoffBaseNs <= g && 0 < p.backoffMaxNs <= g && 0 <= p.startupTimeoutNs < g
  }

  lemma LoneIsValid(p: RestartPolicy)
    ensures Lone(p).Valid() && LoneFeed().Valid() && Paced(p) ==> Wired(Lone(p), LoneFeed())
    ensures Lone(p).Valid() && LoneFeed().Valid()
  {
    var t := Lone(p).topo;
    assert t[0] == 0;
    assert 0 in t;
  }

  lemma LoneSteps(p: RestartPolicy, g: int, w: World, now: int)
    requires w.Of(Lone(p))
    ensures BringUp(Lone(p), FirstFails(g), w, 1) == BringUpOne(Lone(p), FirstFails(g), w, 0)
    ensures VisitAll(Lone(p), FirstFails(g), w, now, 1) == Visit(Lone(p), FirstFails(g), w, 0, now)
  {
    hide Config.Valid, BringUpOne, Visit;
    assert BringUp(Lone(p), FirstFails(g), w, 0) == w;
    assert VisitAll(Lone(p), FirstFails(g), w, now, 0) == w;
  }

  /** Waiting for the restart, which is due at the next reading of the clock. */
  ghost predicate Due(p: RestartPolicy, g: int, w: World) {
    w.Of(Lone(p)) && w.tries > 0 &&
    var kid := w.kids[0];
    kid.state.phase == Backoff && kid.pid <= 0 && !kid.completed && Budgeted(p, kid.state) &&
    kid.state.resumeAt <= w.clocks * g
  }

  /** Started, and over its start timeout at the next reading of the clock. */
  ghost predicate Hung(p: RestartPolicy, g: int, w: World) {
    w.Of(Lone(p)) && w.tries > 0 &&
    var kid := w.kids[0];
    kid.state.phase == Starting && kid.pid > 0 && !kid.completed && Budgeted(p, kid.state) &&
    w.clocks * g - kid.state.since > p.startupTimeoutNs
  }

  lemma Readings(j: nat, k: nat, g: int)
    requires g > 0
    ensures j < k ==> j * g + g <= k * g
    ensures j <= k ==> j * g <= k * g
  {
    if j < k {
      assert (k - j - 1) * g >= 0;
    }
  }

  lemma DelayBound(p: RestartPolicy, g: int, step: int)
    requires Ample(p, g) && step >= 0
    ensures 0 < Delay(p, step) <= g
  {
    DoubledMonotone(p.backoffBaseNs, 0, step);
  }

  lemma NoDependents(p: RestartPolicy, e: Env, w: World)
    requires w.Of(Lone(p))
    ensures YieldAll(Lone(p), e, w, Dependents(Lone(p), 0)) == w
  {
    var c := Lone(p);
    forall m ensures m !in Dependents(c, 0) {
      if m in Dependents(c, 0) {
        DependentHit(c, 0, m);
      }
    }
    NoMembers(Dependents(c, 0));
  }

  lemma NoMembers(s: seq<Name>)
    ensures s == [] <==> forall d :: d !in s
  {
    if s != [] {
      var d := s[0];
      assert d in s;
    }
  }

  /** What a death of the child leaves: out for good, or waiting for less than a reading. */
  lemma LoneDeath(p: RestartPolicy, g: int, w: World, ev: Event)
    requires w.Of(Lone(p)) && Ample(p, g) && w.tries > 0 && (ev == ExitedCrash || ev == StartTimeout)
    requires w.Phase(0) == Starting && w.kids[0].pid <= 0 && !w.kids[0].completed && Budgeted(p, w.kids[0].state)
    ensures var r, n := Feed(Lone(p), FirstFails(g), w, 0, ev), w.kids[0].state.restarts;
      && r.Of(Lone(p)) && r.clocks == w.clocks + 1 && r.kids[0].state.restarts == n + 1
      && if n + 1 > p.maxRestarts then r.Phase(0) == Fatal else Due(p, g, r)
  {
    hide Config.Valid, Step, YieldAll, Dependents, Delay, Budgeted;
    var c, e, st, now := Lone(p), FirstFails(g), w.kids[0].state, w.clocks * g;
    StepOnDeath(c.children[0].spec, st, ev, now);
    BudgetKept(c.children[0].spec, st, ev, now);
    BudgetStep(p, st);
    DelayBound(p, g, st.step);
    Readings(w.clocks, w.clocks + 1, g);
    var w1 := Moved(c, e, w, 0, ev).0;
    NoDependents(p, e, w1);
  }

  lemma BudgetStep(p: RestartPolicy, st: ChildState)
    requires Budgeted(p, st) && st.phase != Fatal
    ensures st.step == st.restarts >= 0
  {
  }

  lemma LoneBringUp(p: RestartPolicy, g: int, w: World)
    requires w.Of(Lone(p)) && w.Phase(0) != Stopped
    ensures BringUp(Lone(p), FirstFails(g), w, 1) == w
  {
    LoneSteps(p, g, w, 0);
  }

  /** A tick starts the waiting child. */
  lemma TickStarts(p: RestartPolicy, g: int, w: World)
    requires Ample(p, g) && Due(p, g, w)
    ensures var r := Ticked(Lone(p), FirstFails(g), w);
      Hung(p, g, r) && r.kids[0].state.restarts == w.kids[0].state.restarts
  {
    hide Config.Valid, Step, BringUp, VisitAll, Budgeted, YieldAll, Dependents;
    var c, e, now := Lone(p), FirstFails(g), w.clocks * g;
    var w1 := w.(clocks := w.clocks + 1);
    LoneSteps(p, g, w1, now);
    Readings(w.clocks, w.clocks + 1, g);
    StepOnTick(c.children[0].spec, w1.kids[0].state, e.clock(w1.clocks));
    StepOnSpawned(c.children[0].spec, w1.kids[0].state, e.clock(w1.clocks));
    LoneRestart(p, g, w1);
    var w2 := Feed(c, e, w1, 0, Tick);
    Readings(w2.clocks - 2, w2.clocks, g);
    Readings(w.clocks, w2.clocks - 2, g);
    assert Visit(c, e, w1, 0, now) == w2;
    LoneBringUp(p, g, w2);
  }

  /** The due restart, its spawn succeeding. */
  lemma LoneRestart(p: RestartPolicy, g: int, w: World)
    requires w.Of(Lone(p)) && w.tries > 0
    requires w.Phase(0) == Backoff && !w.kids[0].completed && Budgeted(p, w.kids[0].state)
    requires w.kids[0].state.resumeAt <= w.clocks * g
    ensures var r := Feed(Lone(p), FirstFails(g), w, 0, Tick);
      && r.Of(Lone(p)) && r.clocks == w.clocks + 2 && r.tries > 0 && r.Phase(0) == Starting && r.kids[0].pid > 0
      && !r.kids[0].completed && r.kids[0].state.since == w.clocks * g && Budgeted(p, r.kids[0].state)
      && r.kids[0].state.restarts == w.kids[0].state.restarts
  {
    hide Config.Valid, YieldAll, Dependents, Budgeted;
    BudgetKept(Lone(p).children[0].spec, w.kids[0].state, Tick, w.clocks * g);
  }

  /** A tick finds the started child over its timeout: healthy or not, it is killed. */
  lemma TickKills(p: RestartPolicy, g: int, w: World)
    requires Ample(p, g) && Hung(p, g, w)
    ensures var r, n := Ticked(Lone(p), FirstFails(g), w), w.kids[0].state.restarts;
      && r.Of(Lone(p)) && r.kids[0].state.restarts == n + 1
      && if n + 1 > p.maxRestarts then r.Phase(0) == Fatal else Due(p, g, r)
  {
    hide Config.Valid, Step, BringUp, VisitAll, Budgeted, Feed, Due;
    var c, e, now := Lone(p), FirstFails(g), w.clocks * g;
    var w1 := w.(clocks := w.clocks + 1);
    LoneSteps(p, g, w1, now);
    var w2 := w1.(waits := w1.waits + 1);
    ReleaseAlone(c, w2, 0);
    var w3 := Release(w2, 0);
    LoneDeath(p, g, w3, StartTimeout);
    var w4 := Feed(c, e, w3, 0, StartTimeout);
    assert Visit(c, e, w1, 0, now) == w4;
    DueBackoff(p, g, w4);
    LoneBringUp(p, g, w4);
  }

  lemma DueBackoff(p: RestartPolicy, g: int, w: World)
    ensures Due(p, g, w) ==> w.Of(Lone(p)) && w.Phase(0) == Backoff
  {
  }

  // ---- the run ----

  /** The health node says OK once, for good, while the child waits; then the timer ticks. */
  function HealthyInputs(k: nat): seq<Input> {
    [Report([Item(0, OK)])] + seq(k, _ => TimerTick)
  }

  lemma {:induction false} HealthyHistory(k: nat)
    ensures History(HealthyInputs(k)) == [Item(0, OK)] && Aggregate(LoneFeed(), [Item(0, OK)], 0)
  {
    if k == 0 {
      assert HealthyInputs(0) == [] + [Report([Item(0, OK)])];
      HistoryNext([], Report([Item(0, OK)]));
    } else {
      HealthyHistory(k - 1);
      assert HealthyInputs(k) == HealthyInputs(k - 1) + [TimerTick];
      HistoryNext(HealthyInputs(k - 1), TimerTick);
    }
    LatestAppend([], Item(0, OK), 0);
  }

  lemma LoneActivated(p: RestartPolicy, g: int)
    requires Ample(p, g) && p.maxRestarts >= 0
    ensures Lone(p).Valid()
    ensures var w := Activated(Lone(p), FirstFails(g));
      && w.Of(Lone(p)) && w.kids[0].state.restarts == 1
      && if p.maxRestarts < 1 then w.Phase(0) == Fatal else Due(p, g, w)
  {
    LoneIsValid(p);
    hide Config.Valid, Step, BringUp, Budgeted, Feed, Due;
    var c, e, w := Lone(p), FirstFails(g), Initial(Lone(p));
    LoneSteps(p, g, w, 0);
    assert DepsRunning(c, w, 0);
    StepOnSpawned(c.children[0].spec, INITIAL, 0);
    InitialBudget(p, c.children[0].spec);
    var w1 := Respawned(c, e, w, 0);
    LoneDeath(p, g, w1, ExitedCrash);
  }

  lemma InitialBudget(p: RestartPolicy, spec: ChildSpec)
    requires spec.policy == p
    ensures Budgeted(p, Step(spec, INITIAL, Spawned, 0).0)
  {
  }

  /** The report comes while the child waits: nothing happens, and the flip is spent. */
  lemma ReportSpent(p: RestartPolicy, g: int, w: World)
    requires Ample(p, g) && Due(p, g, w)
    ensures var r := Signalled(Lone(p), FirstFails(g), w, Signal(0, true));
      Due(p, g, r) && r.kids == w.kids
  {
    hide Config.Valid, Budgeted, Step, YieldAll, Dependents;
    StepOnHealthOk(Lone(p).children[0].spec, w.kids[0].state, w.clocks * g);
    Readings(w.clocks, w.clocks + 1, g);
  }

  lemma LoneSignals(p: RestartPolicy)
    ensures LoneFeed().Valid()
    ensures var (vs, out) := Dispatched(LoneFeed(), Fresh(LoneFeed()), [Item(0, OK)]);
      forall x, b :: Signal(x, b) in out <==> x == 0 && b
  {
    var m, items := LoneFeed(), [Item(0, OK)];
    FreshTracks(m);
    assert [] + items == items;
    DispatchExact(m, Fresh(m), [], items);
    HealthyHistory(0);
    assert Latest([], 0) == Silent;
    assert 0 in m.nodes[0];
    assert !Aggregate(m, [], 0);
  }

  lemma {:induction false} DeliverSpent(p: RestartPolicy, g: int, w: World, out: seq<Signal>)
    requires Ample(p, g) && Due(p, g, w) && forall s :: s in out ==> s == Signal(0, true)
    ensures var r := Delivered(Lone(p), FirstFails(g), w, out); Due(p, g, r) && r.kids == w.kids
    decreases |out|
  {
    hide Config.Valid, Due, Signalled;
    DueBackoff(p, g, w);
    if out != [] {
      var s := out[0];
      assert s in out;
      ReportSpent(p, g, w);
      DueBackoff(p, g, Signalled(Lone(p), FirstFails(g), w, s));
      assert forall t :: t in out[1..] ==> t in out;
      DeliverSpent(p, g, Signalled(Lone(p), FirstFails(g), w, s), out[1..]);
    }
  }

  ghost function Healthy(p: RestartPolicy, g: int, k: nat): (w: World)
    ensures w.Of(Lone(p))
  {
    LoneIsValid(p);
    Run(Lone(p), LoneFeed(), FirstFails(g), HealthyInputs(k)).w
  }

  lemma HealthyFirst(p: RestartPolicy, g: int)
    requires Ample(p, g) && p.maxRestarts >= 1
    ensures Due(p, g, Healthy(p, g, 0)) && Healthy(p, g, 0).kids[0].state.restarts == 1
  {
    LoneIsValid(p);
    LoneActivated(p, g);
    LoneSignals(p);
    hide Config.Valid, Due, Activated, Delivered, Dispatched, Ample;
    var c, m, e, items := Lone(p), LoneFeed(), FirstFails(g), [Item(0, OK)];
    var out := Dispatched(m, Fresh(m), items).1;
    forall s | s in out ensures s == Signal(0, true) {
      assert Signal(s.child, s.alive) in out;
    }
    DeliverSpent(p, g, Activated(c, e), out);
    assert HealthyInputs(0) == [] + [Report(items)];
    RunNext(c, m, e, [], Report(items));
  }

  lemma HealthyNext(p: RestartPolicy, g: int, k: nat)
    ensures Healthy(p, g, k + 1) == Ticked(Lone(p), FirstFails(g), Healthy(p, g, k))
  {
    LoneIsValid(p);
    hide Config.Valid, Ticked;
    assert HealthyInputs(k + 1) == HealthyInputs(k) + [TimerTick];
    RunNext(Lone(p), LoneFeed(), FirstFails(g), HealthyInputs(k), TimerTick);
  }

  /** Start and kill take turns, one restart a round. */
  lemma {:induction false} TakeTurns(p: RestartPolicy, g: int, j: nat)
    requires Ample(p, g) && j < p.maxRestarts
    ensures Due(p, g, Healthy(p, g, 2 * j)) && Healthy(p, g, 2 * j).kids[0].state.restarts == j + 1
    ensures Hung(p, g, Healthy(p, g, 2 * j + 1)) && Healthy(p, g, 2 * j + 1).kids[0].state.restarts == j + 1
  {
    hide Due, Hung, Healthy, Ticked, Ample;
    if j == 0 {
      HealthyFirst(p, g);
    } else {
      TakeTurns(p, g, j - 1);
      TickKills(p, g, Healthy(p, g, 2 * j - 1));
      HealthyNext(p, g, 2 * j - 1);
    }
    TickStarts(p, g, Healthy(p, g, 2 * j));
    HealthyNext(p, g, 2 * j);
  }

  /** A run in which it happens: the child is starting, with a process and its health OK, and by
      NeverConfirmed it is not confirmed as long as its health stays OK. */
  lemma HealthyButStarting(p: RestartPolicy, g: int)
    requires Ample(p, g) && p.maxRestarts >= 1
    ensures Lone(p).Valid() && LoneFeed().Valid()
    ensures var w := Run(Lone(p), LoneFeed(), FirstFails(g), HealthyInputs(1)).w;
      && w.Phase(0) == Starting && w.kids[0].pid > 0
      && Aggregate(LoneFeed(), History(HealthyInputs(1)), 0)
  {
    LoneIsValid(p);
    TakeTurns(p, g, 0);
    HealthyHistory(1);
    assert Hung(p, g, Healthy(p, g, 1));
  }

  /** And where it ends: the process never exits, the health stays OK from the first report on,
      and after two ticks for every restart allowed the child is FATAL, for good. */
  lemma HealthyEndsFatal(p: RestartPolicy, g: int, more: seq<Input>)
    requires Ample(p, g) && p.maxRestarts >= 1
    ensures Lone(p).Valid() && LoneFeed().Valid()
    ensures forall k: nat :: Aggregate(LoneFeed(), History(HealthyInputs(k)), 0)
    ensures Run(Lone(p), LoneFeed(), FirstFails(g), HealthyInputs(2 * p.maxRestarts) + more).w.Phase(0) == Fatal
  {
    LoneIsValid(p);
    hide Config.Valid, Hung, Due, Ticked, Aggregate, History, Run, Ample;
    forall k: nat ensures Aggregate(LoneFeed(), History(HealthyInputs(k)), 0) {
      HealthyHistory(k);
    }
    var j := p.maxRestarts - 1;
    TakeTurns(p, g, j);
    TickKills(p, g, Healthy(p, g, 2 * j + 1));
    HealthyNext(p, g, 2 * j + 1);
    assert 2 * j + 2 == 2 * p.maxRestarts;
    FatalStays(Lone(p), LoneFeed(), FirstFails(g), HealthyInputs(2 * p.maxRestarts), more, 0);
  }
}
