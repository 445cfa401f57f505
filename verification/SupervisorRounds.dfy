/** Bring-up with health gates: each round reports the health of the children started last and
    lets the timer tick once. */
module SupervisorRounds {
  import opened Sequences
  import opened SupervisorPolicy
  import opened SupervisorModel
  import opened SupervisorSafety
  import opened SupervisorRuns
  import opened SupervisorOneshots
  import opened SupervisorBringUp
  import opened SupervisorConfirmation
  import opened HealthFeed

  /** Health nodes are declared exactly for the gated children, and none is shared. */
  ghost predicate Gating(c: Config, m: Mapping) {
    && c.Valid() && m.Valid()
    && (forall n :: n in m.nodes <==> n in c.children && c.children[n].gated)
    && (forall n :: n in m.nodes ==> m.nodes[n] != [])
    && (forall n, x {:trigger x in m.nodes[n]} :: n in m.nodes && x in m.nodes[n] ==> m.owner[x] == n)
  }

  // ---- the reports ----

  /** The nodes of the gated children of depth at most k, among the first i. */
  ghost function NodesTo(c: Config, m: Mapping, k: nat, i: nat): seq<Node>
    requires c.Valid() && i <= |c.topo|
  {
    if i == 0 then []
    else
      var n := c.topo[i - 1];
      IndexAt(c, i - 1);
      NodesTo(c, m, k, i - 1) + if n in m.nodes && Below(c, n, k + 1) then m.nodes[n] else []
  }

  ghost predicate Listed(c: Config, m: Mapping, k: nat, i: nat, x: Node)
    requires c.Valid() && i <= |c.topo|
  {
    exists j {:trigger c.topo[j]} :: 0 <= j < i && c.topo[j] in c.children && c.topo[j] in m.nodes &&
                                     Below(c, c.topo[j], k + 1) && x in m.nodes[c.topo[j]]
  }

  lemma {:induction false} NodesListed(c: Config, m: Mapping, k: nat, i: nat, x: Node)
    requires c.Valid() && i <= |c.topo|
    ensures x in NodesTo(c, m, k, i) <==> Listed(c, m, k, i, x)
  {
    hide Below, Config.Valid;
    if i > 0 {
      NodesListed(c, m, k, i - 1, x);
      IndexAt(c, i - 1);
      var n := c.topo[i - 1];
      if x in NodesTo(c, m, k, i - 1) {
        var j :| 0 <= j < i - 1 && c.topo[j] in c.children && c.topo[j] in m.nodes &&
                 Below(c, c.topo[j], k + 1) && x in m.nodes[c.topo[j]];
        assert Listed(c, m, k, i, x);
      }
    }
  }

  ghost function News(c: Config, m: Mapping, k: nat): seq<Item>
    requires c.Valid()
  {
    GoodNews(NodesTo(c, m, k, |c.topo|))
  }

  /** All reports before round k. */
  ghost function Reported(c: Config, m: Mapping, k: nat): seq<Item>
    requires c.Valid()
  {
    if k == 0 then [] else Reported(c, m, k - 1) + News(c, m, k - 1)
  }

  lemma {:induction false} LatestNews(h: seq<Item>, ns: seq<Node>, x: Node)
    ensures Latest(h + GoodNews(ns), x) == if x in ns then Says(true) else Latest(h, x)
  {
    if ns == [] {
      assert h + GoodNews(ns) == h;
    } else {
      var init, it := ns[..|ns| - 1], Item(ns[|ns| - 1], OK);
      LatestNews(h, init, x);
      assert h + GoodNews(ns) == (h + GoodNews(init)) + [it];
      LatestAppend(h + GoodNews(init), it, x);
      assert ns == init + [ns[|ns| - 1]];
    }
  }

  /** A node of n is among the news of round k exactly if the depth of n is at most k. */
  lemma NewsOf(c: Config, m: Mapping, k: nat, n: Name, x: Node)
    requires Gating(c, m) && n in m.nodes && x in m.nodes[n]
    ensures x in NodesTo(c, m, k, |c.topo|) <==> Below(c, n, k + 1)
  {
    hide Below, Config.Valid;
    NodesListed(c, m, k, |c.topo|, x);
    if Listed(c, m, k, |c.topo|, x) {
      var j :| 0 <= j < |c.topo| && c.topo[j] in c.children && c.topo[j] in m.nodes &&
               Below(c, c.topo[j], k + 1) && x in m.nodes[c.topo[j]];
      var y := c.topo[j];
      assert m.owner[x] == y && m.owner[x] == n;
    }
    if Below(c, n, k + 1) {
      TopoIndex(c, n);
      assert c.topo[Index(c.topo, n)] == n;
    }
  }

  lemma TopoIndex(c: Config, n: Name)
    requires c.Valid() && n in c.children
    ensures n in c.topo
  {
  }

  lemma {:induction false} LatestReported(c: Config, m: Mapping, k: nat, n: Name, x: Node)
    requires Gating(c, m) && n in m.nodes && x in m.nodes[n]
    ensures Latest(Reported(c, m, k), x) == if Below(c, n, k) then Says(true) else Silent
  {
    hide Below, Config.Valid, GoodNews, NodesTo, Latest, Gating;
    GatedChild(c, m, n);
    if k == 0 {
      NothingSaid(x);
      BelowZero(c, n);
    } else {
      LatestReported(c, m, k - 1, n, x);
      LatestNews(Reported(c, m, k - 1), NodesTo(c, m, k - 1, |c.topo|), x);
      NewsOf(c, m, k - 1, n, x);
      BelowUp(c, n, k - 1);
    }
  }

  lemma GatedChild(c: Config, m: Mapping, n: Name)
    requires Gating(c, m) && n in m.nodes
    ensures c.Valid() && n in c.children
  {
  }

  lemma NothingSaid(x: Node)
    ensures Latest([], x) == Silent
  {
  }

  lemma BelowZero(c: Config, n: Name)
    requires c.Valid() && n in c.children
    ensures !Below(c, n, 0)
  {
  }

  lemma BelowUp(c: Config, n: Name, k: nat)
    requires c.Valid() && n in c.children
    ensures Below(c, n, k) ==> Below(c, n, k + 1)
  {
    if Below(c, n, k) {
      BelowMonotone(c, n, k);
    }
  }

  /** Before round k the children of depth below k, and no others, are reported alive. */
  lemma AggregateReported(c: Config, m: Mapping, k: nat, n: Name)
    requires Gating(c, m) && n in m.nodes
    ensures Aggregate(m, Reported(c, m, k), n) <==> Below(c, n, k)
  {
    hide Below, Config.Valid, Latest, Reported;
    forall x | x in m.nodes[n]
      ensures m.owner[x] == n && (Latest(Reported(c, m, k), x) == Says(true) <==> Below(c, n, k))
    {
      LatestReported(c, m, k, n, x);
    }
    FirstNode(m.nodes[n]);
  }

  lemma FirstNode(ns: seq<Node>)
    ensures ns != [] ==> exists x :: x in ns
  {
    if ns != [] {
      var x := ns[0];
      assert x in ns;
    }
  }

  // ---- the rounds ----

  ghost function Rounds(c: Config, m: Mapping, k: nat): seq<Input>
    requires c.Valid()
  {
    if k == 0 then [] else Rounds(c, m, k - 1) + [Report(News(c, m, k - 1))] + [TimerTick]
  }

  lemma {:induction false} RoundsHistory(c: Config, m: Mapping, k: nat)
    requires c.Valid()
    ensures History(Rounds(c, m, k)) == Reported(c, m, k)
    ensures History(Rounds(c, m, k) + [Report(News(c, m, k))]) == Reported(c, m, k + 1)
  {
    hide News, History, Config.Valid;
    if k == 0 {
      NoHistory();
    } else {
      RoundsHistory(c, m, k - 1);
      HistoryNext(Rounds(c, m, k - 1) + [Report(News(c, m, k - 1))], TimerTick);
    }
    HistoryNext(Rounds(c, m, k), Report(News(c, m, k)));
  }

  lemma NoHistory()
    ensures History([]) == []
  {
  }

  /** Before the report of round k: as after the scan of level k; the children still to be
      signalled are starting or, signalled twice, confirmed already. */
  ghost predicate Waking(c: Config, w: World, k: nat, rest: seq<Signal>)
    requires w.Of(c)
  {
    forall n {:trigger w.kids[n]} :: n in c.children ==>
      || Settled(w.kids[n], Before(c, n, k))
      || (Signal(n, true) in rest && Settled(w.kids[n], Target(c, n, k, true)))
  }

  /** A gated child of depth exactly k comes alive. */
  ghost predicate WakesUp(c: Config, m: Mapping, k: nat, s: Signal)
    requires c.Valid()
  {
    s.alive && s.child in c.children && s.child in m.nodes && Below(c, s.child, k + 1) && !Below(c, s.child, k)
  }

  /** The signals of round k: the gated children of depth exactly k come alive. */
  ghost predicate Wakes(c: Config, m: Mapping, k: nat, out: seq<Signal>)
    requires c.Valid()
  {
    forall x, b {:trigger Signal(x, b) in out} :: Signal(x, b) in out <==>
      b && x in c.children && x in m.nodes && Below(c, x, k + 1) && !Below(c, x, k)
  }

  lemma NewsWakes(c: Config, m: Mapping, vs: Views, k: nat)
    requires Gating(c, m) && Tracks(m, vs, Reported(c, m, k)) && Sampled(m, vs, Reported(c, m, k))
    ensures Wakes(c, m, k, Dispatched(m, vs, News(c, m, k)).1)
  {
    hide Below, Config.Valid, Reported, News, Tracks, Sampled, Dispatched, Aggregate;
    var h, items := Reported(c, m, k), News(c, m, k);
    TracksKeys(m, vs, h);
    var out := Dispatched(m, vs, items).1;
    DispatchExact(m, vs, h, items);
    ReportedNext(c, m, k);
    forall x, b ensures Signal(x, b) in out <==>
      b && x in c.children && x in m.nodes && Below(c, x, k + 1) && !Below(c, x, k)
    {
      if x in m.nodes {
        AggregateReported(c, m, k, x);
        AggregateReported(c, m, k + 1, x);
        BelowUp(c, x, k);
      }
    }
  }

  lemma ReportedNext(c: Config, m: Mapping, k: nat)
    requires c.Valid()
    ensures Reported(c, m, k + 1) == Reported(c, m, k) + News(c, m, k)
  {
  }

  lemma FoundSettled(c: Config, e: Env, w: World, n: Name)
    requires w.Of(c) && n in c.children && (Settled(w.kids[n], Starting) || Settled(w.kids[n], Running))
    ensures var r := Signalled(c, e, w, Signal(n, true));
      && r.Of(c) && (forall m :: m in w.kids && m != n ==> r.kids[m] == w.kids[m])
      && Settled(r.kids[n], Running)
  {
    hide Config.Valid, Step, YieldAll, Dependents;
    StepOnHealthOk(c.children[n].spec, w.kids[n].state, e.clock(w.clocks));
  }

  lemma LevelStarts(c: Config, n: Name, k: nat)
    requires c.Valid() && n in c.children && Below(c, n, k + 1) && !Below(c, n, k)
    ensures Target(c, n, k, true) == Starting && Target(c, n, k + 1, false) == Running
  {
  }

  lemma WakeOne(c: Config, m: Mapping, e: Env, w: World, k: nat, out: seq<Signal>)
    requires w.Of(c) && Gating(c, m) && out != [] && Waking(c, w, k, out)
    requires forall s :: s in out ==> WakesUp(c, m, k, s)
    ensures var r := Signalled(c, e, w, out[0]); r.Of(c) && Waking(c, r, k, out[1..])
  {
    hide Below, Config.Valid, Settled, Signalled, Target;
    var s, rest := out[0], out[1..];
    assert s in out && s == Signal(s.child, true);
    assert forall t :: t in out <==> t == s || t in rest;
    LevelStarts(c, s.child, k);
    assert Settled(w.kids[s.child], Running) || Settled(w.kids[s.child], Starting);
    FoundSettled(c, e, w, s.child);
    var r := Signalled(c, e, w, s);
    forall n | n in c.children
      ensures || Settled(r.kids[n], Before(c, n, k))
              || (Signal(n, true) in rest && Settled(r.kids[n], Target(c, n, k, true)))
    {
      assert n != s.child ==> r.kids[n] == w.kids[n];
    }
  }

  lemma {:induction false} WakeAll(c: Config, m: Mapping, e: Env, w: World, k: nat, out: seq<Signal>)
    requires w.Of(c) && Gating(c, m) && Waking(c, w, k, out)
    requires forall s :: s in out ==> WakesUp(c, m, k, s)
    ensures Awake(c, Delivered(c, e, w, out), k)
    decreases |out|
  {
    hide Below, Config.Valid, Settled, Signalled, Gating;
    if out != [] {
      WakeOne(c, m, e, w, k, out);
      assert forall t :: t in out[1..] ==> t in out;
      WakeAll(c, m, e, Signalled(c, e, w, out[0]), k, out[1..]);
    }
  }

  lemma LevelWaking(c: Config, m: Mapping, w: World, k: nat, out: seq<Signal>)
    requires w.Of(c) && Gating(c, m) && AtLevel(c, w, k) && Wakes(c, m, k, out)
    ensures Waking(c, w, k, out)
  {
    hide Below, Config.Valid, Settled;
    forall n | n in c.children
      ensures || Settled(w.kids[n], Before(c, n, k))
              || (Signal(n, true) in out && Settled(w.kids[n], Target(c, n, k, true)))
    {
      assert Settled(w.kids[n], Target(c, n, k, true));
      BelowUp(c, n, k);
    }
  }

  lemma WakesAlive(c: Config, m: Mapping, k: nat, out: seq<Signal>)
    requires c.Valid() && Wakes(c, m, k, out)
    ensures forall s :: s in out ==> WakesUp(c, m, k, s)
  {
    hide Below, Config.Valid;
    forall s | s in out ensures WakesUp(c, m, k, s)
    {
      assert Signal(s.child, s.alive) in out;
    }
  }

  /** The views before and after the report of round k, whatever the supervisor does. */
  lemma RoundViews(c: Config, m: Mapping, e: Env, k: nat)
    requires Gating(c, m)
    ensures var vs := Run(c, m, e, Rounds(c, m, k)).vs;
      vs.Keys == m.nodes.Keys && Tracks(m, vs, Reported(c, m, k)) && Sampled(m, vs, Reported(c, m, k))
  {
    hide Config.Valid, Run, Tracks, Sampled, Reported, Rounds, History;
    RunSampled(c, m, e, Rounds(c, m, k));
    RoundsHistory(c, m, k);
  }

  lemma ReportAwakes(c: Config, m: Mapping, e: Env, k: nat)
    requires Gating(c, m) && AtLevel(c, Run(c, m, e, Rounds(c, m, k)).w, k)
    ensures Awake(c, Run(c, m, e, Rounds(c, m, k) + [Report(News(c, m, k))]).w, k)
  {
    hide Config.Valid, Run, Tracks, Sampled, Reported, Rounds, News, AtLevel, Awake, Below, Waking, Wakes, Delivered,
         Dispatched;
    var s := Run(c, m, e, Rounds(c, m, k));
    RoundViews(c, m, e, k);
    NewsWakes(c, m, s.vs, k);
    var out := Dispatched(m, s.vs, News(c, m, k)).1;
    LevelWaking(c, m, s.w, k, out);
    WakesAlive(c, m, k, out);
    WakeAll(c, m, e, s.w, k, out);
    RunNext(c, m, e, Rounds(c, m, k), Report(News(c, m, k)));
  }

  /** With gates: if spawns succeed, nothing exits and each round reports the health of the
      children started last, then after k rounds exactly the children of depth below k run. */
  lemma {:induction false} RoundsRaise(c: Config, m: Mapping, e: Env, k: nat)
    requires Gating(c, m) && Calm(e)
    ensures AtLevel(c, Run(c, m, e, Rounds(c, m, k)).w, k)
  {
    hide Config.Valid, AtLevel, Awake, Ticked, Activated, News, Below, Run, Rounds;
    if k == 0 {
      NoRounds(c, m, e);
      ActivatedAtLevel(c, e);
    } else {
      RoundsRaise(c, m, e, k - 1);
      ReportAwakes(c, m, e, k - 1);
      TickRaisesLevel(c, e, Run(c, m, e, Rounds(c, m, k - 1) + [Report(News(c, m, k - 1))]).w, k - 1);
      RoundTicks(c, m, e, k - 1);
    }
  }

  lemma NoRounds(c: Config, m: Mapping, e: Env)
    requires c.Valid() && m.Valid()
    ensures Run(c, m, e, Rounds(c, m, 0)).w == Activated(c, e)
  {
    hide Activated;
  }

  lemma RoundTicks(c: Config, m: Mapping, e: Env, k: nat)
    requires c.Valid() && m.Valid()
    ensures Run(c, m, e, Rounds(c, m, k + 1)).w ==
            Ticked(c, e, Run(c, m, e, Rounds(c, m, k) + [Report(News(c, m, k))]).w)
  {
    hide Config.Valid, Ticked, News, Run;
    RunNext(c, m, e, Rounds(c, m, k) + [Report(News(c, m, k))], TimerTick);
  }

  lemma GatedBringUp(c: Config, m: Mapping, e: Env, k: nat, n: Name)
    requires Gating(c, m) && Calm(e) && n in c.children
    ensures Run(c, m, e, Rounds(c, m, k)).w.Phase(n) == Running <==> Below(c, n, k)
    ensures k >= |c.topo| ==> Run(c, m, e, Rounds(c, m, k)).w.Phase(n) == Running
  {
    hide Run, Rounds;
    RoundsRaise(c, m, e, k);
    var w := Run(c, m, e, Rounds(c, m, k)).w;
    assert Settled(w.kids[n], Target(c, n, k, true));
    if k >= |c.topo| {
      DepthByIndex(c, n, k);
    }
  }
}
