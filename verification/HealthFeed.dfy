/** Node-level health reports folded into child-level alive/lost signals. */
module HealthFeed {
  import opened Sequences
  import opened SupervisorPolicy

  type Node = int

  /** OTHER stands for WARN, STALE and every unknown word: the view does not change. */
  datatype Status = OK | ERROR | FATAL | OTHER

  datatype Item = Item(node: Node, status: Status)

  /** What an item says about its node, if anything. */
  datatype Verdict = Silent | Says(ok: bool)

  function Judged(s: Status): Verdict {
    match s
    case OK => Says(true)
    case ERROR => Says(false)
    case FATAL => Says(false)
    case OTHER => Silent
  }

  /** owner: a health node reports for one child only, the last one that lists it. */
  datatype Mapping = Mapping(nodes: map<Name, seq<Node>>, owner: map<Node, Name>) {
    ghost predicate Valid() {
      && (forall n :: n in owner ==> owner[n] in nodes && n in nodes[owner[n]])
      && (forall c, n :: c in nodes && n in nodes[c] ==> n in owner)
    }
  }

  /** status holds only OK / BAD verdicts; alive is the conclusion last reported. */
  datatype View = View(status: map<Node, bool>, alive: bool)

  datatype Signal = Signal(child: Name, alive: bool)

  type Views = map<Name, View>

  function Fresh(m: Mapping): Views {
    map c | c in m.nodes :: View(map[], false)
  }

  // ---- dispatch as functions ----

  function Absorbed(m: Mapping, vs: Views, items: seq<Item>): (r: (Views, seq<Name>))
    requires m.Valid() && vs.Keys == m.nodes.Keys
    ensures r.0.Keys == vs.Keys && forall c :: c in r.1 ==> c in m.nodes
  {
    if items == [] then (vs, [])
    else
      var (vs1, touched) := Absorbed(m, vs, items[..|items| - 1]);
      var it := items[|items| - 1];
      var v := Judged(it.status);
      if it.node !in m.owner || v.Silent? then (vs1, touched)
      else
        var c := m.owner[it.node];
        var view := vs1[c];
        if it.node in view.status && view.status[it.node] == v.ok then (vs1, touched)
        else (vs1[c := view.(status := view.status[it.node := v.ok])], touched + [c])
  }

  /** Every mapped node confirmed and OK. */
  predicate AllOk(m: Mapping, vs: Views, c: Name)
    requires c in m.nodes && c in vs
  {
    forall n :: n in m.nodes[c] ==> n in vs[c].status && vs[c].status[n]
  }

  /** Re-evaluates the touched children in order; a signal for each conclusion that flips. */
  function Evaluated(m: Mapping, vs: Views, touched: seq<Name>): (r: (Views, seq<Signal>))
    requires vs.Keys == m.nodes.Keys && forall c :: c in touched ==> c in m.nodes
    ensures r.0.Keys == vs.Keys
  {
    if touched == [] then (vs, [])
    else
      var (vs1, out) := Evaluated(m, vs, touched[..|touched| - 1]);
      var c := touched[|touched| - 1];
      var alive := AllOk(m, vs1, c);
      if alive == vs1[c].alive then (vs1, out)
      else (vs1[c := vs1[c].(alive := alive)], out + [Signal(c, alive)])
  }

  function Dispatched(m: Mapping, vs: Views, items: seq<Item>): (r: (Views, seq<Signal>))
    requires m.Valid() && vs.Keys == m.nodes.Keys
    ensures r.0.Keys == vs.Keys
  {
    var (vs1, touched) := Absorbed(m, vs, items);
    Evaluated(m, vs1, touched)
  }

  // ---- what the views mean: the history of reports ----

  /** The last OK / ERROR / FATAL verdict about a node. */
  ghost function Latest(history: seq<Item>, n: Node): Verdict {
    if history == [] then Silent
    else
      var it := history[|history| - 1];
      if it.node == n && Judged(it.status).Says? then Judged(it.status)
      else Latest(history[..|history| - 1], n)
  }

  /** The child is alive: it is the one its nodes report for, and the latest verdict about
      every one of them is OK. */
  ghost predicate Aggregate(m: Mapping, history: seq<Item>, c: Name)
    requires m.Valid() && c in m.nodes
  {
    forall n :: n in m.nodes[c] ==> m.owner[n] == c && Latest(history, n) == Says(true)
  }

  /** What the callback is meant to say: the latest verdict about every node of the child is OK. */
  ghost predicate AllLatestOk(m: Mapping, history: seq<Item>, c: Name)
    requires c in m.nodes
  {
    forall n :: n in m.nodes[c] ==> Latest(history, n) == Says(true)
  }

  /** The report at i is the last word on its node: later ones say WARN or STALE, or speak of
      other nodes. */
  ghost predicate LastWord(history: seq<Item>, i: nat)
    requires i < |history|
  {
    forall j :: i < j < |history| && history[j].node == history[i].node ==> history[j].status == OTHER
  }

  /** The last word on n is `status`. */
  ghost predicate LastSays(history: seq<Item>, n: Node, status: Status) {
    exists i: nat :: i < |history| && history[i] == Item(n, status) && LastWord(history, i)
  }

  /** The latest verdict is good exactly if the last word on the node was OK, and bad exactly if
      it was ERROR or FATAL. */
  lemma {:induction false} LatestExact(history: seq<Item>, n: Node)
    ensures Latest(history, n) == Says(true) <==> LastSays(history, n, OK)
    ensures Latest(history, n) == Says(false) <==> LastSays(history, n, ERROR) || LastSays(history, n, FATAL)
  {
    if history != [] {
      var init, it := history[..|history| - 1], history[|history| - 1];
      LatestExact(init, n);
      LastSaysNext(init, it, n, OK);
      LastSaysNext(init, it, n, ERROR);
      LastSaysNext(init, it, n, FATAL);
      assert history == init + [it];
    }
  }

  lemma LastSaysNext(h: seq<Item>, it: Item, n: Node, status: Status)
    requires status != OTHER
    ensures LastSays(h + [it], n, status) <==>
            it == Item(n, status) || (LastSays(h, n, status) && (it.node != n || it.status == OTHER))
  {
    var r := h + [it];
    if it == Item(n, status) {
      assert LastWord(r, |h|);
    }
    if LastSays(h, n, status) && (it.node != n || it.status == OTHER) {
      var i: nat :| i < |h| && h[i] == Item(n, status) && LastWord(h, i);
      assert LastWord(r, i);
    }
    if LastSays(r, n, status) {
      var i: nat :| i < |r| && r[i] == Item(n, status) && LastWord(r, i);
      if i < |h| {
        assert r[|h|] == it && r[i] == h[i];
        forall j | i < j < |h| && h[j].node == h[i].node ensures h[j].status == OTHER {
          assert r[j] == h[j];
        }
        assert LastWord(h, i);
      }
    }
  }

  /** The callback is meant to say that the last word on every node of the child was OK. */
  lemma AllOkExact(m: Mapping, history: seq<Item>, c: Name)
    requires c in m.nodes
    ensures AllLatestOk(m, history, c) <==> forall n :: n in m.nodes[c] ==> LastSays(history, n, OK)
  {
    hide Latest;
    forall n ensures Latest(history, n) == Says(true) <==> LastSays(history, n, OK) {
      LatestExact(history, n);
    }
  }

  function GoodNews(ns: seq<Node>): seq<Item> {
    if ns == [] then [] else GoodNews(ns[..|ns| - 1]) + [Item(ns[|ns| - 1], OK)]
  }

  lemma {:induction false} GoodNewsLatest(ns: seq<Node>, n: Node)
    ensures Latest(GoodNews(ns), n) == if n in ns then Says(true) else Silent
  {
    if ns != [] {
      var init, it := ns[..|ns| - 1], Item(ns[|ns| - 1], OK);
      GoodNewsLatest(init, n);
      LatestAppend(GoodNews(init), it, n);
      assert ns == init + [ns[|ns| - 1]];
    }
  }

  /** The feed says what it is meant to say, on every history, exactly for a child that no
      other child took a node from. */
  lemma AggregateIff(m: Mapping, c: Name)
    requires m.Valid() && c in m.nodes
    ensures (forall h :: Aggregate(m, h, c) <==> AllLatestOk(m, h, c)) <==>
            (forall n :: n in m.nodes[c] ==> m.owner[n] == c)
  {
    hide Latest;
    if forall h :: Aggregate(m, h, c) <==> AllLatestOk(m, h, c) {
      var h := GoodNews(m.nodes[c]);
      forall n ensures Latest(h, n) == if n in m.nodes[c] then Says(true) else Silent {
        GoodNewsLatest(m.nodes[c], n);
      }
      assert AllLatestOk(m, h, c);
      assert Aggregate(m, h, c);
    }
  }

  /** A child that lost a node to another one never counts as alive. */
  lemma SharedNeverAlive(m: Mapping, c: Name, n: Node, history: seq<Item>)
    requires m.Valid() && c in m.nodes && n in m.nodes[c] && m.owner[n] != c
    ensures !Aggregate(m, history, c)
  {
  }

  /** The status maps hold exactly the latest verdicts. */
  ghost predicate Tracks(m: Mapping, vs: Views, history: seq<Item>)
    requires m.Valid()
  {
    && vs.Keys == m.nodes.Keys
    && forall c, n :: c in m.nodes ==>
         if n in m.owner && m.owner[n] == c && Latest(history, n).Says?
         then n in vs[c].status && vs[c].status[n] == Latest(history, n).ok
         else n !in vs[c].status
  }

  /** At report boundaries the reported conclusion is the aggregate. */
  ghost predicate Sampled(m: Mapping, vs: Views, history: seq<Item>)
    requires m.Valid() && vs.Keys == m.nodes.Keys
  {
    forall c :: c in m.nodes ==> (vs[c].alive <==> Aggregate(m, history, c))
  }

  lemma AllOkIsAggregate(m: Mapping, vs: Views, history: seq<Item>, c: Name)
    requires m.Valid() && Tracks(m, vs, history) && c in m.nodes
    ensures AllOk(m, vs, c) <==> Aggregate(m, history, c)
  {
    forall n | n in m.nodes[c]
      ensures n in vs[c].status && vs[c].status[n] <==> m.owner[n] == c && Latest(history, n) == Says(true)
    {
    }
  }

  lemma LatestAppend(history: seq<Item>, it: Item, n: Node)
    ensures Latest(history + [it], n) ==
            if it.node == n && Judged(it.status).Says? then Judged(it.status) else Latest(history, n)
  {
    assert (history + [it])[..|history|] == history;
  }

  /** Absorbing a report: the views follow the history, conclusions wait, and only
      touched children can have changed their aggregate. */
  lemma {:induction false} AbsorbTracks(m: Mapping, vs: Views, history: seq<Item>, items: seq<Item>)
    requires m.Valid() && Tracks(m, vs, history)
    ensures var (vs1, touched) := Absorbed(m, vs, items);
      && Tracks(m, vs1, history + items)
      && (forall c :: c in m.nodes ==> vs1[c].alive == vs[c].alive)
      && forall c :: c in m.nodes && c !in touched ==> vs1[c] == vs[c]
  {
    if items == [] {
      assert history + items == history;
    } else {
      var init, it := items[..|items| - 1], items[|items| - 1];
      AbsorbTracks(m, vs, history, init);
      assert history + items == (history + init) + [it];
      AbsorbOne(m, Absorbed(m, vs, init).0, history + init, it, Absorbed(m, vs, items).0);
    }
  }

  lemma AbsorbOne(m: Mapping, vs: Views, history: seq<Item>, it: Item, r: Views)
    requires m.Valid() && Tracks(m, vs, history)
    requires var v := Judged(it.status);
      if it.node !in m.owner || v.Silent? then r == vs
      else
        var c := m.owner[it.node];
        r == vs[c := vs[c].(status := vs[c].status[it.node := v.ok])]
        || (r == vs && it.node in vs[c].status && vs[c].status[it.node] == v.ok)
    ensures Tracks(m, r, history + [it])
  {
    forall n ensures Latest(history + [it], n) ==
      if it.node == n && Judged(it.status).Says? then Judged(it.status) else Latest(history, n)
    {
      LatestAppend(history, it, n);
    }
  }

  /** Evaluation reports each flipped child once, with its new conclusion, and nobody else. */
  lemma {:induction false} EvaluateExact(m: Mapping, vs: Views, touched: seq<Name>)
    requires vs.Keys == m.nodes.Keys && forall c :: c in touched ==> c in m.nodes
    ensures var (r, out) := Evaluated(m, vs, touched);
      && (forall c :: c in m.nodes ==> r[c].status == vs[c].status)
      && (forall c :: c in m.nodes && c !in touched ==> r[c] == vs[c])
      && (forall c :: c in touched ==> r[c].alive == AllOk(m, vs, c))
      && (forall s :: s in out ==> s.child in m.nodes && s.alive == r[s.child].alive && s.alive != vs[s.child].alive)
      && (forall c :: c in m.nodes && r[c].alive != vs[c].alive ==> Signal(c, r[c].alive) in out)
      && NoRepeats(out)
  {
    if touched != [] {
      var init, c := touched[..|touched| - 1], touched[|touched| - 1];
      EvaluateExact(m, vs, init);
      assert touched == init + [c];
      var (vs1, out) := Evaluated(m, vs, init);
      assert AllOk(m, vs1, c) == AllOk(m, vs, c);
      var alive := AllOk(m, vs1, c);
      if alive != vs1[c].alive {
        assert c !in init;
        assert Signal(c, alive) !in out;
        NoRepeatsAppend(out, Signal(c, alive));
      }
    }
  }

  /** One report: the signals are exactly the change points of the aggregate. */
  lemma DispatchExact(m: Mapping, vs: Views, history: seq<Item>, items: seq<Item>)
    requires m.Valid() && Tracks(m, vs, history) && Sampled(m, vs, history)
    ensures var (r, out) := Dispatched(m, vs, items);
      var after := history + items;
      && Tracks(m, r, after) && Sampled(m, r, after)
      && NoRepeats(out)
      && forall c, b :: Signal(c, b) in out <==>
           c in m.nodes && Aggregate(m, after, c) == b && Aggregate(m, history, c) != b
  {
    hide Absorbed, Evaluated, Tracks, AllOk, Aggregate, NoRepeats;
    TracksKeys(m, vs, history);
    var (vs1, touched) := Absorbed(m, vs, items);
    AbsorbTracks(m, vs, history, items);
    TracksKeys(m, vs1, history + items);
    EvaluateExact(m, vs1, touched);
    var after := history + items;
    forall c | c in m.nodes ensures AllOk(m, vs1, c) <==> Aggregate(m, after, c) {
      AllOkIsAggregate(m, vs1, after, c);
    }
    forall c | c in m.nodes && c !in touched ensures Aggregate(m, after, c) <==> Aggregate(m, history, c) {
      AllOkIsAggregate(m, vs, history, c);
      AllOkSame(m, vs, vs1, c);
    }
    TracksSame(m, vs1, Evaluated(m, vs1, touched).0, after);
  }

  // ---- the order of the signals ----

  /** p picks positions of ns, from the first to the last. */
  ghost predicate Ascending(p: seq<nat>, bound: nat) {
    (forall i :: 0 <= i < |p| ==> p[i] < bound) && forall i, j :: 0 <= i < j < |p| ==> p[i] < p[j]
  }

  /** Signals come in the order in which their children were first touched. */
  lemma {:induction false} EvaluatedInOrder(m: Mapping, vs: Views, touched: seq<Name>) returns (at: seq<nat>)
    requires vs.Keys == m.nodes.Keys && forall c :: c in touched ==> c in m.nodes
    ensures var out := Evaluated(m, vs, touched).1;
      && |at| == |out| && Ascending(at, |touched|)
      && forall i :: 0 <= i < |out| ==> out[i].child == touched[at[i]] && touched[at[i]] !in touched[..at[i]]
    ensures var r := Evaluated(m, vs, touched).0;
      && (forall c :: c in m.nodes ==> r[c].status == vs[c].status)
      && (forall c :: c in m.nodes && c in touched ==> r[c].alive == AllOk(m, vs, c))
      && (forall c :: c in m.nodes && c !in touched ==> r[c] == vs[c])
  {
    if touched == [] {
      at := [];
    } else {
      var n := |touched| - 1;
      var init, c := touched[..n], touched[n];
      at := EvaluatedInOrder(m, vs, init);
      var (vs1, out) := Evaluated(m, vs, init);
      SameAllOk(m, vs, vs1, c);
      forall i | 0 <= i < |out| ensures touched[..at[i]] == init[..at[i]] && touched[at[i]] == init[at[i]] {
      }
      if AllOk(m, vs1, c) != vs1[c].alive {
        at := at + [n];
      }
    }
  }

  lemma SameAllOk(m: Mapping, vs: Views, r: Views, c: Name)
    requires c in m.nodes && c in vs && c in r && r[c].status == vs[c].status
    ensures AllOk(m, vs, c) == AllOk(m, r, c)
  {
  }

  /** Item k changes what is known of its node, which reports for child c. */
  ghost predicate Touches(m: Mapping, history: seq<Item>, items: seq<Item>, k: nat, c: Name)
    requires k < |items|
  {
    && items[k].node in m.owner && m.owner[items[k].node] == c && items[k].status != OTHER
    && Latest(history + items[..k + 1], items[k].node) != Latest(history + items[..k], items[k].node)
  }

  /** Children are touched in the order of the items that change what is known of their nodes. */
  lemma {:induction false} AbsorbedInOrder(m: Mapping, vs: Views, history: seq<Item>, items: seq<Item>)
    returns (at: seq<nat>)
    requires m.Valid() && Tracks(m, vs, history) && vs.Keys == m.nodes.Keys
    ensures var touched := Absorbed(m, vs, items).1;
      && |at| == |touched| && Ascending(at, |items|)
      && forall i :: 0 <= i < |touched| ==> Touches(m, history, items, at[i], touched[i])
  {
    if items == [] {
      at := [];
    } else {
      var n := |items| - 1;
      var init, it := items[..n], items[n];
      hide Tracks, Latest, Touches;
      at := AbsorbedInOrder(m, vs, history, init);
      var (vs1, before) := Absorbed(m, vs, init);
      assert items == init + [it];
      forall i | 0 <= i < |before| ensures Touches(m, history, items, at[i], before[i]) {
        TouchesEarlier(m, history, init, it, at[i], before[i]);
      }
      if Absorbed(m, vs, items).1 != before {
        AbsorbTracks(m, vs, history, init);
        TouchedLast(m, vs1, history, init, it);
        at := at + [n];
      }
    }
  }

  lemma TouchesEarlier(m: Mapping, history: seq<Item>, items: seq<Item>, it: Item, k: nat, c: Name)
    requires k < |items| && Touches(m, history, items, k, c)
    ensures Touches(m, history, items + [it], k, c)
  {
    assert (items + [it])[..k] == items[..k] && (items + [it])[..k + 1] == items[..k + 1];
  }

  lemma TouchedLast(m: Mapping, vs: Views, history: seq<Item>, items: seq<Item>, it: Item)
    requires m.Valid() && Tracks(m, vs, history + items) && it.node in m.owner && Judged(it.status).Says?
    requires m.owner[it.node] in vs
    requires var view := vs[m.owner[it.node]];
      !(it.node in view.status && view.status[it.node] == Judged(it.status).ok)
    ensures Touches(m, history, items + [it], |items|, m.owner[it.node])
  {
    var h, c := history + items, m.owner[it.node];
    LatestAppend(h, it, it.node);
    assert c in m.nodes;
    assert Latest(h, it.node).Says? ==> it.node in vs[c].status && vs[c].status[it.node] == Latest(h, it.node).ok;
    assert (items + [it])[..|items|] == items && (items + [it])[..|items| + 1] == items + [it];
    assert history + (items + [it]) == h + [it];
  }

  lemma TracksKeys(m: Mapping, vs: Views, history: seq<Item>)
    requires m.Valid() && Tracks(m, vs, history)
    ensures vs.Keys == m.nodes.Keys
  {
  }

  lemma AllOkSame(m: Mapping, vs: Views, r: Views, c: Name)
    requires c in m.nodes && c in vs && c in r && r[c] == vs[c]
    ensures AllOk(m, vs, c) == AllOk(m, r, c)
  {
  }

  lemma TracksSame(m: Mapping, vs: Views, r: Views, history: seq<Item>)
    requires m.Valid() && Tracks(m, vs, history) && r.Keys == vs.Keys
    requires forall c :: c in m.nodes ==> c in vs && r[c].status == vs[c].status
    ensures Tracks(m, r, history)
  {
  }

  lemma FreshTracks(m: Mapping)
    requires m.Valid()
    ensures Tracks(m, Fresh(m), [])
    ensures (forall c :: c in m.nodes ==> m.nodes[c] != []) ==> Sampled(m, Fresh(m), [])
  {
    forall c | c in m.nodes && m.nodes[c] != [] ensures !Aggregate(m, [], c) {
      var n := m.nodes[c][0];
      assert n in m.nodes[c];
    }
  }

  // ---- the subscriber ----

  /** The child a node reports for. */
  datatype Reporter = Nobody | For(child: Name)

  ghost predicate Listed(order: seq<Name>, nodes: map<Name, seq<Node>>) {
    forall i :: 0 <= i < |order| ==> order[i] in nodes
  }

  /** The last child of the list that lists node n. */
  ghost function LastLister(order: seq<Name>, nodes: map<Name, seq<Node>>, n: Node): Reporter
    requires Listed(order, nodes)
  {
    if order == [] then Nobody
    else if n in nodes[order[|order| - 1]] then For(order[|order| - 1])
    else LastLister(order[..|order| - 1], nodes, n)
  }

  ghost predicate OwnedAs(owner: map<Node, Name>, order: seq<Name>, nodes: map<Name, seq<Node>>)
    requires Listed(order, nodes)
  {
    forall n :: LastLister(order, nodes, n) == if n in owner then For(owner[n]) else Nobody
  }

  class HealthFeed {
    const nodes: map<Name, seq<Node>>
    var nodeToChild: map<Node, Name>
    var views: Views

    function Map(): Mapping
      reads this
    {
      Mapping(nodes, nodeToChild)
    }

    ghost predicate Valid()
      reads this
    {
      Map().Valid() && views.Keys == nodes.Keys
    }

    /** order lists the children in map order; a node listed twice reports for the later child. */
    constructor (order: seq<Name>, nodes: map<Name, seq<Node>>)
      requires Listed(order, nodes) && forall c :: c in nodes ==> c in order
      ensures Valid() && this.nodes == nodes
      ensures forall c :: c in nodes ==> views[c] == View(map[], false)
      ensures OwnedAs(nodeToChild, order, nodes)
    {
      var owner: map<Node, Name> := map[];
      var vs: Views := map[];
      for i := 0 to |order|
        invariant forall c :: c in vs <==> c in order[..i]
        invariant forall c :: c in vs ==> vs[c] == View(map[], false)
        invariant OwnedAs(owner, order[..i], nodes)
      {
        vs := vs[order[i] := View(map[], false)];
        ghost var before := owner;
        owner := ListNodes(owner, order[i], nodes[order[i]]);
        OwnerStep(before, owner, order[..i], nodes, order[i], order[..i + 1]);
      }
      assert order[..|order|] == order;
      OwnerValid(owner, order, nodes);
      forall c | c in order ensures c in nodes {
        assert order[Index(order, c)] == c;
      }
      assert forall c: Name :: c in vs <==> c in order;
      assert forall c: Name :: c in vs <==> c in nodes;
      assert vs.Keys == nodes.Keys;
      this.nodes := nodes;
      nodeToChild := owner;
      views := vs;
    }

    /** One report; the callbacks it fires, in order. */
    method Dispatch(items: seq<Item>) returns (out: seq<Signal>)
      requires Valid()
      modifies this
      ensures Valid() && Map() == old(Map())
      ensures (views, out) == Dispatched(Map(), old(views), items)
    {
      ghost var vs0 := views;
      var touched: seq<Name> := [];
      for i := 0 to |items|
        invariant Valid() && Map() == old(Map())
        invariant (views, touched) == Absorbed(Map(), vs0, items[..i])
      {
        assert items[..i + 1][..i] == items[..i];
        var it := items[i];
        if it.node !in nodeToChild { continue; }
        var ok;
        match it.status {
          case OK => ok := true;
          case ERROR => ok := false;
          case FATAL => ok := false;
          case OTHER => continue;
        }
        var c := nodeToChild[it.node];
        var view := views[c];
        if it.node in view.status && view.status[it.node] == ok { continue; }
        views := views[c := view.(status := view.status[it.node := ok])];
        touched := touched + [c];
      }
      assert items[..|items|] == items;
      ghost var vs1 := views;
      out := [];
      for i := 0 to |touched|
        invariant Valid() && Map() == old(Map())
        invariant (views, out) == Evaluated(Map(), vs1, touched[..i])
      {
        assert touched[..i + 1][..i] == touched[..i];
        var c := touched[i];
        assert c in touched;
        var flipped := Evaluate(c);
        if flipped { out := out + [Signal(c, views[c].alive)]; }
      }
      assert touched[..|touched|] == touched;
    }

    method Evaluate(child: Name) returns (flipped: bool)
      requires Valid() && child in nodes
      modifies this`views
      ensures Valid()
      ensures flipped <==> AllOk(Map(), old(views), child) != old(views)[child].alive
      ensures views == if flipped then old(views)[child := old(views)[child].(alive := !old(views)[child].alive)]
                       else old(views)
    {
      var view := views[child];
      var alive := true;
      var ns := nodes[child];
      for i := 0 to |ns|
        invariant alive && forall k :: 0 <= k < i ==> ns[k] in view.status && view.status[ns[k]]
      {
        var n := ns[i];
        if n !in view.status || !view.status[n] {
          assert n in ns;
          alive := false;
          break;
        }
      }
      if alive == view.alive { return false; }
      views := views[child := view.(alive := alive)];
      flipped := true;
    }
  }

  method ListNodes(before: map<Node, Name>, child: Name, ns: seq<Node>) returns (owner: map<Node, Name>)
    ensures forall n :: n in owner <==> n in ns || n in before
    ensures forall n :: n in owner ==> owner[n] == if n in ns then child else before[n]
  {
    owner := before;
    for j := 0 to |ns|
      invariant forall n :: n in owner <==> n in ns[..j] || n in before
      invariant forall n :: n in owner ==> owner[n] == if n in ns[..j] then child else before[n]
    {
      owner := owner[ns[j] := child];
    }
    assert ns[..|ns|] == ns;
  }

  lemma OwnerStep(before: map<Node, Name>, owner: map<Node, Name>, order: seq<Name>, nodes: map<Name, seq<Node>>,
                  child: Name, order': seq<Name>)
    requires Listed(order, nodes) && OwnedAs(before, order, nodes) && child in nodes && order' == order + [child]
    requires forall n :: n in owner <==> n in nodes[child] || n in before
    requires forall n :: n in owner ==> owner[n] == if n in nodes[child] then child else before[n]
    ensures Listed(order', nodes) && OwnedAs(owner, order', nodes)
  {
    assert order'[..|order'| - 1] == order;
    forall n ensures LastLister(order', nodes, n) == if n in owner then For(owner[n]) else Nobody {
      assert LastLister(order, nodes, n) == if n in before then For(before[n]) else Nobody;
    }
  }

  lemma OwnerValid(owner: map<Node, Name>, order: seq<Name>, nodes: map<Name, seq<Node>>)
    requires Listed(order, nodes) && (forall c :: c in nodes ==> c in order) && OwnedAs(owner, order, nodes)
    ensures Mapping(nodes, owner).Valid()
  {
    forall n | n in owner ensures owner[n] in nodes && n in nodes[owner[n]] {
      ListerLists(order, nodes, n);
    }
    forall c, n | c in nodes && n in nodes[c] ensures n in owner {
      ListedHasLister(order, nodes, c, n);
    }
  }

  lemma {:induction false} ListerLists(order: seq<Name>, nodes: map<Name, seq<Node>>, n: Node)
    requires Listed(order, nodes)
    ensures var r := LastLister(order, nodes, n); r == Nobody || (r.child in nodes && n in nodes[r.child])
  {
    if order != [] && n !in nodes[order[|order| - 1]] {
      ListerLists(order[..|order| - 1], nodes, n);
    }
  }

  lemma {:induction false} ListedHasLister(order: seq<Name>, nodes: map<Name, seq<Node>>, c: Name, n: Node)
    requires Listed(order, nodes) && c in order && c in nodes && n in nodes[c]
    ensures LastLister(order, nodes, n) != Nobody
  {
    if n !in nodes[order[|order| - 1]] {
      ListedHasLister(order[..|order| - 1], nodes, c, n);
    }
  }
}
