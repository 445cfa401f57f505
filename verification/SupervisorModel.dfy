/** The supervisor as a state machine over all children: what each entry point of the
    node does to the child table and to the processes it owns. */
module SupervisorModel {
  import opened Sequences
  import opened SupervisorPolicy

  /** A declared child; gated children wait for a health report before they count as running. */
  datatype Child = Child(spec: ChildSpec, gated: bool)

  /** An accepted configuration: the child table in map order and in dependency order. */
  datatype Config = Config(children: map<Name, Child>, order: seq<Name>, topo: seq<Name>) {
    function Deps(n: Name): seq<Name>
      requires n in children
    {
      children[n].spec.dependsOn
    }

    ghost predicate Valid() {
      && NoRepeats(order) && (forall n :: n in order <==> n in children)
      && NoRepeats(topo) && (forall n :: n in topo <==> n in children)
      && (forall n, d :: n in children && d in Deps(n) ==> d in children && Index(topo, d) < Index(topo, n))
    }
  }

  datatype Kid = Kid(state: ChildState, pid: int, completed: bool)

  /** What the operating system answers, call by call: clock readings, waitpid results, spawns. */
  datatype Wait = Exited(ok: bool) | StillAlive | Gone | Failed

  datatype Env = Env(clock: nat -> int, wait: nat -> Wait, spawns: nat -> bool)

  /** os holds the processes started and neither killed nor reaped, with the child each was
      started for; the counters say how far the environment's answers have been used. */
  datatype World = World(kids: map<Name, Kid>, os: map<int, Name>, clocks: nat, waits: nat, tries: nat) {
    function Phase(n: Name): Phase
      requires n in kids
    {
      kids[n].state.phase
    }

    function Put(n: Name, k: Kid): World {
      this.(kids := kids[n := k])
    }

    ghost predicate Of(c: Config) {
      c.Valid() && kids.Keys == c.children.Keys
    }
  }

  function Initial(c: Config): World {
    World(map n | n in c.children :: Kid(INITIAL, -1, false), map[], 0, 0, 0)
  }

  // ---- processes ----

  /** kill_child, and equally the bookkeeping after waitpid reaped the child. */
  function Release(w: World, n: Name): (r: World)
    requires n in w.kids
    ensures r.kids.Keys == w.kids.Keys
  {
    if w.kids[n].pid <= 0 then w
    else w.(kids := w.kids[n := w.kids[n].(pid := -1)], os := w.os - {w.kids[n].pid})
  }

  /** spawn_child: on success the child owns a process number never used before. */
  function TrySpawn(e: Env, w: World, n: Name): (r: World)
    requires n in w.kids
    ensures r.kids.Keys == w.kids.Keys
  {
    if e.spawns(w.tries) then
      w.(kids := w.kids[n := w.kids[n].(pid := w.tries + 1)], os := w.os[w.tries + 1 := n], tries := w.tries + 1)
    else w.(tries := w.tries + 1)
  }

  // ---- events ----

  /** The transition of one child, and the oneshot completion mark. */
  function Moved(c: Config, e: Env, w: World, n: Name, ev: Event): (r: (World, Action))
    requires n in w.kids && n in c.children
    ensures r.0.kids.Keys == w.kids.Keys
  {
    var kid := w.kids[n];
    var (st, a) := Step(c.children[n].spec, kid.state, ev, e.clock(w.clocks));
    var done := kid.completed || (c.children[n].spec.oneshot && ev == ExitedOk && st.phase == Stopped);
    (w.(kids := w.kids[n := Kid(st, kid.pid, done)], clocks := w.clocks + 1), a)
  }

  predicate DepHit(c: Config, affected: set<Name>, n: Name)
    requires n in c.children
  {
    exists d :: d in c.Deps(n) && d in affected
  }

  /** The one-pass scan of the first k names for children affected by `name`. */
  function Scan(c: Config, name: Name, k: nat): (set<Name>, seq<Name>)
    requires c.Valid() && k <= |c.topo|
  {
    if k == 0 then ({name}, [])
    else
      var (affected, out) := Scan(c, name, k - 1);
      var m := c.topo[k - 1];
      if DepHit(c, affected, m) && m !in affected then (affected + {m}, out + [m])
      else (affected, out)
  }

  lemma {:induction false} ScanBasics(c: Config, name: Name, k: nat)
    requires c.Valid() && k <= |c.topo|
    ensures var (affected, out) := Scan(c, name, k);
      && name in affected && name !in out
      && (forall m :: m in affected <==> m == name || m in out)
      && (forall m :: m in out ==> m in c.topo[..k])
  {
    if k > 0 {
      ScanBasics(c, name, k - 1);
    }
  }

  function Dependents(c: Config, name: Name): (out: seq<Name>)
    requires c.Valid()
    ensures name !in out && forall m :: m in out ==> m in c.children
  {
    ScanBasics(c, name, |c.topo|);
    Scan(c, name, |c.topo|).1
  }

  /** One dependent steps aside: its completion mark is cleared and its process stopped. */
  function YieldOne(c: Config, e: Env, w: World, n: Name): (r: World)
    requires n in w.kids && n in c.children
    ensures r.kids.Keys == w.kids.Keys
    ensures forall m :: m in w.kids && m != n ==> r.kids[m] == w.kids[m]
  {
    var w0 := w.Put(n, w.kids[n].(completed := false));
    if w0.Phase(n) == Stopped || w0.Phase(n) == Fatal then w0
    else
      var (w1, a) := Moved(c, e, w0, n, DepRestarting);
      if a == Kill then Release(w1, n) else w1
  }

  /** The dependents step aside from the last to the first. */
  function YieldAll(c: Config, e: Env, w: World, ns: seq<Name>): (r: World)
    requires forall n :: n in ns ==> n in w.kids && n in c.children
    ensures r.kids.Keys == w.kids.Keys
    ensures forall m :: m in w.kids && m !in ns ==> r.kids[m] == w.kids[m]
    decreases |ns|
  {
    if ns == [] then w
    else YieldAll(c, e, YieldOne(c, e, w, ns[|ns| - 1]), ns[..|ns| - 1])
  }

  /** Bounds the nesting of feed: a due respawn may fail, and that failure is fed in turn. */
  function Rank(phase: Phase, ev: Event): nat {
    if phase == Backoff && ev == Tick then 2
    else if phase.Live() && IsDeath(ev) then 1
    else 0
  }

  predicate IsDeadSource(before: Phase, after: Phase) {
    before.Live() && (after == Backoff || after == Fatal)
  }

  /** The cascade: a child that just died makes its dependents step aside. */
  function Cascaded(c: Config, e: Env, w: World, n: Name, before: Phase): (r: World)
    requires w.Of(c) && n in c.children
    ensures r.kids.Keys == w.kids.Keys && r.kids[n] == w.kids[n]
  {
    if IsDeadSource(before, w.Phase(n)) then YieldAll(c, e, w, Dependents(c, n)) else w
  }

  /** A due spawn: the SPAWNED event, then the attempt. */
  function Respawned(c: Config, e: Env, w: World, n: Name): (r: World)
    requires w.Of(c) && n in c.children
    ensures r.kids.Keys == w.kids.Keys
    ensures r.Phase(n) == if w.Phase(n) == Stopped then Starting else w.Phase(n)
  {
    TrySpawn(e, Moved(c, e, w, n, Spawned).0, n)
  }

  /** feed: the transition, the cascade if the child just died, then the action. */
  function Feed(c: Config, e: Env, w: World, n: Name, ev: Event): (r: World)
    requires w.Of(c) && n in c.children
    ensures r.kids.Keys == w.kids.Keys
    decreases Rank(w.Phase(n), ev)
  {
    var (w1, a) := Moved(c, e, w, n, ev);
    var w2 := Cascaded(c, e, w1, n, w.Phase(n));
    match a
    case SpawnAt(at) =>
      if at > e.clock(w.clocks) then w2
      else
        var w3 := Respawned(c, e, w2, n);
        if e.spawns(w2.tries) then w3 else Feed(c, e, w3, n, ExitedCrash)
    case Kill => Release(w2, n)
    case MarkFatal => Release(w2, n)
    case NoAction => w2
  }

  // ---- the tick ----

  function DepsRunning(c: Config, w: World, n: Name): bool
    requires n in c.children
  {
    forall d :: d in c.Deps(n) ==> d in w.kids && w.Phase(d) == Running
  }

  function BringUpOne(c: Config, e: Env, w: World, n: Name): (r: World)
    requires w.Of(c) && n in c.children
    ensures r.kids.Keys == w.kids.Keys
  {
    if w.Phase(n) != Stopped || w.kids[n].completed || !DepsRunning(c, w, n) then w
    else
      var w1 := Respawned(c, e, w, n);
      if e.spawns(w.tries) then w1 else Feed(c, e, w1, n, ExitedCrash)
  }

  /** try_bring_up over the first k names of the dependency order. */
  function BringUp(c: Config, e: Env, w: World, k: nat): (r: World)
    requires w.Of(c) && k <= |c.topo|
    ensures r.kids.Keys == w.kids.Keys
  {
    if k == 0 then w else BringUpOne(c, e, BringUp(c, e, w, k - 1), c.topo[k - 1])
  }

  /** The process poll of one child: what waitpid says, and whether the visit ends there. */
  function Poll(c: Config, e: Env, w: World, n: Name, now: int): (r: (World, bool))
    requires w.Of(c) && n in c.children
    ensures r.0.kids.Keys == w.kids.Keys
  {
    if w.kids[n].pid <= 0 then (w, false)
    else
      var w1 := w.(waits := w.waits + 1);
      var child, st := c.children[n], w.kids[n].state;
      match e.wait(w.waits)
      case Exited(ok) => (Feed(c, e, Release(w1, n), n, if ok then ExitedOk else ExitedCrash), true)
      case Gone => (Feed(c, e, Release(w1, n), n, ExitedCrash), true)
      case Failed => (w1, false)
      case StillAlive =>
        if st.phase == Starting then
          (if child.gated then w1 else Feed(c, e, w1, n, AliveSeen), false)
        else if st.phase == Running && now - st.since >= child.spec.policy.windowNs then
          (Feed(c, e, w1, n, RunningStable), false)
        else (w1, false)
  }

  function CheckBackoff(c: Config, e: Env, w: World, n: Name, now: int): (r: World)
    requires w.Of(c) && n in c.children
    ensures r.kids.Keys == w.kids.Keys
  {
    if w.Phase(n) == Backoff && now >= w.kids[n].state.resumeAt then Feed(c, e, w, n, Tick) else w
  }

  function CheckTimeout(c: Config, e: Env, w: World, n: Name, now: int): (r: World)
    requires w.Of(c) && n in c.children
    ensures r.kids.Keys == w.kids.Keys
  {
    if w.Phase(n) == Starting && w.kids[n].pid > 0 &&
       now - w.kids[n].state.since > c.children[n].spec.policy.startupTimeoutNs
    then Feed(c, e, Release(w, n), n, StartTimeout) else w
  }

  function Visit(c: Config, e: Env, w: World, n: Name, now: int): (r: World)
    requires w.Of(c) && n in c.children
    ensures r.kids.Keys == w.kids.Keys
  {
    var (w1, over) := Poll(c, e, w, n, now);
    if over then w1 else CheckTimeout(c, e, CheckBackoff(c, e, w1, n, now), n, now)
  }

  function VisitAll(c: Config, e: Env, w: World, now: int, k: nat): (r: World)
    requires w.Of(c) && k <= |c.order|
    ensures r.kids.Keys == w.kids.Keys
  {
    if k == 0 then w else Visit(c, e, VisitAll(c, e, w, now, k - 1), c.order[k - 1], now)
  }

  function Ticked(c: Config, e: Env, w: World): (r: World)
    requires w.Of(c)
    ensures r.kids.Keys == w.kids.Keys
  {
    var now := e.clock(w.clocks);
    BringUp(c, e, VisitAll(c, e, w.(clocks := w.clocks + 1), now, |c.order|), |c.topo|)
  }

  function Activated(c: Config, e: Env): World
    requires c.Valid()
  {
    BringUp(c, e, Initial(c), |c.topo|)
  }
}
