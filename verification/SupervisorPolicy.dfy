/** The per-child restart state machine: events in, state change and action out. */
module SupervisorPolicy {
  /** Children are told apart by name only; the text itself is never looked at. */
  type Name = int

  datatype RestartPolicy = RestartPolicy(
    maxRestarts: int,
    windowNs: int,
    backoffBaseNs: int,
    backoffMaxNs: int,
    startupTimeoutNs: int)

  datatype ChildSpec = ChildSpec(name: Name, dependsOn: seq<Name>, oneshot: bool, policy: RestartPolicy)

  datatype Phase = Stopped | Starting | Running | Backoff | Fatal {
    /** The phases that own a process. */
    predicate Live() { Starting? || Running? }

    predicate Active() { Live() || Backoff? }
  }

  datatype ChildState = ChildState(phase: Phase, restarts: int, since: int, resumeAt: int, step: int)

  const INITIAL := ChildState(Stopped, 0, 0, 0, 0)

  datatype Event =
    | Spawned
    | AliveSeen      // a gate-less child seen alive
    | ExitedOk
    | ExitedCrash
    | StartTimeout
    | DepRestarting
    | RunningStable
    | Tick
    | HealthOk
    | HealthLost

  datatype Action = NoAction | SpawnAt(at: int) | Kill | MarkFatal

  // ---- backoff ----

  function Doubled(base: int, k: nat): int {
    if k == 0 then base else 2 * Doubled(base, k - 1)
  }

  function Min(a: int, b: int): int {
    if a < b then a else b
  }

  /** The wait before restart number step + 1: step 0 is not capped, later ones are
      base * 2^step capped at the maximum (a non-positive base never reaches the cap
      unless its first doubling does). */
  function Delay(p: RestartPolicy, step: int): int {
    if step <= 0 then p.backoffBaseNs
    else if p.backoffBaseNs > 0 then Min(Doubled(p.backoffBaseNs, step), p.backoffMaxNs)
    else if 2 * p.backoffBaseNs >= p.backoffMaxNs then p.backoffMaxNs
    else Doubled(p.backoffBaseNs, step)
  }

  lemma {:induction false} DoubledMonotone(base: int, j: nat, k: nat)
    requires j <= k
    ensures base > 0 ==> 0 < Doubled(base, j) <= Doubled(base, k)
    ensures base <= 0 ==> 0 >= Doubled(base, j) >= Doubled(base, k)
  {
    if k > 0 {
      if j == k {
        DoubledMonotone(base, j - 1, k - 1);
      } else {
        DoubledMonotone(base, j, k - 1);
      }
    }
  }

  method BackoffNs(p: RestartPolicy, step: int) returns (v: int)
    ensures v == Delay(p, step)
  {
    if step <= 0 { return p.backoffBaseNs; }
    v := p.backoffBaseNs;
    for i := 0 to step
      invariant v == Doubled(p.backoffBaseNs, i)
      invariant i > 0 ==> v < p.backoffMaxNs && 2 * p.backoffBaseNs < p.backoffMaxNs
    {
      v := v * 2;
      DoubledMonotone(p.backoffBaseNs, i + 1, step);
      DoubledMonotone(p.backoffBaseNs, 1, i + 1);
      if v >= p.backoffMaxNs {
        DoubledMonotone(p.backoffBaseNs, 0, i);
        return p.backoffMaxNs;
      }
    }
    DoubledMonotone(p.backoffBaseNs, 1, step);
    return if v < p.backoffMaxNs then v else p.backoffMaxNs;
  }

  // ---- the transition table ----

  /** A death: one more restart is spent; over budget the child is FATAL for good. */
  function Died(p: RestartPolicy, st: ChildState, now: int, respawn: bool): (ChildState, Action) {
    if st.restarts + 1 > p.maxRestarts then
      (st.(phase := Fatal, restarts := st.restarts + 1, since := now), MarkFatal)
    else
      var at := now + Delay(p, st.step);
      (ChildState(Backoff, st.restarts + 1, now, at, st.step + 1), if respawn then SpawnAt(at) else Kill)
  }

  function Entered(st: ChildState, phase: Phase, now: int): ChildState {
    st.(phase := phase, since := now)
  }

  /** The events that can end a live phase. */
  predicate IsDeath(ev: Event) {
    ev == ExitedOk || ev == ExitedCrash || ev == StartTimeout || ev == HealthLost
  }

  function Step(spec: ChildSpec, st: ChildState, ev: Event, now: int): (r: (ChildState, Action))
    ensures r.1.SpawnAt? ==>
      || (st.phase == Backoff && ev == Tick && r.0.phase == Starting)
      || (st.phase.Live() && IsDeath(ev) && r.0.phase == Backoff)
  {
    match (st.phase, ev)
    case (Stopped, Spawned) => (Entered(st, Starting, now), NoAction)
    case (Starting, AliveSeen) => (Entered(st, Running, now), NoAction)
    case (Starting, HealthOk) => (Entered(st, Running, now), NoAction)
    case (Starting, ExitedOk) =>
      if spec.oneshot then (ChildState(Stopped, 0, now, st.resumeAt, 0), NoAction)
      else Died(spec.policy, st, now, true)
    case (Running, ExitedOk) =>
      if spec.oneshot then (ChildState(Stopped, 0, now, st.resumeAt, 0), NoAction)
      else Died(spec.policy, st, now, true)
    case (Starting, ExitedCrash) => Died(spec.policy, st, now, true)
    case (Starting, StartTimeout) => Died(spec.policy, st, now, true)
    case (Running, ExitedCrash) => Died(spec.policy, st, now, true)
    case (Running, HealthLost) => Died(spec.policy, st, now, false)
    case (Starting, DepRestarting) => (Entered(st, Stopped, now), Kill)
    case (Running, DepRestarting) => (Entered(st, Stopped, now), Kill)
    case (Backoff, DepRestarting) => (Entered(st, Stopped, now), NoAction)
    case (Running, RunningStable) => (st.(restarts := 0, step := 0), NoAction)
    case (Backoff, Tick) =>
      if now >= st.resumeAt then (Entered(st, Starting, now), SpawnAt(now)) else (st, NoAction)
    case _ => (st, NoAction)
  }

  method EnterBackoff(p: RestartPolicy, st0: ChildState, now: int, respawn: bool)
    returns (st: ChildState, a: Action)
    ensures (st, a) == Died(p, st0, now, respawn)
  {
    st := st0.(restarts := st0.restarts + 1);
    if st.restarts > p.maxRestarts {
      st := st.(phase := Fatal);
      st := st.(since := now);
      a := MarkFatal;
      return;
    }
    st := st.(phase := Backoff);
    st := st.(since := now);
    var wait := BackoffNs(p, st.step);
    st := st.(resumeAt := now + wait);
    st := st.(step := st.step + 1);
    a := if respawn then SpawnAt(st.resumeAt) else Kill;
  }

  /** st0 is the child's state on entry, st the state left behind. */
  method Transition(spec: ChildSpec, st0: ChildState, ev: Event, now: int)
    returns (st: ChildState, a: Action)
    ensures (st, a) == Step(spec, st0, ev, now)
  {
    st, a := st0, NoAction;
    match st.phase {
      case Stopped =>
        if ev == Spawned {
          st := st.(phase := Starting);
          st := st.(since := now);
        }
      case Starting =>
        match ev {
          case AliveSeen => st := st.(phase := Running); st := st.(since := now);
          case HealthOk => st := st.(phase := Running); st := st.(since := now);
          case ExitedOk =>
            if spec.oneshot {
              st := st.(phase := Stopped);
              st := st.(since := now, restarts := 0, step := 0);
            } else {
              st, a := EnterBackoff(spec.policy, st, now, true);
            }
          case ExitedCrash => st, a := EnterBackoff(spec.policy, st, now, true);
          case StartTimeout => st, a := EnterBackoff(spec.policy, st, now, true);
          case DepRestarting =>
            st := st.(phase := Stopped);
            st, a := st.(since := now), Kill;
          case _ =>
        }
      case Running =>
        match ev {
          case ExitedOk =>
            if spec.oneshot {
              st := st.(phase := Stopped);
              st := st.(since := now, restarts := 0, step := 0);
            } else {
              st, a := EnterBackoff(spec.policy, st, now, true);
            }
          case ExitedCrash => st, a := EnterBackoff(spec.policy, st, now, true);
          case HealthLost => st, a := EnterBackoff(spec.policy, st, now, false);
          case DepRestarting =>
            st := st.(phase := Stopped);
            st, a := st.(since := now), Kill;
          case RunningStable => st := st.(restarts := 0, step := 0);
          case _ =>
        }
      case Backoff =>
        if ev == Tick && now >= st.resumeAt {
          st := st.(phase := Starting);
          st, a := st.(since := now), SpawnAt(now);
          return;
        }
        if ev == DepRestarting {
          st := st.(phase := Stopped);
          st := st.(since := now);
        }
      case Fatal =>
    }
  }

  // ---- the budget, over all events ----

  function Max0(n: int): nat {
    if n < 0 then 0 else n
  }

  /** FATAL exactly when the budget is overspent; otherwise the backoff step equals the
      restarts spent, and a waiting child waits exactly the delay of its last restart. */
  predicate Budgeted(p: RestartPolicy, st: ChildState) {
    && st.restarts >= 0
    && (st.phase == Fatal <==> st.restarts > Max0(p.maxRestarts))
    && (st.phase != Fatal ==> st.step == st.restarts)
    && (st.phase == Backoff ==> st.restarts > 0 && st.resumeAt - st.since == Delay(p, st.restarts - 1))
  }

  lemma BudgetKept(spec: ChildSpec, st: ChildState, ev: Event, now: int)
    requires Budgeted(spec.policy, st)
    ensures Budgeted(spec.policy, Step(spec, st, ev, now).0)
  {
  }

  /** Policies under which no backoff is over before it starts. */
  predicate Paced(p: RestartPolicy) {
    p.maxRestarts <= 0 || (p.backoffBaseNs > 0 && (p.maxRestarts == 1 || p.backoffMaxNs > 0))
  }

  lemma PacedDelay(p: RestartPolicy, st: ChildState)
    requires Paced(p) && Budgeted(p, st) && st.phase != Fatal && st.restarts < p.maxRestarts
    ensures Delay(p, st.step) > 0
  {
    DoubledMonotone(p.backoffBaseNs, 0, st.restarts);
  }

  /** The converse: an unpaced policy has a step it can reach whose delay is already over. */
  lemma UnpacedDelay(p: RestartPolicy)
    requires !Paced(p)
    ensures exists k: nat :: k < p.maxRestarts && Delay(p, k) <= 0
  {
    if p.backoffBaseNs <= 0 {
      assert Delay(p, 0) <= 0;
    } else {
      assert Delay(p, 1) <= 0;
    }
  }

  /** No wait exceeds the maximum exactly if the base does not: step 0 is not capped. */
  lemma CappedIff(p: RestartPolicy)
    ensures (forall k: nat :: Delay(p, k) <= p.backoffMaxNs) <==> p.backoffBaseNs <= p.backoffMaxNs
  {
    assert Delay(p, 0) == p.backoffBaseNs;
    forall k: nat | p.backoffBaseNs <= p.backoffMaxNs
      ensures Delay(p, k) <= p.backoffMaxNs
    {
      DoubledMonotone(p.backoffBaseNs, 0, k);
    }
  }

  /** Every wait is min(base * 2^k, max), for positive and other bases alike, exactly if the
      base is at most the maximum. */
  lemma DelayIff(p: RestartPolicy)
    ensures (forall k: nat :: Delay(p, k) == Min(Doubled(p.backoffBaseNs, k), p.backoffMaxNs)) <==>
            p.backoffBaseNs <= p.backoffMaxNs
  {
    assert Delay(p, 0) == p.backoffBaseNs && Doubled(p.backoffBaseNs, 0) == p.backoffBaseNs;
    forall k: nat | p.backoffBaseNs <= p.backoffMaxNs
      ensures Delay(p, k) == Min(Doubled(p.backoffBaseNs, k), p.backoffMaxNs)
    {
      DoubledMonotone(p.backoffBaseNs, 0, k);
      if k > 0 {
        DoubledMonotone(p.backoffBaseNs, 1, k);
      }
      if p.backoffBaseNs == 0 {
        DoubledZero(k);
      }
    }
  }

  lemma {:induction false} DoubledZero(k: nat)
    ensures Doubled(0, k) == 0
  {
    if k > 0 {
      DoubledZero(k - 1);
    }
  }
}
