/** Priority scheduling with preemption, first come first served among equals. */
module TaskScheduler {
  import opened Options

  datatype Task = Task(id: int, name: string, priority: int, preemptible: bool)

  /** A submission: the same task may be submitted more than once, the ticket tells which. */
  datatype Job = Job(task: Task, ticket: nat) {
    function Priority(): int { task.priority }
  }

  datatype Sched = Sched(running: Option<Job>, ready: seq<Job>, done: seq<Job>, count: nat) {
    /** Everything not completed, in the order in which it would now run. */
    function Pending(): seq<Job> {
      (if running.Some? then [running.value] else []) + ready
    }

    /** Everything ever submitted, in the order in which it did run or would now run. */
    function All(): seq<Job> { done + Pending() }
  }

  // ---- the operations on values ----

  /** How many jobs at the front are ranked at least as high. */
  function Place(q: seq<Job>, p: int): (k: nat)
    ensures k <= |q|
  {
    if q == [] || q[0].Priority() < p then 0 else 1 + Place(q[1..], p)
  }

  function Inserted(q: seq<Job>, j: Job): seq<Job> {
    var k := Place(q, j.Priority());
    q[..k] + [j] + q[k..]
  }

  function Advanced(s: Sched): Sched {
    if s.ready == [] then s else s.(running := Some(s.ready[0]), ready := s.ready[1..])
  }

  predicate Preempts(s: Sched, t: Task) {
    s.running.Some? && t.priority > s.running.value.Priority() && s.running.value.task.preemptible
  }

  function Submitted(s: Sched, t: Task): Sched {
    var j := Job(t, s.count);
    if Preempts(s, t) then
      Sched(Some(j), [s.running.value] + s.ready, s.done, s.count + 1)
    else
      var queued := s.(ready := Inserted(s.ready, j), count := s.count + 1);
      if s.running.None? then Advanced(queued) else queued
  }

  function Completed(s: Sched, id: int): Sched {
    if s.running.None? || s.running.value.task.id != id then s
    else Advanced(s.(running := None, done := s.done + [s.running.value]))
  }

  datatype Call = Submit(task: Task) | Complete(id: int)

  function Apply(s: Sched, c: Call): Sched {
    match c
    case Submit(t) => Submitted(s, t)
    case Complete(id) => Completed(s, id)
  }

  const IDLE := Sched(None, [], [], 0)

  function Run(calls: seq<Call>): Sched {
    if calls == [] then IDLE else Apply(Run(calls[..|calls| - 1]), calls[|calls| - 1])
  }

  /** The jobs a run submits, first to last. */
  function Submissions(calls: seq<Call>): (jobs: seq<Job>)
    ensures forall i :: 0 <= i < |jobs| ==> jobs[i].ticket == i
  {
    if calls == [] then []
    else
      var before := Submissions(calls[..|calls| - 1]);
      var c := calls[|calls| - 1];
      if c.Submit? then before + [Job(c.task, |before|)] else before
  }

  // ---- the invariant ----

  predicate Sorted(q: seq<Job>) {
    forall i, j :: 0 <= i < j < |q| ==> q[i].Priority() >= q[j].Priority()
  }

  /** Equals stand in the order of their submission. */
  predicate Fifo(q: seq<Job>) {
    forall i, j :: 0 <= i < j < |q| && q[i].Priority() == q[j].Priority() ==> q[i].ticket < q[j].ticket
  }

  predicate Inv(s: Sched) {
    && Sorted(s.ready)
    && Fifo(s.All())
    && (s.running.None? ==> s.ready == [])
    && (s.running.Some? && s.running.value.task.preemptible ==>
          forall i :: 0 <= i < |s.ready| ==> s.ready[i].Priority() <= s.running.value.Priority())
    && forall i :: 0 <= i < |s.All()| ==> s.All()[i].ticket < s.count
  }

  lemma {:induction false} PlaceSplits(q: seq<Job>, p: int)
    requires Sorted(q)
    ensures forall i :: 0 <= i < Place(q, p) ==> q[i].Priority() >= p
    ensures forall i :: Place(q, p) <= i < |q| ==> q[i].Priority() < p
  {
    if q != [] && q[0].Priority() >= p {
      PlaceSplits(q[1..], p);
      forall i | 0 <= i < |q|
        ensures if i < Place(q, p) then q[i].Priority() >= p else q[i].Priority() < p
      {
        if i > 0 { assert q[i] == q[1..][i - 1]; }
      }
    }
  }

  lemma InsertedSorted(q: seq<Job>, j: Job)
    requires Sorted(q)
    ensures Sorted(Inserted(q, j))
  {
    PlaceSplits(q, j.Priority());
  }

  /** A newcomer goes in with only lower ranked jobs behind it. */
  lemma FifoInsert(a: seq<Job>, b: seq<Job>, j: Job)
    requires Fifo(a + b)
    requires forall i :: 0 <= i < |a| ==> a[i].ticket < j.ticket
    requires forall i :: 0 <= i < |b| ==> b[i].Priority() < j.Priority()
    ensures Fifo(a + [j] + b)
  {
    var n, was, q := |a|, a + b, a + [j] + b;
    forall y | n < y < |q|
      ensures q[y].Priority() < j.Priority()
    {
      assert q[y] == b[y - n - 1];
    }
    forall x, y | 0 <= x < y < |q| && q[x].Priority() == q[y].Priority()
      ensures q[x].ticket < q[y].ticket
    {
      if x != n && y != n {
        var x', y' := if x < n then x else x - 1, if y < n then y else y - 1;
        assert q[x] == was[x'] && q[y] == was[y'];
      }
    }
  }

  lemma OrderGrows(all: seq<Job>, n: nat, j: Job)
    requires n <= |all| && Fifo(all)
    requires forall i :: 0 <= i < |all| ==> all[i].ticket < j.ticket
    requires forall i :: n <= i < |all| ==> all[i].Priority() < j.Priority()
    ensures
      var r := all[..n] + [j] + all[n..];
      && Fifo(r)
      && (forall i :: 0 <= i < |r| ==> r[i].ticket < j.ticket + 1)
      && multiset(r) == multiset(all) + multiset{j}
  {
    assert all == all[..n] + all[n..];
    FifoInsert(all[..n], all[n..], j);
  }

  lemma Splice(f: seq<Job>, q: seq<Job>, k: nat, j: Job)
    requires k <= |q|
    ensures f + (q[..k] + [j] + q[k..]) == (f + q)[..|f| + k] + [j] + (f + q)[|f| + k..]
  {
    assert (f + q)[..|f| + k] == f + q[..k];
    assert (f + q)[|f| + k..] == q[k..];
  }

  /** What is ahead of the queue in the overall order. */
  function Front(s: Sched): seq<Job> {
    s.done + if s.running.Some? then [s.running.value] else []
  }

  lemma QueuedAt(s: Sched, j: Job)
    requires Sorted(s.ready)
    ensures
      var n := |Front(s)| + Place(s.ready, j.Priority());
      && n <= |s.All()|
      && s.(ready := Inserted(s.ready, j)).All() == s.All()[..n] + [j] + s.All()[n..]
      && forall i :: n <= i < |s.All()| ==> s.All()[i].Priority() < j.Priority()
  {
    hide Sorted, Place;
    var q, k, f := s.ready, Place(s.ready, j.Priority()), Front(s);
    assert s.All() == f + q;
    PlaceSplits(q, j.Priority());
    assert s.(ready := Inserted(q, j)).All() == f + Inserted(q, j);
    Splice(f, q, k, j);
    forall i | |f| + k <= i < |s.All()|
      ensures s.All()[i].Priority() < j.Priority()
    {
      assert s.All()[i] == q[i - |f|];
    }
  }

  lemma AdvancedAll(s: Sched)
    requires s.running.None?
    ensures Advanced(s).All() == s.All()
  {
  }

  /** Where a submission lands in the overall order. */
  lemma SubmittedAt(s: Sched, t: Task) returns (n: nat)
    requires Inv(s)
    ensures |s.done| <= n <= |s.All()|
    ensures Submitted(s, t).All() == s.All()[..n] + [Job(t, s.count)] + s.All()[n..]
    ensures forall i :: n <= i < |s.All()| ==> s.All()[i].Priority() < t.priority
  {
    hide Fifo, Sorted, Inserted, Advanced, Place;
    var j, q := Job(t, s.count), s.ready;
    if Preempts(s, t) {
      n := |s.done|;
      assert s.All()[..n] == s.done && s.All()[n..] == [s.running.value] + q;
    } else {
      QueuedAt(s, j);
      n := |Front(s)| + Place(q, t.priority);
      var queued := s.(ready := Inserted(q, j));
      assert s.(ready := Inserted(q, j), count := s.count + 1).All() == queued.All();
      if s.running.None? {
        AdvancedAll(s.(ready := Inserted(q, j), count := s.count + 1));
      }
    }
  }

  lemma SubmitKeepsOrder(s: Sched, t: Task)
    requires Inv(s)
    ensures
      var r := Submitted(s, t);
      && Fifo(r.All())
      && (forall i :: 0 <= i < |r.All()| ==> r.All()[i].ticket < r.count)
      && multiset(r.All()) == multiset(s.All()) + multiset{Job(t, s.count)}
  {
    hide Submitted, Fifo, Sorted, Sched.All;
    var n := SubmittedAt(s, t);
    OrderGrows(s.All(), n, Job(t, s.count));
    CountSubmitted(s, t);
  }

  lemma CountSubmitted(s: Sched, t: Task)
    ensures Submitted(s, t).count == s.count + 1
  {
  }

  lemma SubmitKeepsQueue(s: Sched, t: Task)
    requires Inv(s)
    ensures
      var r := Submitted(s, t);
      && Sorted(r.ready) && r.running.Some?
      && (r.running.value.task.preemptible ==>
            forall i :: 0 <= i < |r.ready| ==> r.ready[i].Priority() <= r.running.value.Priority())
  {
    hide Fifo;
    InsertedSorted(s.ready, Job(t, s.count));
    if s.running.Some? && !Preempts(s, t) && s.running.value.task.preemptible {
      PlaceSplits(s.ready, t.priority);
    }
  }

  lemma SubmitKeeps(s: Sched, t: Task)
    requires Inv(s)
    ensures Inv(Submitted(s, t))
    ensures multiset(Submitted(s, t).All()) == multiset(s.All()) + multiset{Job(t, s.count)}
    ensures Submitted(s, t).count == s.count + 1
  {
    hide Submitted, Fifo, Sorted;
    SubmitKeepsOrder(s, t);
    SubmitKeepsQueue(s, t);
    CountSubmitted(s, t);
  }

  /** Completing moves the boundary between done and pending and nothing else. */
  lemma CompleteKeeps(s: Sched, id: int)
    requires Inv(s)
    ensures Inv(Completed(s, id)) && Completed(s, id).All() == s.All()
  {
    var r := Completed(s, id);
    if s.running.Some? && s.running.value.task.id == id {
      assert s.All() == s.done + [s.running.value] + s.ready;
      assert r.Pending() == s.ready;
      assert r.All() == s.All();
    }
  }

  /** Over every run: the invariant, and what was submitted is what is completed,
      running or queued, as often as it was submitted. */
  lemma {:induction false} RunKeeps(calls: seq<Call>)
    ensures Inv(Run(calls))
    ensures multiset(Run(calls).All()) == multiset(Submissions(calls))
    ensures Run(calls).count == |Submissions(calls)|
  {
    if calls != [] {
      var before, c := calls[..|calls| - 1], calls[|calls| - 1];
      RunKeeps(before);
      match c
      case Submit(t) => SubmitKeeps(Run(before), t);
      case Complete(id) => CompleteKeeps(Run(before), id);
    }
  }

  lemma Conservation(calls: seq<Call>)
    ensures
      var s := Run(calls);
      multiset(Submissions(calls))
      == multiset(s.done) + (if s.running.Some? then multiset{s.running.value} else multiset{}) + multiset(s.ready)
  {
    RunKeeps(calls);
  }

  /** Idle means nothing waits; a waiting task outranks the running one only if that one
      may not be preempted. */
  lemma NoNeedlessWait(calls: seq<Call>, i: nat)
    requires i < |Run(calls).ready|
    ensures
      var s := Run(calls);
      && s.running.Some?
      && (s.ready[i].Priority() > s.running.value.Priority() ==> !s.running.value.task.preemptible)
  {
    RunKeeps(calls);
  }

  /** After every completion the job that starts is the best waiting one: none ranks higher
      and no equal is older. */
  lemma NextIsBest(calls: seq<Call>, id: int, i: nat)
    requires var s := Run(calls); s.running.Some? && s.running.value.task.id == id && i < |s.ready|
    ensures
      var s, r := Run(calls), Run(calls + [Complete(id)]);
      && r.running.Some? && r.running.value in s.ready
      && s.ready[i].Priority() <= r.running.value.Priority()
      && (s.ready[i].Priority() == r.running.value.Priority() ==> r.running.value.ticket <= s.ready[i].ticket)
  {
    RunKeeps(calls);
    var s := Run(calls);
    assert (calls + [Complete(id)])[..|calls|] == calls;
    var at := |s.done| + 1;
    assert s.All()[at] == s.ready[0] && s.All()[at + i] == s.ready[i];
  }

  /** Of two tasks of equal priority the one submitted first completes first. */
  lemma EqualsCompleteInOrder(calls: seq<Call>, a: nat, b: nat, k: nat)
    requires a < b < |Submissions(calls)|
    requires Submissions(calls)[a].Priority() == Submissions(calls)[b].Priority()
    requires k < |Run(calls).done| && Run(calls).done[k] == Submissions(calls)[b]
    ensures exists m :: 0 <= m < k && Run(calls).done[m] == Submissions(calls)[a]
  {
    RunKeeps(calls);
    hide Run, Inv;
    var s, first := Run(calls), Submissions(calls)[a];
    assert first in multiset(Submissions(calls));
    assert first in multiset(s.All());
    var m :| 0 <= m < |s.All()| && s.All()[m] == first;
    assert s.All()[k] == s.done[k];
    OlderFirst(s, m, k);
    assert s.done[m] == first;
  }

  lemma OlderFirst(s: Sched, m: nat, k: nat)
    requires Inv(s) && m < |s.All()| && k < |s.All()|
    requires s.All()[m].Priority() == s.All()[k].Priority() && s.All()[m].ticket < s.All()[k].ticket
    ensures m < k
  {
  }

  /** A task that may not be preempted runs until it is completed: no submission and no
      completion of another task takes its place. */
  lemma {:induction false} HoldsUntilCompleted(calls: seq<Call>, more: seq<Call>)
    requires var r := Run(calls).running; r.Some? && !r.value.task.preemptible
    requires forall i :: 0 <= i < |more| ==> more[i] != Complete(Run(calls).running.value.task.id)
    ensures Run(calls + more).running == Run(calls).running
    ensures Run(calls + more).done == Run(calls).done
    decreases |more|
  {
    if more == [] {
      assert calls + more == calls;
    } else {
      var init := more[..|more| - 1];
      HoldsUntilCompleted(calls, init);
      assert (calls + more)[..|calls + more| - 1] == calls + init;
      hide Inserted;
    }
  }

  /** A submission runs at once exactly if nothing ran, or if it outranks a running task that
      may be preempted; otherwise the running task goes on. */
  lemma RunsAtOnceIff(s: Sched, t: Task)
    requires Inv(s)
    ensures var r := Submitted(s, t);
      if s.running.None? ||
         (s.running.value.task.preemptible && t.priority > s.running.value.task.priority)
      then r.running == Some(Job(t, s.count))
      else r.running == s.running
  {
    if s.running.None? {
      assert Inserted(s.ready, Job(t, s.count)) == [Job(t, s.count)];
    }
  }

  /** Completing anything but the running task changes nothing. */
  lemma CompletesOnlyRunning(s: Sched, id: int)
    ensures var r := Completed(s, id);
      if s.running.Some? && s.running.value.task.id == id
      then r.done == s.done + [s.running.value] && r.Pending() == s.ready && r.count == s.count
      else r == s
  {
  }

  /** Preemption is undone by completing the newcomer: the displaced task runs again and
      the queue is what it was. */
  lemma PreemptionUndone(s: Sched, t: Task)
    requires Preempts(s, t)
    ensures Completed(Submitted(s, t), t.id) == s.(done := s.done + [Job(t, s.count)], count := s.count + 1)
  {
  }

  /** Completing whatever runs until nothing does. */
  function Drained(s: Sched): Sched
    requires Inv(s)
    decreases |s.Pending()|
  {
    if s.running.None? then s
    else
      CompleteKeeps(s, s.running.value.task.id);
      Drained(Completed(s, s.running.value.task.id))
  }

  /** With no further submissions everything pending completes, in the order in which it stood. */
  lemma {:induction false} DrainCompletesAll(s: Sched)
    requires Inv(s)
    ensures Drained(s) == Sched(None, [], s.All(), s.count)
    decreases |s.Pending()|
  {
    if s.running.Some? {
      var id := s.running.value.task.id;
      CompleteKeeps(s, id);
      DrainCompletesAll(Completed(s, id));
    } else {
      assert s.All() == s.done;
    }
  }

  // ---- the scheduler itself ----

  function Tasks(q: seq<Job>): (ts: seq<Task>)
    ensures |ts| == |q| && forall i :: 0 <= i < |q| ==> ts[i] == q[i].task
  {
    seq(|q|, i requires 0 <= i < |q| => q[i].task)
  }

  lemma SubmitCases(s: Sched, t: Task)
    ensures Preempts(s, t) ==>
            Submitted(s, t) == Sched(Some(Job(t, s.count)), [s.running.value] + s.ready, s.done, s.count + 1)
    ensures !Preempts(s, t) ==>
            var queued := s.(ready := Inserted(s.ready, Job(t, s.count)), count := s.count + 1);
            Submitted(s, t) == if s.running.None? then Advanced(queued) else queued
  {
    hide Inserted, Advanced;
  }

  lemma CompleteCases(s: Sched, id: int)
    ensures
      if s.running.Some? && s.running.value.task.id == id then
        Completed(s, id) == Advanced(Sched(None, s.ready, s.done + [s.running.value], s.count))
      else Completed(s, id) == s
  {
    hide Advanced;
  }

  function Erased(r: Option<Job>): Option<Task> {
    if r.Some? then Some(r.value.task) else None
  }

  lemma TasksCons(j: Job, q: seq<Job>)
    ensures Tasks([j] + q) == [j.task] + Tasks(q)
  {
  }

  lemma TasksInserted(q: seq<Job>, j: Job)
    ensures
      var k := Place(q, j.Priority());
      Tasks(Inserted(q, j)) == Tasks(q)[..k] + [j.task] + Tasks(q)[k..]
  {
    hide Place;
  }

  class TaskScheduler {
    var running: Option<Task>
    var ready: seq<Task>
    /** The same scheduler with its history. */
    ghost var jobs: Sched

    ghost predicate Valid()
      reads this
    {
      && Inv(jobs)
      && ready == Tasks(jobs.ready)
      && running == Erased(jobs.running)
    }

    constructor ()
      ensures Valid() && jobs == IDLE
    {
      running, ready, jobs := None, [], IDLE;
    }

    method Submit(t: Task) returns (preempted: bool)
      requires Valid()
      modifies this
      ensures Valid() && jobs == Submitted(old(jobs), t)
      ensures preempted <==> Preempts(old(jobs), t)
    {
      SubmitKeeps(jobs, t);
      SubmitCases(jobs, t);
      hide Inv, Place, Inserted, Tasks, Advanced, Submitted;
      if running.Some? && t.priority > running.value.priority && running.value.preemptible {
        TasksCons(jobs.running.value, jobs.ready);
        ready := [running.value] + ready;
        running := Some(t);
        jobs := Submitted(jobs, t);
        return true;
      }
      InsertByPriority(t);
      if running.None? {
        Advance();
      }
      return false;
    }

    method Complete(id: int) returns (done: Option<Task>)
      requires Valid()
      modifies this
      ensures Valid() && jobs == Completed(old(jobs), id)
      ensures done.Some? <==> old(running).Some? && old(running).value.id == id
      ensures done.Some? ==> done == old(running)
      ensures done.None? ==> jobs == old(jobs) && running == old(running) && ready == old(ready)
    {
      CompleteKeeps(jobs, id);
      CompleteCases(jobs, id);
      hide Inv, Tasks, Advanced, Completed, Sched.All, Sched.Pending, Submitted, Drained, Fifo, Sorted, Place, Inserted;
      if running.None? || running.value.id != id {
        return None;
      }
      assert jobs.running.Some? && jobs.running.value.task.id == id;
      done := running;
      jobs := Sched(None, jobs.ready, jobs.done + [jobs.running.value], jobs.count);
      running := None;
      Advance();
    }

    /** Behind every task ranked at least as high. */
    method InsertByPriority(t: Task)
      requires ready == Tasks(jobs.ready)
      modifies this`ready, this`jobs
      ensures jobs == old(jobs).(
                        ready := Inserted(old(jobs).ready, Job(t, old(jobs).count)),
                        count := old(jobs).count + 1)
      ensures ready == Tasks(jobs.ready)
    {
      ghost var q := jobs.ready;
      var it := 0;
      while it < |ready| && ready[it].priority >= t.priority
        invariant 0 <= it <= |ready| && ready == old(ready) && jobs == old(jobs)
        invariant Place(q, t.priority) == it + Place(q[it..], t.priority)
      {
        assert q[it..][1..] == q[it + 1..];
        it := it + 1;
      }
      TasksInserted(q, Job(t, jobs.count));
      ready := ready[..it] + [t] + ready[it..];
      jobs := jobs.(ready := Inserted(q, Job(t, jobs.count)), count := jobs.count + 1);
    }

    method Advance()
      requires running.None? && jobs.running.None? && ready == Tasks(jobs.ready)
      modifies this
      ensures jobs == Advanced(old(jobs)) && ready == Tasks(jobs.ready)
      ensures running == Erased(jobs.running)
    {
      if |ready| > 0 {
        running := Some(ready[0]);
        ready := ready[1..];
        jobs := Advanced(jobs);
      }
    }
  }
}
