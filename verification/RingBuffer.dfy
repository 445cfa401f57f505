/** The single-producer single-consumer ring: both cursors masked to the capacity. */
module RingBuffer {
  import opened Arithmetic
  import opened Options

  /** (i + 1) & mask for a capacity that is a power of two. */
  function Following(i: nat, capacity: nat): nat
    requires i < capacity
  {
    if i + 1 == capacity then 0 else i + 1
  }

  /** The bit mask of the code wraps exactly at a power-of-two capacity. */
  lemma MaskWraps(i: bv64, capacity: bv64)
    requires capacity & (capacity - 1) == 0 && i < capacity
    ensures (i + 1) & (capacity - 1) == if i + 1 == capacity then 0 else i + 1
  {
  }

  // ---- every interleaving of the two threads ----

  /** The producer inside try_push: it has read head; it has seen room; it has written the slot. */
  datatype Producer<T> = Resting | Read(head: nat, item: T) | Room(head: nat, item: T) | Wrote(head: nat, item: T)

  /** The consumer inside pop: it has read tail; it has seen an item; it has copied the item. */
  datatype Consumer<T> = Waiting | Looked(tail: nat) | Full(tail: nat) | Copied(tail: nat, item: T)

  /** Shared memory, both program counters, and what went in and out so far; refused and
      empty count the calls that returned false and nullopt. */
  datatype State<T> = State(
    slots: seq<T>,
    head: nat,
    tail: nat,
    producer: Producer<T>,
    consumer: Consumer<T>,
    accepted: seq<T>,
    popped: seq<T>,
    refused: nat,
    empty: nat)

  /** One atomic step of one thread. */
  datatype Step<T> = CallPush(item: T) | ProducerStep | CallPop | ConsumerStep

  function Produce<T>(s: State<T>): State<T>
    requires s.producer.Wrote? || s.producer.Room? ==> s.producer.head < |s.slots|
    requires s.producer.Read? ==> s.producer.head < |s.slots|
  {
    match s.producer
    case Resting => s
    case Read(h, item) =>
      if Following(h, |s.slots|) == s.tail then s.(producer := Resting, refused := s.refused + 1)
      else s.(producer := Room(h, item))
    case Room(h, item) => s.(slots := s.slots[h := item], producer := Wrote(h, item))
    case Wrote(h, item) =>
      s.(head := Following(h, |s.slots|), producer := Resting, accepted := s.accepted + [item])
  }

  function Consume<T>(s: State<T>): State<T>
    requires !s.consumer.Waiting? ==> s.consumer.tail < |s.slots|
  {
    match s.consumer
    case Waiting => s
    case Looked(t) =>
      if t == s.head then s.(consumer := Waiting, empty := s.empty + 1)
      else s.(consumer := Full(t))
    case Full(t) => s.(consumer := Copied(t, s.slots[t]))
    case Copied(t, item) =>
      s.(tail := Following(t, |s.slots|), consumer := Waiting, popped := s.popped + [item])
  }

  ghost predicate InBounds<T>(s: State<T>) {
    && s.head < |s.slots| && s.tail < |s.slots|
    && (!s.producer.Resting? ==> s.producer.head == s.head)
    && (!s.consumer.Waiting? ==> s.consumer.tail == s.tail)
  }

  ghost function Next<T>(s: State<T>, step: Step<T>): State<T>
    requires InBounds(s)
  {
    match step
    case CallPush(item) => if s.producer.Resting? then s.(producer := Read(s.head, item)) else s
    case ProducerStep => Produce(s)
    case CallPop => if s.consumer.Waiting? then s.(consumer := Looked(s.tail)) else s
    case ConsumerStep => Consume(s)
  }

  /** Where unbounded counters would point. */
  function Slot(count: nat, capacity: nat): nat
    requires capacity > 0
  {
    count % capacity
  }

  ghost predicate Inv<T>(s: State<T>) {
    && InBounds(s)
    // the masked cursors refine the unbounded counters
    && s.head == Slot(|s.accepted|, |s.slots|) && s.tail == Slot(|s.popped|, |s.slots|)
    // popped is a prefix of accepted: order kept, nothing lost, nothing twice
    && s.popped <= s.accepted
    && |s.accepted| - |s.popped| < |s.slots|
    // the outstanding items are in their slots
    && (forall k :: |s.popped| <= k < |s.accepted| ==> s.slots[Slot(k, |s.slots|)] == s.accepted[k])
    // once room was seen it cannot vanish
    && (s.producer.Room? || s.producer.Wrote? ==> |s.accepted| - |s.popped| + 1 < |s.slots|)
    && (s.producer.Wrote? ==> s.slots[s.head] == s.producer.item)
    // once an item was seen it cannot vanish, nor change under the consumer
    && (s.consumer.Full? || s.consumer.Copied? ==> |s.popped| < |s.accepted|)
    && (s.consumer.Copied? ==> |s.popped| < |s.accepted| && s.consumer.item == s.accepted[|s.popped|])
  }

  lemma SlotNext(n: nat, capacity: nat)
    requires capacity > 0
    ensures Slot(n + 1, capacity) == Following(Slot(n, capacity), capacity)
  {
    var q, r := n / capacity, n % capacity;
    assert n == q * capacity + r;
    if r + 1 == capacity {
      assert n + 1 == (q + 1) * capacity;
      ModUnique(n + 1, capacity, q + 1, 0);
    } else {
      ModUnique(n + 1, capacity, q, r + 1);
    }
  }

  /** Counters less than a capacity apart point to different slots. */
  lemma SlotsDiffer(j: nat, k: nat, capacity: nat)
    requires j < k < j + capacity
    ensures Slot(j, capacity) != Slot(k, capacity)
  {
    var q, r := j / capacity, j % capacity;
    assert j == q * capacity + r;
    var d := k - j;
    if r + d < capacity {
      ModUnique(k, capacity, q, r + d);
    } else {
      assert (q + 1) * capacity == q * capacity + capacity;
      ModUnique(k, capacity, q + 1, r + d - capacity);
    }
  }

  lemma SlotRange(k: nat, capacity: nat)
    requires capacity > 0
    ensures Slot(k, capacity) < capacity
  {
  }

  /** The full test compares masked cursors; it means that capacity - 1 items are outstanding. */
  lemma FullTestExact<T>(s: State<T>)
    requires Inv(s)
    ensures Following(s.head, |s.slots|) == s.tail <==> |s.accepted| - |s.popped| == |s.slots| - 1
    ensures s.head == s.tail <==> |s.accepted| == |s.popped|
  {
    var n, a, p := |s.slots|, |s.accepted|, |s.popped|;
    SlotNext(a, n);
    if a - p == n - 1 {
      ModUnique(a + 1, n, p / n + 1, p % n);
    } else {
      SlotsDiffer(p, a + 1, n);
    }
    if a > p {
      SlotsDiffer(p, a, n);
    }
  }

  lemma CallPushKeeps<T>(s: State<T>, item: T)
    requires Inv(s)
    ensures Inv(Next(s, CallPush(item)))
  {
    hide Slot;
  }

  lemma WriteKeeps<T>(s: State<T>)
    requires Inv(s) && s.producer.Room?
    ensures Inv(Produce(s))
  {
    var n, r := |s.slots|, Produce(s);
    forall k | |s.popped| <= k < |s.accepted| ensures r.slots[Slot(k, n)] == s.accepted[k] {
      SlotsDiffer(k, |s.accepted|, n);
    }
  }

  lemma PublishKeeps<T>(s: State<T>)
    requires Inv(s) && s.producer.Wrote?
    ensures Inv(Produce(s))
  {
    hide Slot;
    SlotNext(|s.accepted|, |s.slots|);
    SlotRange(|s.accepted| + 1, |s.slots|);
  }

  lemma ProduceKeeps<T>(s: State<T>)
    requires Inv(s)
    ensures Inv(Produce(s))
  {
    if s.producer.Room? {
      WriteKeeps(s);
    } else if s.producer.Wrote? {
      PublishKeeps(s);
    } else if s.producer.Read? {
      hide Slot;
      FullTestExact(s);
    }
  }

  lemma ConsumeKeeps<T>(s: State<T>)
    requires Inv(s)
    ensures Inv(Consume(s))
  {
    hide Slot;
    FullTestExact(s);
    SlotNext(|s.popped|, |s.slots|);
    SlotRange(|s.popped| + 1, |s.slots|);
    if s.consumer.Copied? {
      assert s.accepted[..|s.popped| + 1] == s.popped + [s.consumer.item];
    }
  }

  function Initial<T>(slots: seq<T>): State<T> {
    State(slots, 0, 0, Resting, Waiting, [], [], 0, 0)
  }

  lemma StepKeeps<T>(s: State<T>, step: Step<T>)
    requires Inv(s)
    ensures Inv(Next(s, step)) && |Next(s, step).slots| == |s.slots|
  {
    hide Inv;
    InvBounds(s);
    match step {
      case CallPush(item) => CallPushKeeps(s, item);
      case ProducerStep => ProduceKeeps(s);
      case CallPop => CallPopKeeps(s);
      case ConsumerStep => ConsumeKeeps(s);
    }
  }

  lemma CallPopKeeps<T>(s: State<T>)
    requires Inv(s)
    ensures Inv(Next(s, CallPop))
  {
    hide Slot;
  }

  lemma InvBounds<T>(s: State<T>)
    requires Inv(s)
    ensures InBounds(s)
  {
  }

  lemma StartHolds<T>(slots: seq<T>)
    requires slots != []
    ensures Inv(Initial(slots))
  {
  }

  /** Any interleaving of the two threads keeps the invariant. */
  ghost function Run<T>(slots: seq<T>, steps: seq<Step<T>>): (s: State<T>)
    requires slots != []
    ensures Inv(s) && |s.slots| == |slots|
  {
    if steps == [] then
      StartHolds(slots);
      Initial(slots)
    else
      var before := Run(slots, steps[..|steps| - 1]);
      StepKeeps(before, steps[|steps| - 1]);
      Next(before, steps[|steps| - 1])
  }

  /** FIFO without loss or duplication, and bounded. */
  lemma FirstInFirstOut<T>(slots: seq<T>, steps: seq<Step<T>>)
    requires slots != []
    ensures var s := Run(slots, steps);
      s.popped <= s.accepted && |s.accepted| - |s.popped| <= |slots| - 1
  {
    assert Inv(Run(slots, steps));
  }

  /** The slot being written holds no outstanding item, so it is never the one the
      consumer may read. */
  lemma WritesNeverRace<T>(slots: seq<T>, steps: seq<Step<T>>)
    requires slots != []
    ensures var s := Run(slots, steps);
      s.producer.Room? ==>
        && (forall k :: |s.popped| <= k < |s.accepted| ==> Slot(k, |slots|) != s.producer.head)
        && (s.consumer.Full? ==> s.consumer.tail != s.producer.head)
  {
    var s := Run(slots, steps);
    assert Inv(s);
    if s.producer.Room? {
      forall k | |s.popped| <= k < |s.accepted| ensures Slot(k, |slots|) != s.producer.head {
        SlotsDiffer(k, |s.accepted|, |slots|);
      }
    }
  }

  /** A push is refused only when capacity - 1 items are outstanding at the test, and a pop
      comes back empty only when none are. */
  lemma VerdictsExact<T>(slots: seq<T>, steps: seq<Step<T>>)
    requires slots != []
    ensures var s := Run(slots, steps);
      && (Next(s, ProducerStep).refused == s.refused + 1 <==>
            s.producer.Read? && |s.accepted| - |s.popped| == |slots| - 1)
      && (Next(s, ConsumerStep).empty == s.empty + 1 <==>
            s.consumer.Looked? && |s.accepted| == |s.popped|)
  {
    hide Run, Slot;
    FullTestExact(Run(slots, steps));
  }

  // ---- the bounded queue that the buffer is ----

  datatype Pusher<T> = NoPush | Asks(item: T) | Cleared(item: T) | Stored(item: T)

  datatype Popper<T> = NoPop | Looks | Granted | Taken(item: T)

  /** A queue without slots or cursors: what was put in, and what was taken out of it. */
  datatype Queue<T> = Queue(
    push: Pusher<T>,
    pop: Popper<T>,
    accepted: seq<T>,
    popped: seq<T>,
    refused: nat,
    empty: nat)

  function QueueNext<T>(q: Queue<T>, capacity: nat, step: Step<T>): Queue<T> {
    var waiting := |q.accepted| - |q.popped|;
    match step
    case CallPush(item) => if q.push.NoPush? then q.(push := Asks(item)) else q
    case CallPop => if q.pop.NoPop? then q.(pop := Looks) else q
    case ProducerStep =>
      (match q.push
       case NoPush => q
       case Asks(item) =>
         if waiting == capacity - 1 then q.(push := NoPush, refused := q.refused + 1) else q.(push := Cleared(item))
       case Cleared(item) => q.(push := Stored(item))
       case Stored(item) => q.(push := NoPush, accepted := q.accepted + [item]))
    case ConsumerStep =>
      (match q.pop
       case NoPop => q
       case Looks => if waiting == 0 then q.(pop := NoPop, empty := q.empty + 1) else q.(pop := Granted)
       case Granted => if waiting > 0 then q.(pop := Taken(q.accepted[|q.popped|])) else q
       case Taken(item) => q.(pop := NoPop, popped := q.popped + [item]))
  }

  function QueueRun<T>(capacity: nat, steps: seq<Step<T>>): Queue<T> {
    if steps == [] then Queue(NoPush, NoPop, [], [], 0, 0)
    else QueueNext(QueueRun(capacity, steps[..|steps| - 1]), capacity, steps[|steps| - 1])
  }

  /** The queue a buffer in state s stands for. */
  function AsQueue<T>(s: State<T>): Queue<T> {
    Queue(
      match s.producer
      case Resting => NoPush
      case Read(_, item) => Asks(item)
      case Room(_, item) => Cleared(item)
      case Wrote(_, item) => Stored(item),
      match s.consumer
      case Waiting => NoPop
      case Looked(_) => Looks
      case Full(_) => Granted
      case Copied(_, item) => Taken(item),
      s.accepted, s.popped, s.refused, s.empty)
  }

  lemma StepRefines<T>(s: State<T>, step: Step<T>)
    requires Inv(s)
    ensures AsQueue(Next(s, step)) == QueueNext(AsQueue(s), |s.slots|, step)
  {
    hide Slot;
    FullTestExact(s);
    if step.ConsumerStep? && s.consumer.Full? {
      OldestSlot(s);
    }
  }

  lemma OldestSlot<T>(s: State<T>)
    requires Inv(s) && |s.popped| < |s.accepted|
    ensures s.slots[s.tail] == s.accepted[|s.popped|]
  {
    assert Slot(|s.popped|, |s.slots|) == s.tail;
  }

  /** Every interleaving of the two threads is the same run of the queue, which knows the
      capacity and the steps alone. */
  lemma {:induction false} RunRefines<T>(slots: seq<T>, steps: seq<Step<T>>)
    requires slots != []
    ensures AsQueue(Run(slots, steps)) == QueueRun(|slots|, steps)
  {
    hide Inv, Next, AsQueue, QueueNext;
    if steps == [] {
      StartsEmpty(slots);
    } else {
      RunRefines(slots, steps[..|steps| - 1]);
      StepRefines(Run(slots, steps[..|steps| - 1]), steps[|steps| - 1]);
    }
  }

  lemma StartsEmpty<T>(slots: seq<T>)
    ensures AsQueue(Initial(slots)) == Queue(NoPush, NoPop, [], [], 0, 0)
  {
  }

  /** The accepted items and the one in flight, if any. */
  function Offered<T>(q: Queue<T>): seq<T> {
    q.accepted + if q.push.NoPush? then [] else [q.push.item]
  }

  /** at picks, one after the other, the steps that pushed the items. */
  ghost predicate PushedAt<T>(items: seq<T>, steps: seq<Step<T>>, at: seq<nat>) {
    && |at| == |items|
    && (forall k :: 0 <= k < |at| ==> at[k] < |steps| && steps[at[k]] == CallPush(items[k]))
    && (forall j, k :: 0 <= j < k < |at| ==> at[j] < at[k])
  }

  lemma PushedEarlier<T>(items: seq<T>, steps: seq<Step<T>>, at: seq<nat>, last: Step<T>)
    requires PushedAt(items, steps, at)
    ensures PushedAt(items, steps + [last], at)
    ensures last.CallPush? ==> PushedAt(items + [last.item], steps + [last], at + [|steps|])
    ensures items != [] ==> PushedAt(items[..|items| - 1], steps + [last], at[..|at| - 1])
  {
  }

  /** A step takes up an item, gives up the one in flight, or leaves the offer as it is. */
  lemma OfferNext<T>(q: Queue<T>, capacity: nat, step: Step<T>)
    ensures var r := QueueNext(q, capacity, step);
      Offered(r) ==
        if step.CallPush? && q.push.NoPush? then Offered(q) + [step.item]
        else if step.ProducerStep? && q.push.Asks? && |q.accepted| - |q.popped| == capacity - 1 then
          Offered(q)[..|Offered(q)| - 1]
        else Offered(q)
  {
  }

  /** Whatever is accepted or in flight was pushed, by different calls and in that order. */
  lemma {:induction false} AcceptedWerePushed<T>(capacity: nat, steps: seq<Step<T>>) returns (at: seq<nat>)
    ensures PushedAt(Offered(QueueRun(capacity, steps)), steps, at)
  {
    if steps == [] {
      at := [];
    } else {
      var before, last := steps[..|steps| - 1], steps[|steps| - 1];
      hide QueueNext, Offered, PushedAt;
      at := AcceptedWerePushed(capacity, before);
      var q := QueueRun(capacity, before);
      assert steps == before + [last];
      OfferNext(q, capacity, last);
      OneEach(Offered(q), before, at);
      PushedEarlier(Offered(q), before, at, last);
      if last.CallPush? && q.push.NoPush? {
        at := at + [|steps| - 1];
      } else if last.ProducerStep? && q.push.Asks? && |q.accepted| - |q.popped| == capacity - 1 {
        InFlight(q);
        at := at[..|at| - 1];
      }
    }
  }

  lemma OneEach<T>(items: seq<T>, steps: seq<Step<T>>, at: seq<nat>)
    requires PushedAt(items, steps, at)
    ensures |at| == |items|
  {
  }

  lemma InFlight<T>(q: Queue<T>)
    requires !q.push.NoPush?
    ensures Offered(q) != []
  {
  }

  /** The same of the buffer: what comes out was put in, in that order. */
  lemma PoppedWerePushed<T>(slots: seq<T>, steps: seq<Step<T>>) returns (at: seq<nat>)
    requires slots != []
    ensures PushedAt(Run(slots, steps).popped, steps, at)
  {
    RunRefines(slots, steps);
    FirstInFirstOut(slots, steps);
    at := AcceptedWerePushed(|slots|, steps);
    at := at[..|Run(slots, steps).popped|];
  }

  // ---- the buffer as its two callers see it ----

  function SizeOf(h: nat, t: nat, capacity: nat): int {
    if h >= t then h - t else capacity + h - t
  }

  /** size() is exact when nobody is inside a call; full() can never report true. */
  lemma SizeExact<T>(s: State<T>)
    requires Inv(s)
    ensures SizeOf(s.head, s.tail, |s.slots|) == |s.accepted| - |s.popped|
  {
    var n, a, p := |s.slots|, |s.accepted|, |s.popped|;
    var q, r, d := p / n, p % n, a - p;
    assert p == q * n + r;
    if r + d < n {
      ModUnique(a, n, q, r + d);
    } else {
      assert (q + 1) * n == q * n + n;
      ModUnique(a, n, q + 1, r + d - n);
    }
  }

  /** One undisturbed try_push. */
  function Pushed<T>(s: State<T>, item: T): State<T>
    requires s.head < |s.slots|
  {
    var next := Following(s.head, |s.slots|);
    if next == s.tail then s.(refused := s.refused + 1)
    else s.(slots := s.slots[s.head := item], head := next, accepted := s.accepted + [item])
  }

  /** One undisturbed pop. */
  function Popped<T>(s: State<T>): (r: (State<T>, Option<T>))
    requires s.tail < |s.slots|
  {
    if s.tail == s.head then (s.(empty := s.empty + 1), None)
    else
      var item := s.slots[s.tail];
      (s.(tail := Following(s.tail, |s.slots|), popped := s.popped + [item]), Some(item))
  }

  /** Whole calls are the micro-steps run back to back. */
  lemma WholeCalls<T>(s: State<T>, item: T)
    requires Inv(s) && s.producer.Resting? && s.consumer.Waiting?
    ensures var s1 := Next(Next(s, CallPush(item)), ProducerStep);
      Pushed(s, item) == if s1.producer.Resting? then s1 else Produce(Produce(s1))
    ensures var s1 := Next(Next(s, CallPop), ConsumerStep);
      Popped(s).0 == if s1.consumer.Waiting? then s1 else Consume(Consume(s1))
    ensures Inv(Pushed(s, item)) && Inv(Popped(s).0)
    ensures Popped(s).1 == if |s.popped| < |s.accepted| then Some(s.accepted[|s.popped|]) else None
  {
    hide Slot;
    FullTestExact(s);
    CallPushKeeps(s, item);
    ProduceKeeps(Next(s, CallPush(item)));
    var s1 := Next(Next(s, CallPush(item)), ProducerStep);
    ProduceKeeps(s1);
    ProduceKeeps(Produce(s1));
    CallPopKeeps(s);
    ConsumeKeeps(Next(s, CallPop));
    var t1 := Next(Next(s, CallPop), ConsumerStep);
    ConsumeKeeps(t1);
    ConsumeKeeps(Consume(t1));
  }

  class RingBuffer<T> {
    const buffer: array<T>
    var head: nat
    var tail: nat
    ghost var accepted: seq<T>
    ghost var popped: seq<T>
    ghost var refused: nat
    ghost var empty: nat

    ghost function View(): State<T>
      reads this, buffer
    {
      State(buffer[..], head, tail, Resting, Waiting, accepted, popped, refused, empty)
    }

    ghost predicate Valid()
      reads this, buffer
    {
      Inv(View())
    }

    constructor (capacity: nat, blank: T)
      requires capacity > 0
      ensures Valid() && fresh(buffer) && buffer.Length == capacity && accepted == [] && popped == []
    {
      buffer := new T[capacity](_ => blank);
      head, tail, accepted, popped, refused, empty := 0, 0, [], [], 0, 0;
      new;
      StartHolds(buffer[..]);
    }

    method TryPush(item: T) returns (ok: bool)
      requires Valid()
      modifies this, buffer
      ensures Valid() && View() == Pushed(old(View()), item)
      ensures accepted == old(accepted) + (if ok then [item] else []) && popped == old(popped)
      ensures ok <==> |old(accepted)| - |old(popped)| < buffer.Length - 1
    {
      WholeCalls(View(), item);
      FullTestExact(View());
      var current := head;
      var next := Following(current, buffer.Length);
      if next == tail {
        refused := refused + 1;
        return false;
      }
      buffer[current] := item;
      head := next;
      accepted := accepted + [item];
      ok := true;
    }

    method Pop() returns (r: Option<T>)
      requires Valid()
      modifies this
      ensures Valid() && (View(), r) == Popped(old(View()))
      ensures r == if |old(popped)| < |old(accepted)| then Some(old(accepted)[|old(popped)|]) else None
      ensures popped == old(popped) + (if r.Some? then [r.value] else []) && accepted == old(accepted)
    {
      hide Slot;
      FullTestExact(View());
      PopKeeps(View());
      var current := tail;
      if current == head {
        empty := empty + 1;
        return None;
      }
      var item := buffer[current];
      tail := Following(current, buffer.Length);
      popped := popped + [item];
      r := Some(item);
    }

    method Size() returns (n: int)
      requires Valid()
      ensures n == |accepted| - |popped| && n < buffer.Length
    {
      SizeExact(View());
      n := if head >= tail then head - tail else buffer.Length + head - tail;
    }

    /** full() as written: no reachable state satisfies it, not even one that refuses pushes. */
    method IsFull() returns (full: bool)
      requires Valid()
      ensures !full
    {
      var n := Size();
      full := n >= buffer.Length;
    }
  }

  lemma PopKeeps<T>(s: State<T>)
    requires Inv(s) && s.producer.Resting? && s.consumer.Waiting?
    ensures Inv(Popped(s).0)
    ensures Popped(s).1 == if |s.popped| < |s.accepted| then Some(s.accepted[|s.popped|]) else None
  {
    hide Slot;
    FullTestExact(s);
    SlotNext(|s.popped|, |s.slots|);
    if s.tail != s.head {
      assert s.accepted[..|s.popped| + 1] == s.popped + [s.accepted[|s.popped|]];
    }
  }
}
