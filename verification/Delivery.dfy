/** The blocking side of utils/Queue/mqueue.go (DequeueWait, DequeueFunc) on one queue.

    A step system: any number of enqueuing and closing goroutines, and a fixed set of consumers.
    Each section of the queue's lock is one step on the queue's contents, with the effect that the
    methods of MQueue.MQueue are proved to have.  Messages are told apart by the order in which
    they were accepted. */
module Delivery {
  import opened Sums
  import opened Wrappers

  type Message(==)

  datatype ConsumerPc =
    | Dequeuing          // about to call dequeue
    | Handling(j: nat)   // holds the j-th message taken; in the callback, or about to return it
    | Checking           // about to lock and look whether to wait
    | Parked             // in recvCond.Wait
    | Exhausted          // returned: the queue is closed and empty
    | Quit               // returned: the callback said so

  datatype Queue = Queue(
    items: seq<Message>,
    open: bool,
    consumers: seq<ConsumerPc>,
    accepted: seq<Message>,   // every message for which Enqueue returned nil
    taken: seq<Message>,      // every message dequeued so far
    takers: seq<nat>,         // who dequeued it
    handled: set<nat>         // which of them have been handled to the end
  )

  datatype Action =
    | Enqueue(v: Message)
    | Close
    | Dequeue(i: nat)
    | Handle(i: nat, more: bool, again: bool)
      // The callback ends with `more`; `again`: a DequeueWait loop, which dequeues again at once.
    | Check(i: nat)

  function Init(consumers: nat): Queue {
    Queue([], true, seq(consumers, _ => Dequeuing), [], [], [], {})
  }

  predicate Enabled(q: Queue, a: Action) {
    match a
    case Enqueue(v) => true
    case Close => true
    case Dequeue(i) => i < |q.consumers| && q.consumers[i] == Dequeuing
    case Handle(i, more, again) => i < |q.consumers| && q.consumers[i].Handling?
    case Check(i) => i < |q.consumers| && q.consumers[i] == Checking
  }

  function WakeOne(p: ConsumerPc): ConsumerPc { if p == Parked then Dequeuing else p }

  // Broadcast: whoever is parked goes back to dequeuing.
  function Wake(consumers: seq<ConsumerPc>): (woken: seq<ConsumerPc>)
    ensures |woken| == |consumers|
    ensures forall k :: 0 <= k < |consumers| ==> woken[k] == WakeOne(consumers[k])
  {
    seq(|consumers|, k requires 0 <= k < |consumers| => WakeOne(consumers[k]))
  }

  function DequeueStep(q: Queue, i: nat): Queue
    requires i < |q.consumers|
  {
    if q.items != [] then
      q.(items := q.items[1..], taken := q.taken + [q.items[0]], takers := q.takers + [i],
         consumers := q.consumers[i := Handling(|q.taken|)])
    else q.(consumers := q.consumers[i := if q.open then Checking else Exhausted])
  }

  function Do(q: Queue, a: Action): Queue
    requires Enabled(q, a)
  {
    match a
    case Enqueue(v) =>
      if q.open then q.(items := q.items + [v], accepted := q.accepted + [v], consumers := Wake(q.consumers)) else q
    case Close => q.(open := false, consumers := Wake(q.consumers))
    case Dequeue(i) => DequeueStep(q, i)
    case Handle(i, more, again) =>
      q.(handled := q.handled + {q.consumers[i].j},
         consumers := q.consumers[i := if !more then Quit else if again then Dequeuing else Checking])
    case Check(i) =>
      q.(consumers := q.consumers[i := if q.open && q.items == [] then Parked else Dequeuing])
  }

  function Run(consumers: nat, sched: seq<Action>): Option<Queue> {
    if sched == [] then Some(Init(consumers))
    else
      var before := Run(consumers, sched[..|sched| - 1]);
      var a := sched[|sched| - 1];
      if before.Some? && Enabled(before.value, a) then Some(Do(before.value, a)) else None
  }

  // First in, first out: what was accepted is what was taken, followed by what is queued.
  ghost predicate FifoInv(q: Queue) {
    q.accepted == q.taken + q.items
  }

  // Every message taken is in the hands of the one consumer that took it, or handled.
  ghost predicate HandsInv(q: Queue) {
    && |q.takers| == |q.taken|
    && (forall i :: 0 <= i < |q.consumers| && q.consumers[i].Handling? ==>
          q.consumers[i].j < |q.taken| && q.takers[q.consumers[i].j] == i && q.consumers[i].j !in q.handled)
    && (forall j :: 0 <= j < |q.taken| ==>
          j in q.handled || (q.takers[j] < |q.consumers| && q.consumers[q.takers[j]] == Handling(j)))
    && (forall j :: j in q.handled ==> j < |q.taken|)
  }

  // Who sleeps has nothing to do, and who gave up found the queue closed and empty for good.
  ghost predicate WaitInv(q: Queue) {
    && (forall i :: 0 <= i < |q.consumers| && q.consumers[i] == Parked ==> q.open && q.items == [])
    && (forall i :: 0 <= i < |q.consumers| && q.consumers[i] == Exhausted ==> !q.open && q.items == [])
  }

  ghost predicate Inv(q: Queue) { FifoInv(q) && HandsInv(q) && WaitInv(q) }

  lemma DequeueKeeps(q: Queue, i: nat)
    requires Inv(q) && Enabled(q, Dequeue(i))
    ensures Inv(DequeueStep(q, i))
  {
    if q.items != [] {
      assert q.taken + [q.items[0]] + q.items[1..] == q.taken + q.items;
    }
  }

  lemma EnqueueKeeps(q: Queue, v: Message)
    requires Inv(q)
    ensures Inv(Do(q, Enqueue(v)))
  {
    assert q.taken + (q.items + [v]) == q.taken + q.items + [v];
  }

  lemma StepKeeps(q: Queue, a: Action)
    requires Inv(q) && Enabled(q, a)
    ensures Inv(Do(q, a)) && |Do(q, a).consumers| == |q.consumers|
  {
    match a
    case Enqueue(v) => EnqueueKeeps(q, v);
    case Dequeue(i) => DequeueKeeps(q, i);
    case Close =>
    case Handle(i, more, again) =>
    case Check(i) =>
  }

  lemma {:induction false} RunKeeps(consumers: nat, sched: seq<Action>)
    requires Run(consumers, sched).Some?
    ensures Inv(Run(consumers, sched).value) && |Run(consumers, sched).value.consumers| == consumers
  {
    if sched != [] {
      RunKeeps(consumers, sched[..|sched| - 1]);
      StepKeeps(Run(consumers, sched[..|sched| - 1]).value, sched[|sched| - 1]);
    }
  }

  // Main results, for every schedule

  // Every accepted message is handed out at most once and in order, to one consumer, and none
  // is lost: it is queued, in the hands of the consumer that took it, or handled.
  lemma ExactlyOnce(consumers: nat, sched: seq<Action>)
    requires Run(consumers, sched).Some?
    ensures var q := Run(consumers, sched).value;
      && q.accepted == q.taken + q.items
      && |q.takers| == |q.taken|
      && (forall i, k :: 0 <= i < k < |q.consumers| && q.consumers[i].Handling? && q.consumers[k].Handling? ==>
            q.consumers[i].j != q.consumers[k].j)
      && (forall j :: 0 <= j < |q.taken| ==>
            (j in q.handled) != exists i :: 0 <= i < |q.consumers| && q.consumers[i] == Handling(j))
  {
    RunKeeps(consumers, sched);
    var q := Run(consumers, sched).value;
    forall j | 0 <= j < |q.taken|
      ensures (j in q.handled) != exists i :: 0 <= i < |q.consumers| && q.consumers[i] == Handling(j)
    {
      if j !in q.handled {
        assert q.consumers[q.takers[j]] == Handling(j);
      }
    }
  }

  // No lost wake-up: a parked consumer means an open and empty queue; a consumer that was never
  // told to stop has returned only if the queue is closed and empty.
  lemma NoLostWakeup(consumers: nat, sched: seq<Action>, i: nat)
    requires Run(consumers, sched).Some? && i < consumers
    ensures var q := Run(consumers, sched).value;
      && |q.consumers| == consumers
      && (q.consumers[i] == Parked ==> q.open && q.items == [])
      && (q.consumers[i] == Exhausted ==> !q.open && q.items == [])
  {
    RunKeeps(consumers, sched);
  }

  // When all consumers have given up, every accepted message has been handled.
  lemma Drained(q: Queue)
    requires Inv(q) && q.consumers != []
    requires forall i :: 0 <= i < |q.consumers| ==> q.consumers[i] == Exhausted
    ensures !q.open && q.items == [] && q.taken == q.accepted
    ensures forall j :: 0 <= j < |q.accepted| ==> j in q.handled
  {
    assert q.consumers[0] == Exhausted;
  }

  // Draining a closed queue

  predicate Over(p: ConsumerPc) { p == Exhausted || p == Quit }

  predicate ByConsumer(a: Action) { a.Dequeue? || a.Handle? || a.Check? }

  function Rank(p: ConsumerPc): int {
    match p
    case Handling(j) => 4
    case Checking => 2
    case Dequeuing => 1
    case Parked => 1
    case Exhausted => 0
    case Quit => 0
  }

  // The most steps that the consumers of a closed queue can still take.
  function Backlog(q: Queue): int { 4 * |q.items| + Sum(q.consumers, Rank) }

  lemma {:induction false} WakeKeepsRank(consumers: seq<ConsumerPc>)
    ensures Sum(Wake(consumers), Rank) == Sum(consumers, Rank)
  {
    if consumers != [] {
      var last := |consumers| - 1;
      assert Wake(consumers)[..last] == Wake(consumers[..last]);
      WakeKeepsRank(consumers[..last]);
    }
  }

  // No step reopens a closed queue or adds to it, and each step of a consumer shortens the rest.
  lemma ClosedDrains(q: Queue, a: Action)
    requires Inv(q) && Enabled(q, a) && !q.open
    ensures var t := Do(q, a);
      && !t.open && t.accepted == q.accepted
      && 0 <= Backlog(t) && Backlog(t) + (if ByConsumer(a) then 1 else 0) <= Backlog(q)
  {
    var t := Do(q, a);
    SumNonNegative(t.consumers, Rank);
    match a
    case Enqueue(v) =>
    case Close => WakeKeepsRank(q.consumers);
    case Dequeue(i) => SumUpdate(q.consumers, i, t.consumers[i], Rank);
    case Handle(i, more, again) => SumUpdate(q.consumers, i, t.consumers[i], Rank);
    case Check(i) => SumUpdate(q.consumers, i, t.consumers[i], Rank);
  }

  // In a closed queue every consumer that has not returned can take a step.
  lemma ClosedNotStuck(q: Queue, i: nat) returns (a: Action)
    requires Inv(q) && !q.open && i < |q.consumers| && !Over(q.consumers[i])
    ensures ByConsumer(a) && Enabled(q, a) && (a.Handle? ==> a.more && !a.again)
  {
    a := match q.consumers[i]
      case Handling(j) => Handle(i, true, false)
      case Checking => Check(i)
      case _ => Dequeue(i);
  }
}

/** The queue's own methods take the steps of Delivery: each section of the lock, on a queue that
    shows the state before a step, leaves it showing the state after. */
module QueueSteps {
  import opened Delivery
  import MQueue

  type Queue = Delivery.Queue

  ghost predicate Shows(m: MQueue.MQueue<Message>, q: Queue)
    reads m, m.spine
  {
    m.Contents() == q.items && m.status == q.open
  }

  method Enqueue(m: MQueue.MQueue<Message>, ghost q: Queue, v: Message) returns (ok: bool, ghost t: Queue)
    requires m.Valid() && Shows(m, q)
    modifies m, m.Nodes()
    ensures m.Valid() && fresh(m.Nodes() - old(m.Nodes()))
    ensures t == Do(q, Delivery.Enqueue(v)) && Shows(m, t) && ok == q.open
  {
    ok := m.Enqueue(v);
    t := Do(q, Delivery.Enqueue(v));
  }

  method Close(m: MQueue.MQueue<Message>, ghost q: Queue) returns (ghost t: Queue)
    requires m.Valid() && Shows(m, q)
    modifies m`status
    ensures m.Valid() && t == Do(q, Delivery.Close) && Shows(m, t)
  {
    m.Close();
    t := Do(q, Delivery.Close);
  }

  // Consumer i dequeues: what it gets is the message of its step, and what it is told decides where
  // it goes.
  method Dequeue(m: MQueue.MQueue<Message>, ghost q: Queue, ghost i: nat)
    returns (v: Message, ok: bool, isClose: bool, ghost t: Queue)
    requires m.Valid() && Shows(m, q) && Enabled(q, Delivery.Dequeue(i))
    modifies m, m.Nodes()
    ensures m.Valid() && fresh(m.Nodes() - old(m.Nodes()))
    ensures t == Do(q, Delivery.Dequeue(i)) && Shows(m, t)
    ensures ok ==> t.consumers[i] == Handling(|q.taken|) && t.taken == q.taken + [v]
    ensures !ok ==> t.taken == q.taken && t.consumers[i] == if isClose then Exhausted else Checking
  {
    v, ok, isClose := m.Dequeue();
    t := Do(q, Delivery.Dequeue(i));
  }

  // Consumer i looks whether to wait: it does exactly when its step parks it, and the queue shows
  // the state after that step too.
  method Check(m: MQueue.MQueue<Message>, ghost q: Queue, ghost i: nat) returns (wait: bool)
    requires m.Valid() && Shows(m, q) && Enabled(q, Delivery.Check(i))
    ensures Shows(m, Do(q, Delivery.Check(i)))
    ensures wait <==> Do(q, Delivery.Check(i)).consumers[i] == Parked
  {
    wait := m.status && m.count == 0;
  }
}
