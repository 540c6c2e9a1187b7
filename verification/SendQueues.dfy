/** server/rabbitmq_product.go, lines 19-79: eight queues with four handlers each, and the close
    that waits until all of them are drained.

    A step system over eight queues of Delivery.  The handlers' callback always asks for more. */
module SendQueues {
  import opened Sums
  import opened Wrappers
  import Delivery

  const SHARE_SIZE := 8
  const HANDLER_COUNT := 4

  type Message = Delivery.Message

  datatype ClosePc =
    | NotCalled
    | ClosingShard(i: nat)   // about to close queue i, or to receive from Done after the last
    | Returned

  datatype State = State(
    shards: seq<Delivery.Queue>,
    done: bool,              // rabbitmqSendQueueDone is closed
    closer: ClosePc
  )

  datatype Action =
    | Push(k: nat, v: Message)                // Enqueue on the queue that the counter picked
    | Handler(k: nat, a: Delivery.Action)     // a step of a handler of queue k
    | AllReturned                             // both levels of wait groups are at zero: close Done
    | CallClose
    | CloseStep

  function Init(): State {
    State(seq(SHARE_SIZE, _ => Delivery.Init(HANDLER_COUNT)), false, NotCalled)
  }

  predicate HandlerStep(a: Delivery.Action) {
    a.Dequeue? || a.Check? || (a.Handle? && a.more && !a.again)
  }

  predicate Finished(q: Delivery.Queue) {
    forall i :: 0 <= i < |q.consumers| ==> Delivery.Over(q.consumers[i])
  }

  predicate Enabled(s: State, a: Action) {
    match a
    case Push(k, v) => k < |s.shards|
    case Handler(k, b) => k < |s.shards| && HandlerStep(b) && Delivery.Enabled(s.shards[k], b)
    case AllReturned => !s.done && forall k :: 0 <= k < |s.shards| ==> Finished(s.shards[k])
    case CallClose => s.closer == NotCalled
    case CloseStep => s.closer.ClosingShard? && (s.closer.i < |s.shards| || s.done)
  }

  function Shard(s: State, k: nat, a: Delivery.Action): State
    requires k < |s.shards| && Delivery.Enabled(s.shards[k], a)
  {
    s.(shards := s.shards[k := Delivery.Do(s.shards[k], a)])
  }

  function Do(s: State, a: Action): State
    requires Enabled(s, a)
  {
    match a
    case Push(k, v) => Shard(s, k, Delivery.Enqueue(v))
    case Handler(k, b) => Shard(s, k, b)
    case AllReturned => s.(done := true)
    case CallClose => s.(closer := ClosingShard(0))
    case CloseStep =>
      var i := s.closer.i;
      if i < |s.shards| then Shard(s, i, Delivery.Close).(closer := ClosingShard(i + 1)) else s.(closer := Returned)
  }

  function Run(sched: seq<Action>): Option<State> {
    if sched == [] then Some(Init())
    else
      var before := Run(sched[..|sched| - 1]);
      var a := sched[|sched| - 1];
      if before.Some? && Enabled(before.value, a) then Some(Do(before.value, a)) else None
  }

  ghost predicate ShardInv(q: Delivery.Queue) {
    && Delivery.Inv(q)
    && |q.consumers| == HANDLER_COUNT
    && (forall i :: 0 <= i < |q.consumers| ==> q.consumers[i] != Delivery.Quit)
  }

  ghost predicate Inv(s: State) {
    && |s.shards| == SHARE_SIZE
    && (forall k :: 0 <= k < |s.shards| ==> ShardInv(s.shards[k]))
    && (s.done ==> forall k :: 0 <= k < |s.shards| ==> Finished(s.shards[k]))
    && (s.closer == Returned ==> s.done)
    && (s.closer.ClosingShard? ==> s.closer.i <= SHARE_SIZE)
    && (s.closer.ClosingShard? ==> forall k :: 0 <= k < s.closer.i && k < |s.shards| ==> !s.shards[k].open)
    && (s.closer == Returned ==> forall k :: 0 <= k < |s.shards| ==> !s.shards[k].open)
  }

  lemma ShardKeeps(q: Delivery.Queue, a: Delivery.Action)
    requires ShardInv(q) && Delivery.Enabled(q, a)
    requires HandlerStep(a) || a.Enqueue? || a.Close?
    ensures ShardInv(Delivery.Do(q, a))
    ensures !q.open ==> !Delivery.Do(q, a).open
    ensures a.Close? ==> !Delivery.Do(q, a).open
    ensures Finished(q) ==> Finished(Delivery.Do(q, a))
  {
    Delivery.StepKeeps(q, a);
  }

  lemma StepKeeps(s: State, a: Action)
    requires Inv(s) && Enabled(s, a)
    ensures Inv(Do(s, a))
  {
    match a
    case Push(k, v) => ShardKeeps(s.shards[k], Delivery.Enqueue(v));
    case Handler(k, b) => ShardKeeps(s.shards[k], b);
    case AllReturned =>
    case CallClose =>
    case CloseStep =>
      if s.closer.i < |s.shards| {
        ShardKeeps(s.shards[s.closer.i], Delivery.Close);
      }
  }

  lemma InitHolds()
    ensures Inv(Init())
  {
  }

  lemma {:induction false} RunKeeps(sched: seq<Action>)
    requires Run(sched).Some?
    ensures Inv(Run(sched).value)
  {
    if sched == [] {
      InitHolds();
    } else {
      RunKeeps(sched[..|sched| - 1]);
      StepKeeps(Run(sched[..|sched| - 1]).value, sched[|sched| - 1]);
    }
  }

  // The close returns only when every message that any of the eight queues ever accepted has
  // been handled to the end, and no further message can be accepted.
  lemma CloseDrainsAll(sched: seq<Action>, k: nat)
    requires Run(sched).Some? && Run(sched).value.closer == Returned && k < SHARE_SIZE
    ensures |Run(sched).value.shards| == SHARE_SIZE
    ensures var q := Run(sched).value.shards[k];
      && !q.open && q.taken == q.accepted
      && (forall j :: 0 <= j < |q.accepted| ==> j in q.handled)
  {
    RunKeeps(sched);
    var q := Run(sched).value.shards[k];
    assert ShardInv(q) && Finished(q);
    Delivery.Drained(q);
  }

  lemma {:induction false} BacklogNonNegative(shards: seq<Delivery.Queue>)
    ensures 0 <= Sum(shards, Delivery.Backlog)
  {
    forall q | q in shards
      ensures 0 <= Delivery.Backlog(q)
    {
      SumNonNegative(q.consumers, Delivery.Rank);
    }
    SumNonNegative(shards, Delivery.Backlog);
  }

  // The most steps before the close can return.
  function Remaining(s: State): int { Sum(s.shards, Delivery.Backlog) + if s.done then 0 else 1 }

  // Once all queues are closed, every step of a handler, and the closing of Done, brings what remains
  // down, and no other step raises it, so Done is closed after finitely many steps ...
  lemma WaitingDrains(s: State, a: Action)
    requires Inv(s) && Enabled(s, a) && s.closer == ClosingShard(SHARE_SIZE)
    ensures 0 <= Remaining(Do(s, a))
    ensures Remaining(Do(s, a)) + (if a.Handler? || a.AllReturned? then 1 else 0) <= Remaining(s)
  {
    BacklogNonNegative(Do(s, a).shards);
    if a.Push? || a.Handler? {
      var b := if a.Push? then Delivery.Enqueue(a.v) else a.a;
      Delivery.ClosedDrains(s.shards[a.k], b);
      SumUpdate(s.shards, a.k, Delivery.Do(s.shards[a.k], b), Delivery.Backlog);
    }
  }

  lemma HandlerNotStuck(s: State) returns (a: Action)
    requires Inv(s) && s.closer == ClosingShard(SHARE_SIZE) && !s.done && !Enabled(s, AllReturned)
    ensures a.Handler? && Enabled(s, a)
  {
    var k: nat :| k < |s.shards| && !Finished(s.shards[k]);
    var i: nat :| i < |s.shards[k].consumers| && !Delivery.Over(s.shards[k].consumers[i]);
    var b := Delivery.ClosedNotStuck(s.shards[k], i);
    a := Handler(k, b);
  }

  // ... and until the close has returned, a handler can take a step, or Done can be closed, or
  // the close itself can go on.
  lemma CloseNotStuck(sched: seq<Action>) returns (a: Action)
    requires Run(sched).Some? && Run(sched).value.closer.ClosingShard?
    ensures Run(sched + [a]).Some?
    ensures a == CloseStep || a == AllReturned || a.Handler?
  {
    RunKeeps(sched);
    var s := Run(sched).value;
    a := CloseStep;
    if !Enabled(s, CloseStep) {
      a := AllReturned;
      if !Enabled(s, AllReturned) {
        a := HandlerNotStuck(s);
      }
    }
    assert (sched + [a])[..|sched + [a]| - 1] == sched;
  }

  // What was pushed on queue k while it was open, in order.
  function Accepted(sched: seq<Action>, k: nat): seq<Message>
    requires Run(sched).Some?
  {
    if sched == [] then []
    else
      var s := Run(sched[..|sched| - 1]).value;
      var a := sched[|sched| - 1];
      Accepted(sched[..|sched| - 1], k)
      + if a.Push? && a.k == k && k < |s.shards| && s.shards[k].open then [a.v] else []
  }

  lemma StepAccepts(s: State, a: Action, k: nat)
    requires Enabled(s, a) && |s.shards| == SHARE_SIZE && k < SHARE_SIZE
    ensures Do(s, a).shards[k].accepted
      == s.shards[k].accepted + if a.Push? && a.k == k && s.shards[k].open then [a.v] else []
  {
  }

  // On every schedule that is what queue k has accepted, so that CloseDrainsAll is about all of it.
  lemma {:induction false} AcceptedIsPushed(sched: seq<Action>, k: nat)
    requires Run(sched).Some? && k < SHARE_SIZE
    ensures |Run(sched).value.shards| == SHARE_SIZE
    ensures Run(sched).value.shards[k].accepted == Accepted(sched, k)
  {
    RunKeeps(sched);
    if sched != [] {
      RunKeeps(sched[..|sched| - 1]);
      AcceptedIsPushed(sched[..|sched| - 1], k);
      StepAccepts(Run(sched[..|sched| - 1]).value, sched[|sched| - 1], k);
    }
  }

  function CloseSteps(sched: seq<Action>): nat {
    if sched == [] then 0
    else CloseSteps(sched[..|sched| - 1]) + if sched[|sched| - 1].CloseStep? then 1 else 0
  }

  // The close has one step for every queue and one more, with which it returns.
  lemma {:induction false} CloseAdvances(sched: seq<Action>)
    requires Run(sched).Some?
    ensures match Run(sched).value.closer
      case NotCalled => CloseSteps(sched) == 0 && CallClose !in sched
      case ClosingShard(i) => CloseSteps(sched) == i && CallClose in sched
      case Returned => CloseSteps(sched) == SHARE_SIZE + 1
  {
    RunKeeps(sched);
    if sched != [] {
      var earlier := sched[..|sched| - 1];
      RunKeeps(earlier);
      CloseAdvances(earlier);
      assert sched == earlier + [sched[|sched| - 1]];
    }
  }
}
