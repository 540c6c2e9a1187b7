/** utils/taskRunManager/atomicTask.go: a task runner bounded by an atomic counter, with a
    condition variable for those who wait.

    A step system over any number of goroutines: callers of Run, callers of Wait, and the bodies
    that Run spawns.  Every atomic operation, every Lock, Unlock, Wait and Broadcast is one step;
    evaluating the callback of Block is a step of its own, since the counter it reads is not
    protected by the lock. */
module AtomicTask {
  import opened Sums
  import opened Wrappers

  datatype Pc =
    // Run
    | Load                // about to load atomicCount
    | Cas(seen: int)      // saw room, about to compare-and-swap
    | RunLock             // Block: about to lock
    | RunTest             // Block: about to evaluate the callback
    | RunPark             // Block: about to call cond.Wait
    | RunParked           // in cond.Wait
    | RunWoken            // woken, about to lock again
    | RunUnlock           // about to unlock and loop
    | RunReturned
    // a body
    | Body                // inside t()
    | Decrement           // deferred: about to decrement atomicCount
    | ReleaseLock         // deferred Release: about to lock
    | Broadcasting        // about to broadcast
    | ReleaseUnlock       // about to unlock
    | BodyEnded
    // Wait
    | WaitLock
    | WaitTest
    | WaitPark
    | WaitParked
    | WaitWoken
    | WaitUnlock
    | WaitCheck           // about to load atomicCount once more
    | WaitReturned

  datatype State = State(
    cap: int,             // the runner's count
    counter: int,         // atomicCount
    holder: Option<nat>,  // who holds the condition's lock
    threads: seq<Pc>
  )

  datatype Action = CallRun | CallWait | Step(i: nat)

  function Init(cap: int): State { State(cap, 0, None, []) }

  predicate NeedsLock(p: Pc) {
    p == RunLock || p == RunWoken || p == ReleaseLock || p == WaitLock || p == WaitWoken
  }

  predicate Parked(p: Pc) { p == RunParked || p == WaitParked }

  predicate Over(p: Pc) { p == RunReturned || p == BodyEnded || p == WaitReturned }

  predicate Enabled(s: State, a: Action) {
    match a
    case CallRun => true
    case CallWait => true
    case Step(i) =>
      && i < |s.threads|
      && !Parked(s.threads[i]) && !Over(s.threads[i])
      && (NeedsLock(s.threads[i]) ==> s.holder == None)
  }

  // Where goroutine i goes next.
  function NextPc(s: State, i: nat): Pc
    requires Enabled(s, Step(i))
  {
    match s.threads[i]
    case Load => if s.counter < s.cap then Cas(s.counter) else RunLock
    case Cas(seen) => if s.counter == seen then RunReturned else RunLock
    case RunLock => RunTest
    case RunTest => if s.counter == s.cap then RunPark else RunUnlock
    case RunPark => RunParked
    case RunWoken => RunUnlock
    case RunUnlock => Load
    case Body => Decrement
    case Decrement => ReleaseLock
    case ReleaseLock => Broadcasting
    case Broadcasting => ReleaseUnlock
    case ReleaseUnlock => BodyEnded
    case WaitLock => WaitTest
    case WaitTest => if s.counter != 0 then WaitPark else WaitUnlock
    case WaitPark => WaitParked
    case WaitWoken => WaitUnlock
    case WaitUnlock => WaitCheck
    case WaitCheck => if s.counter == 0 then WaitReturned else WaitLock
  }

  function WakeOne(p: Pc): Pc {
    if p == RunParked then RunWoken else if p == WaitParked then WaitWoken else p
  }

  // Broadcast: everybody parked is woken.
  function Wake(threads: seq<Pc>): (woken: seq<Pc>)
    ensures |woken| == |threads|
    ensures forall k :: 0 <= k < |threads| ==> woken[k] == WakeOne(threads[k])
  {
    seq(|threads|, k requires 0 <= k < |threads| => WakeOne(threads[k]))
  }

  predicate Swaps(s: State, i: nat)
    requires i < |s.threads|
  {
    s.threads[i].Cas? && s.counter == s.threads[i].seen
  }

  function NextCounter(s: State, i: nat): int
    requires Enabled(s, Step(i))
  {
    if Swaps(s, i) then s.threads[i].seen + 1
    else if s.threads[i] == Decrement then s.counter - 1
    else s.counter
  }

  function NextHolder(s: State, i: nat): Option<nat>
    requires Enabled(s, Step(i))
  {
    var p := s.threads[i];
    if NeedsLock(p) then Some(i)
    else if p == RunPark || p == RunUnlock || p == ReleaseUnlock || p == WaitPark || p == WaitUnlock then None
    else s.holder
  }

  function NextThreads(s: State, i: nat): seq<Pc>
    requires Enabled(s, Step(i))
  {
    var threads := s.threads[i := NextPc(s, i)];
    if Swaps(s, i) then threads + [Body]
    else if s.threads[i] == Broadcasting then Wake(threads)
    else threads
  }

  function StepOf(s: State, i: nat): State
    requires Enabled(s, Step(i))
  {
    State(s.cap, NextCounter(s, i), NextHolder(s, i), NextThreads(s, i))
  }

  function Do(s: State, a: Action): State
    requires Enabled(s, a)
  {
    match a
    case CallRun => s.(threads := s.threads + [Load])
    case CallWait => s.(threads := s.threads + [WaitLock])
    case Step(i) => StepOf(s, i)
  }

  function Run(cap: int, sched: seq<Action>): Option<State> {
    if sched == [] then Some(Init(cap))
    else
      var before := Run(cap, sched[..|sched| - 1]);
      var a := sched[|sched| - 1];
      if before.Some? && Enabled(before.value, a) then Some(Do(before.value, a)) else None
  }

  // A body counts until its decrement.
  function InBody(p: Pc): int { if p == Body || p == Decrement then 1 else 0 }

  function Running(p: Pc): int { if p == Body then 1 else 0 }

  predicate HoldsLock(p: Pc) {
    || p == RunTest || p == RunPark || p == RunUnlock
    || p == Broadcasting || p == ReleaseUnlock
    || p == WaitTest || p == WaitPark || p == WaitUnlock
  }

  // A body that has decremented the counter but not broadcast yet.
  predicate Owes(p: Pc) { p == ReleaseLock || p == Broadcasting }

  ghost predicate SomeoneOwes(s: State) { exists j :: 0 <= j < |s.threads| && Owes(s.threads[j]) }

  ghost predicate LockInv(s: State) {
    && (s.holder.Some? ==> s.holder.value < |s.threads| && HoldsLock(s.threads[s.holder.value]))
    && (forall i :: 0 <= i < |s.threads| && HoldsLock(s.threads[i]) ==> s.holder == Some(i))
  }

  // Nobody sleeps, or is about to, unless the counter gives a reason or a wake-up is on its way.
  ghost predicate WakeupInv(s: State) {
    && (forall i :: 0 <= i < |s.threads| && (s.threads[i] == RunParked || s.threads[i] == RunPark) ==>
          s.counter == s.cap || SomeoneOwes(s))
    && (forall i :: 0 <= i < |s.threads| && (s.threads[i] == WaitParked || s.threads[i] == WaitPark) ==>
          s.counter != 0 || SomeoneOwes(s))
  }

  ghost predicate CountInv(s: State) {
    s.counter == Sum(s.threads, InBody) && 0 <= s.counter <= s.cap
  }

  // Whoever is about to swap saw room.
  ghost predicate SeenInv(s: State) {
    forall i :: 0 <= i < |s.threads| && s.threads[i].Cas? ==> s.threads[i].seen < s.cap
  }

  ghost predicate Inv(s: State) {
    1 <= s.cap && LockInv(s) && WakeupInv(s) && CountInv(s) && SeenInv(s)
  }

  // Waking changes no weight that parked and woken goroutines share.
  lemma {:induction false} WakeKeepsSum(threads: seq<Pc>, w: Pc -> int)
    requires w(RunParked) == w(RunWoken) && w(WaitParked) == w(WaitWoken)
    ensures Sum(Wake(threads), w) == Sum(threads, w)
  {
    if threads != [] {
      var last := |threads| - 1;
      assert Wake(threads)[..last] == Wake(threads[..last]);
      WakeKeepsSum(threads[..last], w);
    }
  }

  // A goroutine leaves its body by decrementing, and only by that.
  lemma BodyLeft(s: State, i: nat)
    requires Enabled(s, Step(i))
    ensures InBody(NextPc(s, i)) == InBody(s.threads[i]) - if s.threads[i] == Decrement then 1 else 0
  {
  }

  lemma CountStays(s: State, i: nat)
    requires 1 <= s.cap && CountInv(s) && SeenInv(s) && Enabled(s, Step(i))
    ensures CountInv(StepOf(s, i))
  {
    var threads := s.threads[i := NextPc(s, i)];
    BodyLeft(s, i);
    SumUpdate(s.threads, i, NextPc(s, i), InBody);
    if Swaps(s, i) {
      SumAppend(threads, Body, InBody);
      assert StepOf(s, i).threads == threads + [Body];
    } else if s.threads[i] == Decrement {
      SumAtLeast(s.threads, i, InBody);
    } else if s.threads[i] == Broadcasting {
      WakeKeepsSum(threads, InBody);
    }
  }

  lemma SeenStays(s: State, i: nat)
    requires SeenInv(s) && Enabled(s, Step(i))
    ensures SeenInv(StepOf(s, i))
  {
  }

  lemma LockStays(s: State, i: nat)
    requires LockInv(s) && Enabled(s, Step(i))
    ensures LockInv(StepOf(s, i))
  {
  }

  // The broadcaster holds the lock, so nobody is about to park, and it leaves nobody parked.
  lemma BroadcastWakes(s: State, i: nat)
    requires LockInv(s) && Enabled(s, Step(i)) && s.threads[i] == Broadcasting
    ensures forall k :: 0 <= k < |StepOf(s, i).threads| ==>
      !Parked(StepOf(s, i).threads[k]) && StepOf(s, i).threads[k] != RunPark && StepOf(s, i).threads[k] != WaitPark
  {
  }

  // A debt stays until its broadcast, and every decrement incurs one.
  lemma DebtStays(s: State, i: nat)
    requires Enabled(s, Step(i)) && s.threads[i] != Broadcasting
    requires SomeoneOwes(s) || s.threads[i] == Decrement
    ensures SomeoneOwes(StepOf(s, i))
  {
    var t := StepOf(s, i);
    if s.threads[i] == Decrement {
      assert Owes(t.threads[i]);
    } else {
      var j :| 0 <= j < |s.threads| && Owes(s.threads[j]);
      assert Owes(t.threads[j]);
    }
  }

  lemma WakeupStays(s: State, i: nat)
    requires Inv(s) && Enabled(s, Step(i))
    ensures WakeupInv(StepOf(s, i))
  {
    if s.threads[i] == Broadcasting {
      BroadcastWakes(s, i);
    } else if SomeoneOwes(s) || s.threads[i] == Decrement {
      DebtStays(s, i);
    } else {
      var t := StepOf(s, i);
      forall k | 0 <= k < |t.threads| && (t.threads[k] == RunParked || t.threads[k] == RunPark)
        ensures t.counter == t.cap
      {
        assert k != i ==> k < |s.threads| && t.threads[k] == s.threads[k];
      }
      forall k | 0 <= k < |t.threads| && (t.threads[k] == WaitParked || t.threads[k] == WaitPark)
        ensures t.counter != 0
      {
        assert k != i ==> k < |s.threads| && t.threads[k] == s.threads[k];
      }
    }
  }

  // A new call of Run or Wait.
  lemma CallKeeps(s: State, a: Action)
    requires Inv(s) && (a == CallRun || a == CallWait)
    ensures Inv(Do(s, a))
  {
    var p := if a == CallRun then Load else WaitLock;
    SumAppend(s.threads, p, InBody);
    JoinKeepsLock(s, p);
    JoinKeepsWakeup(s, p);
  }

  lemma JoinKeepsLock(s: State, p: Pc)
    requires LockInv(s) && SeenInv(s) && (p == Load || p == WaitLock)
    ensures LockInv(s.(threads := s.threads + [p])) && SeenInv(s.(threads := s.threads + [p]))
  {
  }

  lemma JoinKeepsWakeup(s: State, p: Pc)
    requires WakeupInv(s) && (p == Load || p == WaitLock)
    ensures WakeupInv(s.(threads := s.threads + [p]))
  {
    var t := s.(threads := s.threads + [p]);
    if SomeoneOwes(s) {
      var j :| 0 <= j < |s.threads| && Owes(s.threads[j]);
      assert Owes(t.threads[j]);
    }
  }

  lemma StepKeeps(s: State, a: Action)
    requires Inv(s) && Enabled(s, a)
    ensures Inv(Do(s, a))
  {
    if a.Step? {
      CountStays(s, a.i);
      SeenStays(s, a.i);
      LockStays(s, a.i);
      WakeupStays(s, a.i);
    } else {
      CallKeeps(s, a);
    }
  }

  lemma {:induction false} RunKeeps(cap: int, sched: seq<Action>)
    requires 1 <= cap && Run(cap, sched).Some?
    ensures Inv(Run(cap, sched).value) && Run(cap, sched).value.cap == cap
  {
    if sched != [] {
      RunKeeps(cap, sched[..|sched| - 1]);
      StepKeeps(Run(cap, sched[..|sched| - 1]).value, sched[|sched| - 1]);
    }
  }

  // Main results, for every schedule

  // Never more than `cap` bodies at once.
  lemma AtMostCap(cap: int, sched: seq<Action>)
    requires 1 <= cap && Run(cap, sched).Some?
    ensures Sum(Run(cap, sched).value.threads, Running) <= cap
  {
    RunKeeps(cap, sched);
    SumMonotone(Run(cap, sched).value.threads, Running, InBody);
  }

  predicate BodyOver(p: Pc) {
    p != Body && p != Decrement && p != ReleaseLock && p != Broadcasting
  }

  // No lost wake-up: a goroutine parked in Run or in Wait means a full, or non-zero, counter or
  // a finished task that still owes its broadcast.  So nobody is parked once the tasks are gone.
  lemma NoLostWakeup(cap: int, sched: seq<Action>, i: nat)
    requires 1 <= cap && Run(cap, sched).Some?
    requires i < |Run(cap, sched).value.threads| && Parked(Run(cap, sched).value.threads[i])
    ensures var s := Run(cap, sched).value;
      && (SomeoneOwes(s) || (if s.threads[i] == RunParked then s.counter == cap else s.counter != 0))
      && exists j :: 0 <= j < |s.threads| && !BodyOver(s.threads[j])
  {
    RunKeeps(cap, sched);
    var s := Run(cap, sched).value;
    if SomeoneOwes(s) {
      var j :| 0 <= j < |s.threads| && Owes(s.threads[j]);
      assert !BodyOver(s.threads[j]);
    } else {
      var j := SumWitness(s.threads, InBody);
      assert !BodyOver(s.threads[j]);
    }
  }

  lemma ZeroMeansIdle(s: State)
    requires CountInv(s) && s.counter == 0
    ensures forall j :: 0 <= j < |s.threads| ==> s.threads[j] != Body && s.threads[j] != Decrement
  {
    forall j | 0 <= j < |s.threads|
      ensures InBody(s.threads[j]) == 0
    {
      SumAtLeast(s.threads, j, InBody);
    }
  }

  // At the step with which a Wait returns, no body is running.
  lemma WaitReturnsIdle(cap: int, sched: seq<Action>, i: nat)
    requires 1 <= cap && Run(cap, sched).Some? && Enabled(Run(cap, sched).value, Step(i))
    requires NextPc(Run(cap, sched).value, i) == WaitReturned
    ensures var s := Do(Run(cap, sched).value, Step(i));
      forall j :: 0 <= j < |s.threads| ==> s.threads[j] != Body && s.threads[j] != Decrement
  {
    RunKeeps(cap, sched);
    var s := Run(cap, sched).value;
    assert s.threads[i] == WaitCheck;
    assert NextThreads(s, i) == s.threads[i := WaitReturned];
    ZeroMeansIdle(s);
  }

  // While some call or body is not over, some goroutine can take a step.
  lemma CanMove(s: State, i: nat) returns (k: nat)
    requires Inv(s) && i < |s.threads| && !Over(s.threads[i])
    ensures Enabled(s, Step(k))
  {
    k := i;
    if Parked(s.threads[i]) {
      if SomeoneOwes(s) {
        k :| 0 <= k < |s.threads| && Owes(s.threads[k]);
      } else {
        k := SumWitness(s.threads, InBody);
      }
    }
    if NeedsLock(s.threads[k]) && s.holder.Some? {
      k := s.holder.value;
    }
  }

  // Nobody is ever stuck.
  lemma NotStuck(cap: int, sched: seq<Action>, i: nat) returns (k: nat)
    requires 1 <= cap && Run(cap, sched).Some?
    requires i < |Run(cap, sched).value.threads| && !Over(Run(cap, sched).value.threads[i])
    ensures Run(cap, sched + [Step(k)]).Some?
  {
    RunKeeps(cap, sched);
    k := CanMove(Run(cap, sched).value, i);
    assert (sched + [Step(k)])[..|sched + [Step(k)]| - 1] == sched;
  }

  // Bodies begun, less the calls of Run that have returned.
  function Unpaired(p: Pc): int {
    if p == RunReturned then -1
    else if p == Body || p == Decrement || p == ReleaseLock || p == Broadcasting || p == ReleaseUnlock || p == BodyEnded
    then 1 else 0
  }

  lemma PairsNext(s: State, i: nat)
    requires Enabled(s, Step(i))
    ensures Unpaired(NextPc(s, i)) == Unpaired(s.threads[i]) - if Swaps(s, i) then 1 else 0
  {
  }

  lemma SwapPairs(s: State, i: nat)
    requires Enabled(s, Step(i)) && Swaps(s, i)
    ensures Sum(NextThreads(s, i), Unpaired) == Sum(s.threads, Unpaired)
  {
    PairsNext(s, i);
    SumUpdate(s.threads, i, NextPc(s, i), Unpaired);
    SumAppend(s.threads[i := NextPc(s, i)], Body, Unpaired);
  }

  lemma MovePairs(s: State, i: nat)
    requires Enabled(s, Step(i)) && !Swaps(s, i)
    ensures Sum(s.threads[i := NextPc(s, i)], Unpaired) == Sum(s.threads, Unpaired)
  {
    PairsNext(s, i);
    SumUpdate(s.threads, i, NextPc(s, i), Unpaired);
  }

  lemma StepPairs(s: State, i: nat)
    requires Enabled(s, Step(i))
    ensures Sum(NextThreads(s, i), Unpaired) == Sum(s.threads, Unpaired)
  {
    if Swaps(s, i) {
      SwapPairs(s, i);
    } else {
      MovePairs(s, i);
      WakeKeepsSum(s.threads[i := NextPc(s, i)], Unpaired);
    }
  }

  lemma ActionPairs(s: State, a: Action)
    requires Enabled(s, a)
    ensures Sum(Do(s, a).threads, Unpaired) == Sum(s.threads, Unpaired)
  {
    match a
    case CallRun => SumAppend(s.threads, Load, Unpaired);
    case CallWait => SumAppend(s.threads, WaitLock, Unpaired);
    case Step(i) => StepPairs(s, i);
  }

  // On every schedule there are as many bodies, running or over, as calls of Run have returned.
  lemma {:induction false} OneBodyPerRun(cap: int, sched: seq<Action>)
    requires Run(cap, sched).Some?
    ensures Sum(Run(cap, sched).value.threads, Unpaired) == 0
  {
    if sched != [] {
      OneBodyPerRun(cap, sched[..|sched| - 1]);
      ActionPairs(Run(cap, sched[..|sched| - 1]).value, sched[|sched| - 1]);
    }
  }

  // Progress: the retries of Run and Wait are paid for by changes of the counter and broadcasts.

  // How many of these a goroutine still owes the system: the swap of a Run, and the decrement and
  // the broadcast of its body.
  function Events(p: Pc): int {
    match p
    case Load => 3
    case Cas(seen) => 3
    case RunLock => 3
    case RunTest => 3
    case RunPark => 3
    case RunParked => 3
    case RunWoken => 3
    case RunUnlock => 3
    case Body => 2
    case Decrement => 2
    case ReleaseLock => 1
    case Broadcasting => 1
    case _ => 0
  }

  // A call of Run or Wait, as opposed to a body.
  function Caller(p: Pc): int {
    if p == Body || p == Decrement || p == ReleaseLock || p == Broadcasting || p == ReleaseUnlock || p == BodyEnded
    then 0 else 1
  }

  // How many steps a goroutine can take before it returns, parks, or makes the counter change, as
  // long as nobody else makes it change or broadcasts.
  function StepsAhead(cap: int, counter: int, p: Pc): int {
    match p
    case Load => if counter == cap then 4 else 2
    case Cas(seen) => if seen == counter then 1 else if counter == cap then 4 else 6
    case RunLock => if counter == cap then 3 else 5
    case RunTest => if counter == cap then 2 else 4
    case RunPark => 1
    case RunParked => 0
    case RunWoken => if counter == cap then 6 else 4
    case RunUnlock => if counter == cap then 5 else 3
    case RunReturned => 0
    case Body => 5
    case Decrement => 4
    case ReleaseLock => 3
    case Broadcasting => 2
    case ReleaseUnlock => 1
    case BodyEnded => 0
    case WaitLock => if counter == 0 then 4 else 3
    case WaitTest => if counter == 0 then 3 else 2
    case WaitPark => 1
    case WaitParked => 0
    case WaitWoken => if counter == 0 then 3 else 6
    case WaitUnlock => if counter == 0 then 2 else 5
    case WaitCheck => if counter == 0 then 1 else 4
    case WaitReturned => 0
  }

  function Ahead(cap: int, counter: int): Pc -> int { (p: Pc) => StepsAhead(cap, counter, p) }

  // Each event is worth six steps of every caller there can be, and the first steps of a body.
  function Measure(s: State, worth: int): int {
    worth * Sum(s.threads, Events) + Sum(s.threads, Ahead(s.cap, s.counter))
  }

  lemma OneGives(cap: int, counter: int, after: int, p: Pc, q: Pc)
    requires q == p || q == WakeOne(p)
    ensures StepsAhead(cap, after, q) <= StepsAhead(cap, counter, p) + 6 * Caller(p)
  {
  }

  // An event gives no caller more than six steps, and no body any.
  lemma {:induction false} EventGives(cap: int, counter: int, after: int, threads: seq<Pc>, woken: seq<Pc>)
    requires |woken| == |threads|
    requires forall k :: 0 <= k < |threads| ==> woken[k] == threads[k] || woken[k] == WakeOne(threads[k])
    ensures Sum(woken, Ahead(cap, after)) <= Sum(threads, Ahead(cap, counter)) + 6 * Sum(threads, Caller)
  {
    if threads != [] {
      var last := |threads| - 1;
      EventGives(cap, counter, after, threads[..last], woken[..last]);
      OneGives(cap, counter, after, threads[last], woken[last]);
    }
  }

  predicate IsEvent(s: State, i: nat)
    requires i < |s.threads|
  {
    Swaps(s, i) || s.threads[i] == Decrement || s.threads[i] == Broadcasting
  }

  lemma QuietStep(s: State, i: nat)
    requires CountInv(s) && Enabled(s, Step(i)) && !IsEvent(s, i)
    ensures Events(NextPc(s, i)) == Events(s.threads[i]) && Caller(NextPc(s, i)) == Caller(s.threads[i])
    ensures StepsAhead(s.cap, s.counter, NextPc(s, i)) + 1 <= StepsAhead(s.cap, s.counter, s.threads[i])
  {
  }

  lemma QuietLowers(s: State, i: nat, worth: int)
    requires CountInv(s) && Enabled(s, Step(i)) && !IsEvent(s, i)
    ensures Measure(StepOf(s, i), worth) + 1 <= Measure(s, worth)
    ensures Sum(StepOf(s, i).threads, Caller) == Sum(s.threads, Caller)
  {
    var pc := NextPc(s, i);
    QuietStep(s, i);
    SumUpdate(s.threads, i, pc, Events);
    SumUpdate(s.threads, i, pc, Caller);
    SumUpdate(s.threads, i, pc, Ahead(s.cap, s.counter));
    assert StepOf(s, i).threads == s.threads[i := pc] && StepOf(s, i).counter == s.counter;
  }

  // What an event at i does to the sums: one event fewer, at most six more steps for every caller,
  // and the five of a new body.
  ghost predicate Pays(s: State, t: State) {
    && Sum(t.threads, Events) == Sum(s.threads, Events) - 1
    && Sum(t.threads, Caller) == Sum(s.threads, Caller)
    && Sum(t.threads, Ahead(s.cap, t.counter))
       <= Sum(s.threads, Ahead(s.cap, s.counter)) + 6 * Sum(s.threads, Caller) + 5
  }

  lemma MovePays(s: State, i: nat, pc: Pc)
    requires i < |s.threads| && Caller(pc) == Caller(s.threads[i])
    requires StepsAhead(s.cap, s.counter, pc) <= StepsAhead(s.cap, s.counter, s.threads[i])
    ensures var moved := s.threads[i := pc];
      && Sum(moved, Events) == Sum(s.threads, Events) - Events(s.threads[i]) + Events(pc)
      && Sum(moved, Caller) == Sum(s.threads, Caller)
      && Sum(moved, Ahead(s.cap, s.counter)) <= Sum(s.threads, Ahead(s.cap, s.counter))
  {
    SumUpdate(s.threads, i, pc, Events);
    SumUpdate(s.threads, i, pc, Caller);
    SumUpdate(s.threads, i, pc, Ahead(s.cap, s.counter));
  }

  lemma SpawnGives(cap: int, counter: int, threads: seq<Pc>)
    ensures Sum(threads + [Body], Events) == Sum(threads, Events) + 2
    ensures Sum(threads + [Body], Caller) == Sum(threads, Caller)
    ensures Sum(threads + [Body], Ahead(cap, counter)) == Sum(threads, Ahead(cap, counter)) + 5
  {
    SumAppend(threads, Body, Events);
    SumAppend(threads, Body, Caller);
    SumAppend(threads, Body, Ahead(cap, counter));
  }

  lemma SwapPays(s: State, i: nat)
    requires Enabled(s, Step(i)) && Swaps(s, i)
    ensures Pays(s, StepOf(s, i))
  {
    var moved := s.threads[i := RunReturned];
    var after := s.counter + 1;
    MovePays(s, i, RunReturned);
    EventGives(s.cap, s.counter, after, moved, moved);
    SpawnGives(s.cap, after, moved);
    assert NextPc(s, i) == RunReturned;
    assert NextThreads(s, i) == moved + [Body] && NextCounter(s, i) == after;
  }

  lemma DecrementPays(s: State, i: nat)
    requires Enabled(s, Step(i)) && s.threads[i] == Decrement
    ensures Pays(s, StepOf(s, i))
  {
    var moved := s.threads[i := ReleaseLock];
    MovePays(s, i, ReleaseLock);
    EventGives(s.cap, s.counter, s.counter - 1, moved, moved);
    assert StepOf(s, i).threads == moved && StepOf(s, i).counter == s.counter - 1;
  }

  lemma WakeGives(cap: int, counter: int, threads: seq<Pc>)
    ensures Sum(Wake(threads), Events) == Sum(threads, Events) && Sum(Wake(threads), Caller) == Sum(threads, Caller)
    ensures Sum(Wake(threads), Ahead(cap, counter))
      <= Sum(threads, Ahead(cap, counter)) + 6 * Sum(threads, Caller)
  {
    WakeKeepsSum(threads, Events);
    WakeKeepsSum(threads, Caller);
    EventGives(cap, counter, counter, threads, Wake(threads));
  }

  lemma BroadcastPays(s: State, i: nat)
    requires Enabled(s, Step(i)) && s.threads[i] == Broadcasting
    ensures Pays(s, StepOf(s, i))
  {
    MovePays(s, i, ReleaseUnlock);
    WakeGives(s.cap, s.counter, s.threads[i := ReleaseUnlock]);
    assert NextThreads(s, i) == Wake(s.threads[i := ReleaseUnlock]) && NextCounter(s, i) == s.counter;
  }

  lemma PaidLowers(s: State, t: State, worth: int)
    requires Pays(s, t) && t.cap == s.cap && 6 * Sum(s.threads, Caller) + 6 <= worth
    ensures Measure(t, worth) + 1 <= Measure(s, worth)
  {
    OneMore(Sum(t.threads, Events), worth);
  }

  lemma OneMore(n: int, x: int)
    ensures x * (n + 1) == x * n + x
  {
  }

  lemma StepLowers(s: State, i: nat, worth: int)
    requires CountInv(s) && Enabled(s, Step(i)) && 6 * Sum(s.threads, Caller) + 6 <= worth
    ensures Measure(StepOf(s, i), worth) + 1 <= Measure(s, worth)
    ensures Sum(StepOf(s, i).threads, Caller) == Sum(s.threads, Caller)
  {
    if IsEvent(s, i) {
      if Swaps(s, i) {
        SwapPays(s, i);
      } else if s.threads[i] == Decrement {
        DecrementPays(s, i);
      } else {
        BroadcastPays(s, i);
      }
      PaidLowers(s, StepOf(s, i), worth);
    } else {
      QuietLowers(s, i, worth);
    }
  }

  function Runs(sched: seq<Action>): nat {
    if sched == [] then 0 else Runs(sched[..|sched| - 1]) + if sched[|sched| - 1].CallRun? then 1 else 0
  }

  function Waits(sched: seq<Action>): nat {
    if sched == [] then 0 else Waits(sched[..|sched| - 1]) + if sched[|sched| - 1].CallWait? then 1 else 0
  }

  function Steps(sched: seq<Action>): nat {
    if sched == [] then 0 else Steps(sched[..|sched| - 1]) + if sched[|sched| - 1].Step? then 1 else 0
  }

  lemma CallRaises(s: State, a: Action, worth: int)
    requires a == CallRun || a == CallWait
    ensures Sum(Do(s, a).threads, Caller) == Sum(s.threads, Caller) + 1
    ensures Measure(Do(s, a), worth) <= Measure(s, worth) + (if a == CallRun then 3 * worth else 0) + 4
  {
    ThreeMore(Sum(s.threads, Events), worth);
    var p := if a == CallRun then Load else WaitLock;
    SumAppend(s.threads, p, Caller);
    SumAppend(s.threads, p, Events);
    SumAppend(s.threads, p, Ahead(s.cap, s.counter));
  }

  lemma ThreeMore(n: int, x: int)
    ensures x * (n + 3) == x * n + 3 * x
  {
  }

  // The calls of a schedule pay for its steps and for what is left to do after it.
  ghost predicate Paid(s: State, sched: seq<Action>, worth: int) {
    && Sum(s.threads, Caller) == Runs(sched) + Waits(sched)
    && Steps(sched) + Measure(s, worth) <= (3 * worth + 4) * Runs(sched) + 4 * Waits(sched)
  }

  lemma CallPaid(s: State, sched: seq<Action>, a: Action, worth: int)
    requires Paid(s, sched, worth) && (a == CallRun || a == CallWait)
    ensures Paid(Do(s, a), sched + [a], worth)
  {
    assert (sched + [a])[..|sched + [a]| - 1] == sched;
    CallRaises(s, a, worth);
    OneMore(Runs(sched), 3 * worth + 4);
  }

  lemma StepPaid(s: State, sched: seq<Action>, i: nat, worth: int)
    requires Paid(s, sched, worth) && CountInv(s) && Enabled(s, Step(i))
    requires 6 * (Runs(sched) + Waits(sched)) + 6 <= worth
    ensures Paid(StepOf(s, i), sched + [Step(i)], worth)
  {
    assert (sched + [Step(i)])[..|sched + [Step(i)]| - 1] == sched;
    StepLowers(s, i, worth);
  }

  lemma {:induction false} RunPaid(cap: int, sched: seq<Action>, worth: int)
    requires 1 <= cap && Run(cap, sched).Some? && 6 * (Runs(sched) + Waits(sched)) + 6 <= worth
    ensures Paid(Run(cap, sched).value, sched, worth)
  {
    if sched != [] {
      var earlier := sched[..|sched| - 1];
      var a := sched[|sched| - 1];
      RunPaid(cap, earlier, worth);
      RunKeeps(cap, earlier);
      assert sched == earlier + [a];
      if a.Step? {
        StepPaid(Run(cap, earlier).value, earlier, a.i, worth);
      } else {
        CallPaid(Run(cap, earlier).value, earlier, a, worth);
      }
    }
  }

  lemma MeasureNonNegative(s: State, worth: int)
    requires 0 <= worth
    ensures 0 <= Measure(s, worth)
  {
    SumNonNegative(s.threads, Events);
    SumNonNegative(s.threads, Ahead(s.cap, s.counter));
  }

  // With n calls in all, r of them of Run, no schedule takes more than (18 * n + 22) * r + 4 * (n - r)
  // steps: nobody retries for ever, so with NotStuck every call returns once calls stop and bodies
  // end.
  lemma StepsBounded(cap: int, sched: seq<Action>)
    requires 1 <= cap && Run(cap, sched).Some?
    ensures Steps(sched) <= (18 * (Runs(sched) + Waits(sched)) + 22) * Runs(sched) + 4 * Waits(sched)
  {
    var worth := 6 * (Runs(sched) + Waits(sched)) + 6;
    RunPaid(cap, sched, worth);
    MeasureNonNegative(Run(cap, sched).value, worth);
    assert 3 * worth + 4 == 18 * (Runs(sched) + Waits(sched)) + 22;
  }
}
