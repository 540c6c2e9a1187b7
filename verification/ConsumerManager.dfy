/** utils/taskConsumerManager/manager.go: keep `count` copies of each registered task running
    until Stop.

    A step system over any number of AddTask and Stop calls.  Each AddTask that gets past its
    check spawns a dispatcher, which spawns workers; the select of the dispatcher is resolved by
    the schedule when both its cases are ready. */
module ConsumerManager {
  import opened Sums
  import opened Wrappers

  datatype AddPc =
    | AddCheck(n: nat)     // about to look at ctx.Done()
    | AddWg(n: nat)        // about to call m.wg.Add(1)
    | AddSpawn(n: nat)     // about to spawn the dispatcher
    | AddReturned

  datatype StopPc = StopCancel | StopWait | StopReturned

  datatype DispatchPc =
    | Selecting            // in the select over ctx.Done() and the token send
    | Rechecking           // sent a token, about to look at ctx.Done() again
    | Spawning             // about to spawn a worker
    | Awaiting             // deferred wg.Wait()
    | ClosingTokens        // deferred close(tChan)
    | Signing              // deferred m.wg.Done()
    | Gone

  datatype WorkerPc =
    | Running              // inside the task body, or about to enter it
    | Signed               // body over, about to call wg.Done()
    | FreeToken            // about to take a token out of tChan
    | Exited

  datatype Dispatcher = Dispatcher(
    count: nat,            // capacity of tChan
    pc: DispatchPc,
    tokens: int,           // elements in tChan
    closed: bool,          // tChan is closed
    wg: int,               // the dispatcher's own wait group
    workers: seq<WorkerPc>
  )

  datatype State = State(
    cancelled: bool,
    wg: int,               // m.wg
    adders: seq<AddPc>,
    stoppers: seq<StopPc>,
    dispatchers: seq<Dispatcher>,
    panicked: bool         // a token was sent on a closed channel
  )

  datatype Action =
    | CallAdd(n: nat)
    | CallStop
    | Add(i: nat)
    | Stop(i: nat)
    | Token(d: nat)                // the dispatcher's select sends a token
    | Dispatch(d: nat)             // any other step of the dispatcher
    | Work(d: nat, k: nat)

  const Init := State(false, 0, [], [], [], false)

  predicate DispatchEnabled(s: State, d: Dispatcher) {
    match d.pc
    case Selecting => s.cancelled
    case Awaiting => d.wg == 0
    case Gone => false
    case _ => true
  }

  predicate Enabled(s: State, a: Action) {
    match a
    case CallAdd(n) => true
    case CallStop => true
    case Add(i) => i < |s.adders| && s.adders[i] != AddReturned
    case Stop(i) => i < |s.stoppers| && (s.stoppers[i] == StopCancel || (s.stoppers[i] == StopWait && s.wg == 0))
    case Token(d) =>
      d < |s.dispatchers| && s.dispatchers[d].pc == Selecting && s.dispatchers[d].tokens < s.dispatchers[d].count
    case Dispatch(d) => d < |s.dispatchers| && DispatchEnabled(s, s.dispatchers[d])
    case Work(d, k) =>
      && d < |s.dispatchers| && k < |s.dispatchers[d].workers|
      && s.dispatchers[d].workers[k] != Exited
      && (s.dispatchers[d].workers[k] == FreeToken ==> 0 < s.dispatchers[d].tokens || s.dispatchers[d].closed)
  }

  // A step of a dispatcher other than sending a token, as far as it concerns the dispatcher.
  function DispatcherStep(cancelled: bool, d: Dispatcher): Dispatcher {
    match d.pc
    case Selecting => d.(pc := Awaiting)
    case Rechecking => d.(pc := if cancelled then Awaiting else Spawning)
    case Spawning => d.(wg := d.wg + 1, workers := d.workers + [Running], pc := Selecting)
    case Awaiting => d.(pc := ClosingTokens)
    case ClosingTokens => d.(closed := true, pc := Signing)
    case Signing => d.(pc := Gone)
    case Gone => d
  }

  function WorkerStep(d: Dispatcher, k: nat): Dispatcher
    requires k < |d.workers|
  {
    match d.workers[k]
    case Running => d.(workers := d.workers[k := Signed])
    case Signed => d.(wg := d.wg - 1, workers := d.workers[k := FreeToken])
    case FreeToken => d.(tokens := if 0 < d.tokens then d.tokens - 1 else d.tokens, workers := d.workers[k := Exited])
    case Exited => d
  }

  function AddStep(s: State, i: nat): State
    requires i < |s.adders|
  {
    match s.adders[i]
    case AddCheck(n) => s.(adders := s.adders[i := if s.cancelled then AddReturned else AddWg(n)])
    case AddWg(n) => s.(wg := s.wg + 1, adders := s.adders[i := AddSpawn(n)])
    case AddSpawn(n) =>
      s.(dispatchers := s.dispatchers + [Dispatcher(n, Selecting, 0, false, 0, [])],
         adders := s.adders[i := AddReturned])
    case AddReturned => s
  }

  function Do(s: State, a: Action): State
    requires Enabled(s, a)
  {
    match a
    case CallAdd(n) => s.(adders := s.adders + [AddCheck(n)])
    case CallStop => s.(stoppers := s.stoppers + [StopCancel])
    case Add(i) => AddStep(s, i)
    case Stop(i) =>
      if s.stoppers[i] == StopCancel then s.(cancelled := true, stoppers := s.stoppers[i := StopWait])
      else s.(stoppers := s.stoppers[i := StopReturned])
    case Token(d) =>
      var x := s.dispatchers[d];
      s.(dispatchers := s.dispatchers[d := x.(tokens := x.tokens + 1, pc := Rechecking)],
         panicked := s.panicked || x.closed)
    case Dispatch(d) =>
      var x := s.dispatchers[d];
      s.(dispatchers := s.dispatchers[d := DispatcherStep(s.cancelled, x)],
         wg := if x.pc == Signing then s.wg - 1 else s.wg,
         panicked := s.panicked || (x.pc == ClosingTokens && x.closed))
    case Work(d, k) => s.(dispatchers := s.dispatchers[d := WorkerStep(s.dispatchers[d], k)])
  }

  function Run(sched: seq<Action>): Option<State> {
    if sched == [] then Some(Init)
    else
      var before := Run(sched[..|sched| - 1]);
      var a := sched[|sched| - 1];
      if before.Some? && Enabled(before.value, a) then Some(Do(before.value, a)) else None
  }

  function AtBody(w: WorkerPc): int { if w == Running then 1 else 0 }
  function Busy(w: WorkerPc): int { if w == Running || w == Signed then 1 else 0 }
  function HasToken(w: WorkerPc): int { if w == Exited then 0 else 1 }
  function Live(d: Dispatcher): int { if d.pc == Gone then 0 else 1 }
  function Added(a: AddPc): int { if a.AddSpawn? then 1 else 0 }

  predicate Leaving(pc: DispatchPc) { pc == Awaiting || pc == ClosingTokens || pc == Signing || pc == Gone }

  // One dispatcher: its wait group counts the workers whose body is not over, its tokens cover
  // all workers, and it closes the token channel only on its way out.
  ghost predicate DispatcherInv(d: Dispatcher) {
    && d.wg == Sum(d.workers, Busy)
    && Sum(d.workers, HasToken) + (if d.pc == Rechecking || d.pc == Spawning then 1 else 0) <= d.tokens <= d.count
    && (d.closed <==> d.pc == Signing || d.pc == Gone)
    && (d.pc == ClosingTokens || d.pc == Signing || d.pc == Gone ==> d.wg == 0)
  }

  ghost predicate Stopped(s: State) {
    exists i :: 0 <= i < |s.stoppers| && s.stoppers[i] == StopReturned
  }

  ghost predicate Inv(s: State) {
    && !s.panicked
    && (forall d :: 0 <= d < |s.dispatchers| ==> DispatcherInv(s.dispatchers[d]))
    && (forall d :: 0 <= d < |s.dispatchers| && Leaving(s.dispatchers[d].pc) ==> s.cancelled)
    && s.wg == Sum(s.dispatchers, Live) + Sum(s.adders, Added)
    && (forall i :: 0 <= i < |s.stoppers| && s.stoppers[i] != StopCancel ==> s.cancelled)
    && (Stopped(s) ==> Quiet(s))
  }

  // No dispatcher has a busy worker or is about to spawn one.
  ghost predicate Quiet(s: State) {
    forall d :: 0 <= d < |s.dispatchers| ==> s.dispatchers[d].wg == 0 && s.dispatchers[d].pc != Spawning
  }

  lemma SpawnedWorker(d: Dispatcher)
    requires DispatcherInv(d) && d.pc == Spawning
    ensures DispatcherInv(d.(wg := d.wg + 1, workers := d.workers + [Running], pc := Selecting))
  {
    SumAppend(d.workers, Running, Busy);
    SumAppend(d.workers, Running, HasToken);
  }

  lemma DispatcherKeeps(cancelled: bool, d: Dispatcher)
    requires DispatcherInv(d) && d.pc != Gone && (d.pc == Awaiting ==> d.wg == 0)
    ensures DispatcherInv(DispatcherStep(cancelled, d))
  {
    if d.pc == Spawning {
      SpawnedWorker(d);
    } else {
      assert DispatcherStep(cancelled, d).workers == d.workers;
    }
  }

  lemma WorkerKeeps(d: Dispatcher, k: nat)
    requires DispatcherInv(d) && k < |d.workers|
    ensures DispatcherInv(WorkerStep(d, k))
    ensures WorkerStep(d, k).wg <= d.wg && WorkerStep(d, k).pc == d.pc
    ensures |WorkerStep(d, k).workers| == |d.workers|
  {
    var w := WorkerStep(d, k).workers[k];
    SumUpdate(d.workers, k, w, Busy);
    SumUpdate(d.workers, k, w, HasToken);
    SumAtLeast(d.workers, k, HasToken);
    SumAtLeast(d.workers, k, Busy);
  }

  // The new dispatcher starts out with nothing; the count its caller added becomes its own.
  lemma SpawnKeeps(s: State, i: nat)
    requires Inv(s) && Enabled(s, Add(i)) && s.adders[i].AddSpawn?
    ensures Inv(AddStep(s, i))
  {
    var d := Dispatcher(s.adders[i].n, Selecting, 0, false, 0, []);
    SumUpdate(s.adders, i, AddReturned, Added);
    SumAppend(s.dispatchers, d, Live);
    assert DispatcherInv(d);
    assert AddStep(s, i).stoppers == s.stoppers;
  }

  lemma AddKeeps(s: State, i: nat)
    requires Inv(s) && Enabled(s, Add(i))
    ensures Inv(AddStep(s, i))
  {
    if s.adders[i].AddSpawn? {
      SpawnKeeps(s, i);
    } else {
      var t := AddStep(s, i);
      SumUpdate(s.adders, i, t.adders[i], Added);
      assert t.stoppers == s.stoppers && t.dispatchers == s.dispatchers;
    }
  }

  // m.wg at zero when Wait looks: every dispatcher is gone.
  lemma WaitFindsNobody(s: State)
    requires Inv(s) && s.wg == 0
    ensures forall d :: 0 <= d < |s.dispatchers| ==> s.dispatchers[d].pc == Gone
  {
    SumNonNegative(s.adders, Added);
    forall d | 0 <= d < |s.dispatchers|
      ensures s.dispatchers[d].pc == Gone
    {
      SumAtLeast(s.dispatchers, d, Live);
    }
  }

  lemma StopKeeps(s: State, i: nat)
    requires Inv(s) && Enabled(s, Stop(i))
    ensures Inv(Do(s, Stop(i)))
  {
    var t := Do(s, Stop(i));
    if s.stoppers[i] == StopWait {
      WaitFindsNobody(s);
    } else if Stopped(t) {
      var j :| 0 <= j < |t.stoppers| && t.stoppers[j] == StopReturned;
      assert s.stoppers[j] == StopReturned;
    }
  }

  lemma TokenKeeps(s: State, d: nat)
    requires Inv(s) && Enabled(s, Token(d))
    ensures Inv(Do(s, Token(d)))
  {
    var t := Do(s, Token(d));
    assert DispatcherInv(s.dispatchers[d]);
    SumUpdate(s.dispatchers, d, t.dispatchers[d], Live);
    assert t.stoppers == s.stoppers;
  }

  lemma DispatchKeeps(s: State, d: nat)
    requires Inv(s) && Enabled(s, Dispatch(d))
    ensures Inv(Do(s, Dispatch(d)))
  {
    var t := Do(s, Dispatch(d));
    assert DispatcherInv(s.dispatchers[d]);
    DispatcherKeeps(s.cancelled, s.dispatchers[d]);
    SumUpdate(s.dispatchers, d, t.dispatchers[d], Live);
    assert t.stoppers == s.stoppers;
  }

  lemma WorkKeeps(s: State, d: nat, k: nat)
    requires Inv(s) && Enabled(s, Work(d, k))
    ensures Inv(Do(s, Work(d, k)))
  {
    var t := Do(s, Work(d, k));
    assert DispatcherInv(s.dispatchers[d]);
    WorkerKeeps(s.dispatchers[d], k);
    SumNonNegative(t.dispatchers[d].workers, Busy);
    SumUpdate(s.dispatchers, d, t.dispatchers[d], Live);
    assert t.stoppers == s.stoppers;
  }

  lemma StepKeeps(s: State, a: Action)
    requires Inv(s) && Enabled(s, a)
    ensures Inv(Do(s, a))
  {
    match a
    case CallAdd(n) => SumAppend(s.adders, AddCheck(n), Added);
    case CallStop =>
      if Stopped(Do(s, a)) {
        var j :| 0 <= j < |Do(s, a).stoppers| && Do(s, a).stoppers[j] == StopReturned;
        assert s.stoppers[j] == StopReturned;
      }
    case Add(i) => AddKeeps(s, i);
    case Stop(i) => StopKeeps(s, i);
    case Token(d) => TokenKeeps(s, d);
    case Dispatch(d) => DispatchKeeps(s, d);
    case Work(d, k) => WorkKeeps(s, d, k);
  }

  lemma {:induction false} RunKeeps(sched: seq<Action>)
    requires Run(sched).Some?
    ensures Inv(Run(sched).value)
  {
    if sched != [] {
      RunKeeps(sched[..|sched| - 1]);
      StepKeeps(Run(sched[..|sched| - 1]).value, sched[|sched| - 1]);
    }
  }

  // Main results, for every schedule

  // At most `count` copies of a task run at once, and no token is sent on a closed channel.
  lemma AtMostCount(sched: seq<Action>, d: nat)
    requires Run(sched).Some? && d < |Run(sched).value.dispatchers|
    ensures var x := Run(sched).value.dispatchers[d]; Sum(x.workers, AtBody) <= x.count
    ensures !Run(sched).value.panicked
  {
    RunKeeps(sched);
    SumMonotone(Run(sched).value.dispatchers[d].workers, AtBody, HasToken);
  }

  // A stopped manager stays stopped, and its dispatchers spawn no more workers.
  lemma StoppedStays(s: State, a: Action)
    requires Inv(s) && Stopped(s) && Enabled(s, a)
    ensures var t := Do(s, a);
      && Stopped(t)
      && |s.dispatchers| <= |t.dispatchers|
      && (forall d :: 0 <= d < |s.dispatchers| ==> |t.dispatchers[d].workers| == |s.dispatchers[d].workers|)
      && (forall d :: |s.dispatchers| <= d < |t.dispatchers| ==> t.dispatchers[d].workers == [])
  {
    var j :| 0 <= j < |s.stoppers| && s.stoppers[j] == StopReturned;
    assert Do(s, a).stoppers[j] == StopReturned;
  }

  // Once some Stop has returned no body is running, and however the schedule goes on, with
  // AddTask calls under way or yet to come, no body is ever started again.
  lemma {:induction false} NothingAfterStop(sched: seq<Action>, more: seq<Action>)
    requires Run(sched).Some? && Stopped(Run(sched).value) && Run(sched + more).Some?
    ensures Inv(Run(sched + more).value) && Stopped(Run(sched + more).value)
    ensures var s := Run(sched).value; var t := Run(sched + more).value;
      && |s.dispatchers| <= |t.dispatchers|
      && (forall d :: 0 <= d < |s.dispatchers| ==> |t.dispatchers[d].workers| == |s.dispatchers[d].workers|)
      && (forall d :: |s.dispatchers| <= d < |t.dispatchers| ==> t.dispatchers[d].workers == [])
    ensures var t := Run(sched + more).value;
      forall d, k :: 0 <= d < |t.dispatchers| && 0 <= k < |t.dispatchers[d].workers| ==>
        t.dispatchers[d].workers[k] != Running
  {
    RunKeeps(sched + more);
    if more == [] {
      assert sched + more == sched;
    } else {
      var earlier := more[..|more| - 1];
      assert (sched + more)[..|sched + more| - 1] == sched + earlier;
      NothingAfterStop(sched, earlier);
      StoppedStays(Run(sched + earlier).value, more[|more| - 1]);
    }
    NobodyRuns(Run(sched + more).value);
  }

  lemma NobodyRuns(s: State)
    requires Inv(s) && Quiet(s)
    ensures forall d, k :: 0 <= d < |s.dispatchers| && 0 <= k < |s.dispatchers[d].workers| ==>
      s.dispatchers[d].workers[k] != Running
  {
    forall d, k | 0 <= d < |s.dispatchers| && 0 <= k < |s.dispatchers[d].workers|
      ensures s.dispatchers[d].workers[k] != Running
    {
      SumAtLeast(s.dispatchers[d].workers, k, Busy);
    }
  }

  // What is left to do after the cancel

  function WorkerRank(w: WorkerPc): int {
    match w
    case Running => 3
    case Signed => 2
    case FreeToken => 1
    case Exited => 0
  }

  // With the context done, a dispatcher on its way out may still send one token, or spawn one
  // worker, before it leaves its loop.
  function DispatchRank(pc: DispatchPc): int {
    match pc
    case Spawning => 9
    case Selecting => 5
    case Rechecking => 4
    case Awaiting => 3
    case ClosingTokens => 2
    case Signing => 1
    case Gone => 0
  }

  function Left(d: Dispatcher): int { DispatchRank(d.pc) + Sum(d.workers, WorkerRank) }

  // An AddTask that was past its check when the context was done still brings a dispatcher.
  function AddRank(a: AddPc): int {
    match a
    case AddCheck(n) => 0
    case AddWg(n) => 7
    case AddSpawn(n) => 6
    case AddReturned => 0
  }

  // The most steps that adders past their check, dispatchers and workers can still take.
  function Backlog(s: State): int { Sum(s.dispatchers, Left) + Sum(s.adders, AddRank) }

  // A step of one of these, as opposed to a new call, a check that finds the context done, or a
  // step of Stop itself.
  predicate Draining(s: State, a: Action)
    requires Enabled(s, a)
  {
    a.Token? || a.Dispatch? || a.Work? || (a.Add? && !s.adders[a.i].AddCheck?)
  }

  lemma {:induction false} BacklogNonNegative(s: State)
    ensures 0 <= Backlog(s)
  {
    forall d | d in s.dispatchers
      ensures 0 <= Left(d)
    {
      SumNonNegative(d.workers, WorkerRank);
    }
    SumNonNegative(s.dispatchers, Left);
    SumNonNegative(s.adders, AddRank);
  }

  lemma DispatcherDrains(d: Dispatcher)
    requires d.pc != Gone
    ensures Left(DispatcherStep(true, d)) < Left(d)
  {
    SumAppend(d.workers, Running, WorkerRank);
  }

  lemma WorkerDrains(d: Dispatcher, k: nat)
    requires k < |d.workers| && d.workers[k] != Exited
    ensures Left(WorkerStep(d, k)) < Left(d)
  {
    SumUpdate(d.workers, k, WorkerStep(d, k).workers[k], WorkerRank);
  }

  lemma AdderDrains(s: State, i: nat)
    requires s.cancelled && Enabled(s, Add(i))
    ensures Backlog(AddStep(s, i)) + (if s.adders[i].AddCheck? then 0 else 1) <= Backlog(s)
  {
    SumUpdate(s.adders, i, AddStep(s, i).adders[i], AddRank);
    if s.adders[i].AddSpawn? {
      SumAppend(s.dispatchers, Dispatcher(s.adders[i].n, Selecting, 0, false, 0, []), Left);
    }
  }

  // After the cancel every draining step brings the backlog down and no other step raises it.
  lemma StepDrains(s: State, a: Action)
    requires s.cancelled && Enabled(s, a)
    ensures var t := Do(s, a);
      && t.cancelled && 0 <= Backlog(t)
      && Backlog(t) + (if Draining(s, a) then 1 else 0) <= Backlog(s)
  {
    var t := Do(s, a);
    BacklogNonNegative(t);
    match a
    case CallAdd(n) => SumAppend(s.adders, AddCheck(n), AddRank);
    case CallStop =>
    case Add(i) => AdderDrains(s, i);
    case Stop(i) =>
    case Token(d) => SumUpdate(s.dispatchers, d, t.dispatchers[d], Left);
    case Dispatch(d) =>
      DispatcherDrains(s.dispatchers[d]);
      SumUpdate(s.dispatchers, d, t.dispatchers[d], Left);
    case Work(d, k) =>
      WorkerDrains(s.dispatchers[d], k);
      SumUpdate(s.dispatchers, d, t.dispatchers[d], Left);
  }

  // How many draining steps the schedule takes after its first `from` steps.
  function DrainingSteps(sched: seq<Action>, from: nat): nat
    requires Run(sched).Some?
  {
    if |sched| <= from then 0
    else
      var s := Run(sched[..|sched| - 1]).value;
      DrainingSteps(sched[..|sched| - 1], from) + if Draining(s, sched[|sched| - 1]) then 1 else 0
  }

  // From the cancel on, however the schedule goes on and however many calls still come, the
  // draining steps are bounded by the backlog at the cancel.
  lemma {:induction false} DrainingIsBounded(sched: seq<Action>, more: seq<Action>)
    requires Run(sched).Some? && Run(sched).value.cancelled && Run(sched + more).Some?
    ensures Run(sched + more).value.cancelled
    ensures DrainingSteps(sched + more, |sched|) + Backlog(Run(sched + more).value) <= Backlog(Run(sched).value)
    ensures DrainingSteps(sched + more, |sched|) <= Backlog(Run(sched).value)
  {
    if more == [] {
      assert sched + more == sched;
    } else {
      var earlier := more[..|more| - 1];
      assert (sched + more)[..|sched + more| - 1] == sched + earlier;
      DrainingIsBounded(sched, earlier);
      StepDrains(Run(sched + earlier).value, more[|more| - 1]);
    }
    BacklogNonNegative(Run(sched + more).value);
  }

  // And a Stop that is still waiting never blocks the system: it can return, or a draining step
  // can be taken.  So once the bodies end, it does return.
  lemma StopNotStuck(sched: seq<Action>, i: nat) returns (a: Action)
    requires Run(sched).Some? && i < |Run(sched).value.stoppers| && Run(sched).value.stoppers[i] == StopWait
    ensures Run(sched).value.cancelled
    ensures Run(sched + [a]).Some? && Enabled(Run(sched).value, a)
    ensures a == Stop(i) || (Draining(Run(sched).value, a) && !a.Token?)
  {
    RunKeeps(sched);
    var s := Run(sched).value;
    a := Stop(i);
    if s.wg != 0 {
      SumNonNegative(s.adders, Added);
      SumNonNegative(s.dispatchers, Live);
      if 0 < Sum(s.adders, Added) {
        var k := SumWitness(s.adders, Added);
        a := Add(k);
      } else {
        var d := SumWitness(s.dispatchers, Live);
        a := Dispatch(d);
        if s.dispatchers[d].pc == Awaiting && s.dispatchers[d].wg != 0 {
          SumNonNegative(s.dispatchers[d].workers, Busy);
          var k := SumWitness(s.dispatchers[d].workers, Busy);
          a := Work(d, k);
        }
      }
    }
    assert (sched + [a])[..|sched + [a]| - 1] == sched;
  }

  // What a running manager does for every task

  function HasCount(n: nat): Dispatcher -> int { (d: Dispatcher) => if d.count == n then 1 else 0 }

  function AddsCount(n: nat): AddPc -> int {
    (a: AddPc) => if a == AddCheck(n) || a == AddWg(n) || a == AddSpawn(n) then 1 else 0
  }

  // Tasks with n copies that have a dispatcher, or whose AddTask is on its way to one.
  function Registered(s: State, n: nat): int { Sum(s.dispatchers, HasCount(n)) + Sum(s.adders, AddsCount(n)) }

  function Adds(sched: seq<Action>, n: nat): nat {
    if sched == [] then 0
    else Adds(sched[..|sched| - 1], n) + if sched[|sched| - 1] == CallAdd(n) then 1 else 0
  }

  lemma AddRegisters(s: State, i: nat, n: nat)
    requires Enabled(s, Add(i)) && !s.cancelled
    ensures Registered(AddStep(s, i), n) == Registered(s, n)
  {
    SumUpdate(s.adders, i, AddStep(s, i).adders[i], AddsCount(n));
    if s.adders[i].AddSpawn? {
      SumAppend(s.dispatchers, Dispatcher(s.adders[i].n, Selecting, 0, false, 0, []), HasCount(n));
    }
  }

  lemma StepRegisters(s: State, a: Action, n: nat)
    requires Enabled(s, a) && !s.cancelled
    ensures Registered(Do(s, a), n) == Registered(s, n) + if a == CallAdd(n) then 1 else 0
  {
    var t := Do(s, a);
    match a
    case CallAdd(m) => SumAppend(s.adders, AddCheck(m), AddsCount(n));
    case CallStop =>
    case Add(i) => AddRegisters(s, i, n);
    case Stop(i) =>
    case Token(d) => SumUpdate(s.dispatchers, d, t.dispatchers[d], HasCount(n));
    case Dispatch(d) => SumUpdate(s.dispatchers, d, t.dispatchers[d], HasCount(n));
    case Work(d, k) => SumUpdate(s.dispatchers, d, t.dispatchers[d], HasCount(n));
  }

  lemma CancelLasts(s: State, a: Action)
    requires Enabled(s, a) && s.cancelled
    ensures Do(s, a).cancelled
  {
  }

  // Until the context is done no task is lost: for every n there are as many dispatchers of n copies,
  // counting the calls on their way, as there were calls of AddTask with n.
  lemma {:induction false} EveryTaskRegistered(sched: seq<Action>, n: nat)
    requires Run(sched).Some? && !Run(sched).value.cancelled
    ensures Registered(Run(sched).value, n) == Adds(sched, n)
  {
    if sched != [] {
      var s := Run(sched[..|sched| - 1]).value;
      var a := sched[|sched| - 1];
      if s.cancelled {
        CancelLasts(s, a);
      }
      EveryTaskRegistered(sched[..|sched| - 1], n);
      StepRegisters(s, a, n);
    }
  }

  // Until then a dispatcher's tokens are those of its workers and the one in its own hand.
  ghost predicate ExactTokens(d: Dispatcher) {
    && (d.pc == Selecting || d.pc == Rechecking || d.pc == Spawning)
    && d.tokens == Sum(d.workers, HasToken) + if d.pc == Selecting then 0 else 1
  }

  lemma DispatchKeepsTokens(d: Dispatcher)
    requires ExactTokens(d) && d.pc != Selecting
    ensures ExactTokens(DispatcherStep(false, d))
  {
    SumAppend(d.workers, Running, HasToken);
  }

  lemma WorkKeepsTokens(d: Dispatcher, k: nat)
    requires ExactTokens(d) && k < |d.workers| && (d.workers[k] == FreeToken ==> 0 < d.tokens)
    ensures ExactTokens(WorkerStep(d, k))
  {
    SumUpdate(d.workers, k, WorkerStep(d, k).workers[k], HasToken);
  }

  lemma {:induction false} TokensAreExact(sched: seq<Action>)
    requires Run(sched).Some? && !Run(sched).value.cancelled
    ensures forall d :: 0 <= d < |Run(sched).value.dispatchers| ==> ExactTokens(Run(sched).value.dispatchers[d])
  {
    if sched != [] {
      var s := Run(sched[..|sched| - 1]).value;
      var a := sched[|sched| - 1];
      if s.cancelled {
        CancelLasts(s, a);
      }
      TokensAreExact(sched[..|sched| - 1]);
      RunKeeps(sched[..|sched| - 1]);
      match a
      case Dispatch(d) => DispatchKeepsTokens(s.dispatchers[d]);
      case Work(d, k) =>
        assert DispatcherInv(s.dispatchers[d]);
        WorkKeepsTokens(s.dispatchers[d], k);
      case CallAdd(n) =>
      case CallStop =>
      case Add(i) =>
      case Stop(i) =>
      case Token(d) =>
    }
  }

  // The three steps with which a dispatcher starts one more copy.
  lemma StartCopy(s: State, d: nat)
    requires !s.cancelled && Enabled(s, Token(d))
    ensures var t := Do(s, Token(d));
      && Enabled(t, Dispatch(d))
      && var u := Do(t, Dispatch(d));
      && Enabled(u, Dispatch(d))
      && var v := Do(u, Dispatch(d));
      && |v.dispatchers| == |s.dispatchers| && v.dispatchers[d].pc == Selecting
      && v.dispatchers[d].workers == s.dispatchers[d].workers + [Running]
  {
  }

  // Until the context is done, whenever a dispatcher is at its select and fewer than `count` of its
  // copies hold a token, it can start another one.
  lemma CopiesAreReplaced(sched: seq<Action>, d: nat)
    requires Run(sched).Some? && !Run(sched).value.cancelled && d < |Run(sched).value.dispatchers|
    requires var x := Run(sched).value.dispatchers[d]; x.pc == Selecting && Sum(x.workers, HasToken) < x.count
    ensures var r := Run(sched + [Token(d)] + [Dispatch(d)] + [Dispatch(d)]);
      && r.Some? && d < |r.value.dispatchers|
      && r.value.dispatchers[d].workers == Run(sched).value.dispatchers[d].workers + [Running]
  {
    TokensAreExact(sched);
    var s := Run(sched).value;
    assert ExactTokens(s.dispatchers[d]);
    StartCopy(s, d);
    RunOneMore(sched, Token(d));
    RunOneMore(sched + [Token(d)], Dispatch(d));
    RunOneMore(sched + [Token(d)] + [Dispatch(d)], Dispatch(d));
  }

  lemma RunOneMore(sched: seq<Action>, a: Action)
    requires Run(sched).Some? && Enabled(Run(sched).value, a)
    ensures Run(sched + [a]) == Some(Do(Run(sched).value, a))
  {
    assert (sched + [a])[..|sched + [a]| - 1] == sched;
  }

  function Stops(sched: seq<Action>): nat {
    if sched == [] then 0 else Stops(sched[..|sched| - 1]) + if sched[|sched| - 1].CallStop? then 1 else 0
  }

  // Every call of Stop is under way or has returned, and the first step of any of them makes the
  // context done.
  lemma {:induction false} StopsAreAnswered(sched: seq<Action>)
    requires Run(sched).Some?
    ensures var s := Run(sched).value;
      && |s.stoppers| == Stops(sched)
      && (s.cancelled <==> exists i :: 0 <= i < |s.stoppers| && s.stoppers[i] != StopCancel)
  {
    if sched != [] {
      StopsAreAnswered(sched[..|sched| - 1]);
      StopAnswered(Run(sched[..|sched| - 1]).value, sched[|sched| - 1]);
    }
  }

  ghost predicate Answered(s: State) {
    s.cancelled <==> exists i :: 0 <= i < |s.stoppers| && s.stoppers[i] != StopCancel
  }

  lemma StopAnswered(s: State, a: Action)
    requires Enabled(s, a) && Answered(s)
    ensures Answered(Do(s, a)) && |Do(s, a).stoppers| == |s.stoppers| + if a.CallStop? then 1 else 0
  {
    var t := Do(s, a);
    if s.cancelled {
      var i :| 0 <= i < |s.stoppers| && s.stoppers[i] != StopCancel;
      assert t.stoppers[i] != StopCancel;
    } else if a.Stop? {
      assert t.stoppers[a.i] != StopCancel;
    }
  }
}
