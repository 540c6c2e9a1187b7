/** utils/taskRunManager/chanTask.go: run one task per parameter on a bounded pool and keep the
    first `want` results.

    A step system with one driver goroutine, one goroutine per task, the caller that receives,
    and the parent context.  Every atomic operation, channel operation and context call is one
    step.  What the tasks return and how the goroutines interleave is chosen by the schedule. */
module FirstResults {
  import opened Sums
  import opened Wrappers

  type Value(==)
  const MAX_INT32: int := 0x7fff_ffff
  const MIN_INT32: int := -0x8000_0000

  // One decrement of an atomic.Int32.
  function Dec32(x: int): int {
    if x == MIN_INT32 then MAX_INT32 else x - 1
  }

  // Where a task goroutine stands.
  datatype TaskPc =
    | Running      // inside fn(ctx, p)
    | Check        // fn returned ok; about to look at ctx.Done()
    | Claim        // about to decrement resultCount
    | CancelLate   // resultCount went negative; about to cancel()
    | Send         // about to do the non-blocking send
    | Enter        // sent; about to decrement enterCount
    | CancelFull   // enterCount reached zero; about to cancel()
    | CloseFull    // about to call closeChan()
    | FreeSlot     // deferred: about to take a token out of tChan
    | Leave        // deferred: about to call wg.Done()
    | Finished

  // Where the driver goroutine stands; `started` tasks have been spawned already.
  datatype DriverPc =
    | Adding       // about to call wg.Add(1) for the next task, or to call Wait
    | Acquiring    // about to put a token into tChan, blocked while it is full
    | Starting     // about to spawn the task
    | Waiting      // in wg.Wait()
    | Cancelling   // deferred cancel()
    | Closing      // deferred closeChan()
    | Ended

  datatype Config = Config(want: int, pool: int, total: nat) {
    // The counts fit the int32 counters; the pool can hold a task.
    ghost predicate Valid() {
      0 <= want <= MAX_INT32 && 1 <= pool <= MAX_INT32
    }
  }

  datatype State = State(
    driver: DriverPc,
    tasks: seq<TaskPc>,
    results: seq<Option<Value>>,   // what fn returned for each task
    wg: int,
    tokens: nat,               // elements in tChan
    cancelled: bool,           // cancel() has been called
    parentDone: bool,          // the parent context is done
    resultCount: int,
    enterCount: int,
    origins: seq<nat>,         // which task each sent value came from
    received: seq<Value>,          // values the caller has taken out of resChan
    buffer: seq<Value>,            // values still in resChan
    closed: bool,
    onceDone: bool,            // the sync.OnceFunc around close has run
    closes: nat,               // calls of close(resChan)
    dropped: nat,              // values the non-blocking send threw away
    panicked: bool,            // a send on, or a second close of, the closed channel
    successes: nat,            // tasks whose fn returned ok
    skipped: nat               // successful tasks that found the context done
  ) {
    function Sent(): seq<Value> { received + buffer }
    predicate Done() { cancelled || parentDone }
  }

  datatype Action =
    | Driver                          // the next step of the driver
    | Return(i: nat, r: Option<Value>)    // task i's fn returns r
    | Task(i: nat)                    // the next step of task i after fn
    | Receive                         // the caller receives one value
    | CancelParent

  function Init(c: Config): State {
    State(Adding, [], [], 0, 0, false, false, c.want, c.want, [], [], [], false, false, 0, 0, false, 0, 0)
  }

  predicate Enabled(c: Config, s: State, a: Action) {
    match a
    case Driver =>
      (match s.driver
       case Acquiring => s.tokens < c.pool
       case Waiting => s.wg == 0
       case Ended => false
       case _ => true)
    case Return(i, r) => i < |s.tasks| && s.tasks[i] == Running
    case Task(i) => i < |s.tasks| && s.tasks[i] != Running && s.tasks[i] != Finished
                    && (s.tasks[i] == FreeSlot ==> 0 < s.tokens)
    case Receive => s.buffer != []
    case CancelParent => true
  }

  // closeChan(): only the first call closes.
  function CloseOnce(s: State): State {
    if s.onceDone then s
    else s.(onceDone := true, closed := true, closes := s.closes + 1, panicked := s.panicked || s.closed)
  }

  function DriverStep(c: Config, s: State): State
    requires Enabled(c, s, Driver)
  {
    match s.driver
    case Adding =>
      if |s.tasks| < c.total then s.(wg := s.wg + 1, driver := Acquiring) else s.(driver := Waiting)
    case Acquiring => s.(tokens := s.tokens + 1, driver := Starting)
    case Starting => s.(tasks := s.tasks + [Running], results := s.results + [None], driver := Adding)
    case Waiting => s.(driver := Cancelling)
    case Cancelling => s.(cancelled := true, driver := Closing)
    case Closing => CloseOnce(s).(driver := Ended)
  }

  // Where task i goes next; it only ever moves forward.
  function NextPc(c: Config, s: State, i: nat): (pc: TaskPc)
    requires Enabled(c, s, Task(i))
    ensures Rank(pc) < Rank(s.tasks[i])
  {
    match s.tasks[i]
    case Check => if s.Done() then FreeSlot else Claim
    case Claim => if Dec32(s.resultCount) < 0 then CancelLate else Send
    case CancelLate => FreeSlot
    case Send => if !s.closed && |s.buffer| < c.want then Enter else FreeSlot
    case Enter => if Dec32(s.enterCount) == 0 then CancelFull else FreeSlot
    case CancelFull => CloseFull
    case CloseFull => FreeSlot
    case FreeSlot => Leave
    case Leave => Finished
  }

  // The non-blocking send: it panics on a closed channel and gives up on a full one.
  function TrySend(c: Config, s: State, i: nat, v: Value): State {
    if s.closed then s.(panicked := true)
    else if |s.buffer| < c.want then s.(buffer := s.buffer + [v], origins := s.origins + [i])
    else s.(dropped := s.dropped + 1)
  }

  // What the step of task i does to everything but its own place.
  function Effect(c: Config, s: State, i: nat): State
    requires |s.tasks| == |s.results| && Enabled(c, s, Task(i))
  {
    match s.tasks[i]
    case Check => if s.Done() then s.(skipped := s.skipped + 1) else s
    case Claim => s.(resultCount := Dec32(s.resultCount))
    case CancelLate => s.(cancelled := true)
    case Send => if s.results[i].Some? then TrySend(c, s, i, s.results[i].value) else s
    case Enter => s.(enterCount := Dec32(s.enterCount))
    case CancelFull => s.(cancelled := true)
    case CloseFull => CloseOnce(s)
    case FreeSlot => s.(tokens := s.tokens - 1)
    case Leave => s.(wg := s.wg - 1)
  }

  function TaskStep(c: Config, s: State, i: nat): State
    requires |s.tasks| == |s.results| && Enabled(c, s, Task(i))
  {
    Effect(c, s, i).(tasks := s.tasks[i := NextPc(c, s, i)])
  }

  function Do(c: Config, s: State, a: Action): State
    requires |s.tasks| == |s.results| && Enabled(c, s, a)
  {
    match a
    case Driver => DriverStep(c, s)
    case Return(i, r) =>
      s.(tasks := s.tasks[i := if r.Some? then Check else FreeSlot], results := s.results[i := r],
         successes := s.successes + if r.Some? then 1 else 0)
    case Task(i) => TaskStep(c, s, i)
    case Receive => s.(received := s.received + [s.buffer[0]], buffer := s.buffer[1..])
    case CancelParent => s.(parentDone := true)
  }

  // The state after a schedule, or None when the schedule asks for a step that is not enabled.
  function Run(c: Config, sched: seq<Action>): Option<State> {
    if sched == [] then Some(Init(c))
    else
      var before := Run(c, sched[..|sched| - 1]);
      var a := sched[|sched| - 1];
      if before.Some? && |before.value.tasks| == |before.value.results| && Enabled(c, before.value, a)
      then Some(Do(c, before.value, a))
      else None
  }

  // Weights of a task goroutine

  function Unfinished(p: TaskPc): int { if p == Finished then 0 else 1 }
  function HoldsSlot(p: TaskPc): int { if p == Leave || p == Finished then 0 else 1 }
  function AtBody(p: TaskPc): int { if p == Running then 1 else 0 }
  function AtCheck(p: TaskPc): int { if p == Check then 1 else 0 }
  function AtClaim(p: TaskPc): int { if p == Claim then 1 else 0 }
  function AtCancelLate(p: TaskPc): int { if p == CancelLate then 1 else 0 }
  function AtSend(p: TaskPc): int { if p == Send then 1 else 0 }
  function AtEnter(p: TaskPc): int { if p == Enter then 1 else 0 }

  // How many steps a task still has to take.
  function Rank(p: TaskPc): int {
    match p
    case Running => 9
    case Check => 8
    case Claim => 7
    case Send => 6
    case Enter => 5
    case CancelLate => 4
    case CancelFull => 4
    case CloseFull => 3
    case FreeSlot => 2
    case Leave => 1
    case Finished => 0
  }

  predicate AfterSend(p: TaskPc) {
    p == Enter || p == CancelFull || p == CloseFull || p == FreeSlot || p == Leave || p == Finished
  }

  predicate HasResult(p: TaskPc) {
    p == Check || p == Claim || p == CancelLate || p == Send || p == Enter || p == CancelFull || p == CloseFull
  }

  // The invariant, part by part.

  // The pool: the wait group and the token channel count the tasks.
  ghost predicate PoolInv(c: Config, s: State) {
    && |s.tasks| == |s.results|
    && |s.tasks| <= c.total
    && (s.driver == Acquiring || s.driver == Starting ==> |s.tasks| < c.total)
    && (s.driver == Waiting || s.driver == Cancelling || s.driver == Closing || s.driver == Ended ==>
          |s.tasks| == c.total)
    && s.wg == Sum(s.tasks, Unfinished) + (if s.driver == Acquiring || s.driver == Starting then 1 else 0)
    && s.tokens == Sum(s.tasks, HoldsSlot) + (if s.driver == Starting then 1 else 0)
    && s.tokens <= c.pool
    && (s.driver == Cancelling || s.driver == Closing || s.driver == Ended ==> s.wg == 0)
  }

  // The counters: each is what the goroutines between two steps make of it.
  ghost predicate CountInv(c: Config, s: State) {
    && s.resultCount <= c.want && s.enterCount <= c.want
    && |s.Sent()| + Sum(s.tasks, AtSend) == (if s.resultCount < 0 then c.want else c.want - s.resultCount)
    && c.want - s.enterCount == |s.Sent()| - Sum(s.tasks, AtEnter)
    && s.successes == c.want - s.resultCount + Sum(s.tasks, AtCheck) + Sum(s.tasks, AtClaim) + s.skipped
    && (!s.Done() ==> (if s.resultCount < 0 then -s.resultCount else 0) == Sum(s.tasks, AtCancelLate))
    && Sum(s.tasks, AtClaim) - (if s.resultCount < 0 then s.resultCount else 0) <= c.pool
  }

  // The channel: who may cancel and close, and when.
  ghost predicate ChannelInv(c: Config, s: State) {
    && !s.panicked && s.dropped == 0
    && s.closes == (if s.closed then 1 else 0)
    && s.onceDone == s.closed
    && (forall i :: 0 <= i < |s.tasks| && s.tasks[i] == CancelLate ==> s.resultCount < 0)
    && (forall i :: 0 <= i < |s.tasks| && (s.tasks[i] == CancelFull || s.tasks[i] == CloseFull) ==>
          s.enterCount == 0 && 0 < c.want)
    && (s.closed ==> (s.enterCount == 0 && 0 < c.want) || s.driver == Ended)
    && (s.driver == Ended ==> s.closed)
    && (s.cancelled ==> s.resultCount < 0 || s.enterCount == 0 || s.driver == Closing || s.driver == Ended)
    && (0 < s.skipped && !s.parentDone ==> s.resultCount < 0 || s.enterCount == 0)
  }

  // Where the sent values come from: each from its own task, unaltered.
  ghost predicate OriginInv(s: State) {
    && |s.tasks| == |s.results|
    && |s.origins| == |s.Sent()|
    && (forall i :: 0 <= i < |s.tasks| && HasResult(s.tasks[i]) ==> s.results[i].Some?)
    && (forall j :: 0 <= j < |s.origins| ==>
          s.origins[j] < |s.tasks| && AfterSend(s.tasks[s.origins[j]])
          && s.results[s.origins[j]] == Some(s.Sent()[j]))
    && (forall j, k :: 0 <= j < k < |s.origins| ==> s.origins[j] != s.origins[k])
  }

  ghost predicate Inv(c: Config, s: State) {
    PoolInv(c, s) && CountInv(c, s) && ChannelInv(c, s) && OriginInv(s)
  }

  // All weights at once, for one task moving from its place to `pc`.
  lemma TaskMoves(tasks: seq<TaskPc>, i: nat, pc: TaskPc)
    requires i < |tasks|
    ensures Sum(tasks[i := pc], Unfinished) == Sum(tasks, Unfinished) - Unfinished(tasks[i]) + Unfinished(pc)
    ensures Sum(tasks[i := pc], HoldsSlot) == Sum(tasks, HoldsSlot) - HoldsSlot(tasks[i]) + HoldsSlot(pc)
    ensures Sum(tasks[i := pc], AtBody) == Sum(tasks, AtBody) - AtBody(tasks[i]) + AtBody(pc)
    ensures Sum(tasks[i := pc], AtCheck) == Sum(tasks, AtCheck) - AtCheck(tasks[i]) + AtCheck(pc)
    ensures Sum(tasks[i := pc], AtClaim) == Sum(tasks, AtClaim) - AtClaim(tasks[i]) + AtClaim(pc)
    ensures Sum(tasks[i := pc], AtCancelLate) == Sum(tasks, AtCancelLate) - AtCancelLate(tasks[i]) + AtCancelLate(pc)
    ensures Sum(tasks[i := pc], AtSend) == Sum(tasks, AtSend) - AtSend(tasks[i]) + AtSend(pc)
    ensures Sum(tasks[i := pc], AtEnter) == Sum(tasks, AtEnter) - AtEnter(tasks[i]) + AtEnter(pc)
    ensures Sum(tasks[i := pc], Rank) == Sum(tasks, Rank) - Rank(tasks[i]) + Rank(pc)
  {
    SumUpdate(tasks, i, pc, Unfinished);
    SumUpdate(tasks, i, pc, HoldsSlot);
    SumUpdate(tasks, i, pc, AtBody);
    SumUpdate(tasks, i, pc, AtCheck);
    SumUpdate(tasks, i, pc, AtClaim);
    SumUpdate(tasks, i, pc, AtCancelLate);
    SumUpdate(tasks, i, pc, AtSend);
    SumUpdate(tasks, i, pc, AtEnter);
    SumUpdate(tasks, i, pc, Rank);
  }

  // The same for one more task, at Running.
  lemma TaskStarts(tasks: seq<TaskPc>)
    ensures Sum(tasks + [Running], Unfinished) == Sum(tasks, Unfinished) + 1
    ensures Sum(tasks + [Running], HoldsSlot) == Sum(tasks, HoldsSlot) + 1
    ensures Sum(tasks + [Running], AtBody) == Sum(tasks, AtBody) + 1
    ensures Sum(tasks + [Running], AtCheck) == Sum(tasks, AtCheck)
    ensures Sum(tasks + [Running], AtClaim) == Sum(tasks, AtClaim)
    ensures Sum(tasks + [Running], AtCancelLate) == Sum(tasks, AtCancelLate)
    ensures Sum(tasks + [Running], AtSend) == Sum(tasks, AtSend)
    ensures Sum(tasks + [Running], AtEnter) == Sum(tasks, AtEnter)
    ensures Sum(tasks + [Running], Rank) == Sum(tasks, Rank) + 9
  {
    SumAppend(tasks, Running, Unfinished);
    SumAppend(tasks, Running, HoldsSlot);
    SumAppend(tasks, Running, AtBody);
    SumAppend(tasks, Running, AtCheck);
    SumAppend(tasks, Running, AtClaim);
    SumAppend(tasks, Running, AtCancelLate);
    SumAppend(tasks, Running, AtSend);
    SumAppend(tasks, Running, AtEnter);
    SumAppend(tasks, Running, Rank);
  }

  // What the sums say about each other in any state.
  lemma Bounds(tasks: seq<TaskPc>)
    ensures 0 <= Sum(tasks, AtBody) && 0 <= Sum(tasks, AtCheck) && 0 <= Sum(tasks, AtClaim)
    ensures 0 <= Sum(tasks, AtCancelLate) && 0 <= Sum(tasks, AtSend) && 0 <= Sum(tasks, AtEnter)
    ensures 0 <= Sum(tasks, HoldsSlot) <= Sum(tasks, Unfinished)
    ensures Sum(tasks, AtBody) <= Sum(tasks, HoldsSlot)
    ensures Sum(tasks, AtClaim) + Sum(tasks, AtCancelLate) <= Sum(tasks, HoldsSlot)
    ensures 0 <= Sum(tasks, Rank)
  {
    SumNonNegative(tasks, AtBody);
    SumNonNegative(tasks, AtCheck);
    SumNonNegative(tasks, AtClaim);
    SumNonNegative(tasks, AtCancelLate);
    SumNonNegative(tasks, AtSend);
    SumNonNegative(tasks, AtEnter);
    SumNonNegative(tasks, HoldsSlot);
    SumNonNegative(tasks, Rank);
    SumMonotone(tasks, HoldsSlot, Unfinished);
    SumMonotone(tasks, AtBody, HoldsSlot);
    var both := (p: TaskPc) => AtClaim(p) + AtCancelLate(p);
    SumOfTwo(tasks, AtClaim, AtCancelLate, both);
    SumMonotone(tasks, both, HoldsSlot);
  }

  // A task at some place shows up in that place's sum.
  lemma Present(tasks: seq<TaskPc>, i: nat)
    requires i < |tasks|
    ensures tasks[i] == Send ==> 1 <= Sum(tasks, AtSend)
    ensures tasks[i] == Enter ==> 1 <= Sum(tasks, AtEnter)
    ensures tasks[i] == Claim ==> 1 <= Sum(tasks, AtClaim)
    ensures tasks[i] == Check ==> 1 <= Sum(tasks, AtCheck)
    ensures tasks[i] != Finished ==> 1 <= Sum(tasks, Unfinished)
    ensures HoldsSlot(tasks[i]) == 1 ==> 1 <= Sum(tasks, HoldsSlot)
  {
    SumAtLeast(tasks, i, AtSend);
    SumAtLeast(tasks, i, AtEnter);
    SumAtLeast(tasks, i, AtClaim);
    SumAtLeast(tasks, i, AtCheck);
    SumAtLeast(tasks, i, Unfinished);
    SumAtLeast(tasks, i, HoldsSlot);
  }

  // A wait group at zero means that every spawned task has finished.
  lemma AllFinished(c: Config, s: State)
    requires PoolInv(c, s) && s.wg == 0
    ensures forall i :: 0 <= i < |s.tasks| ==> s.tasks[i] == Finished
  {
    forall i | 0 <= i < |s.tasks|
      ensures s.tasks[i] == Finished
    {
      Present(s.tasks, i);
      Bounds(s.tasks);
    }
  }

  // Spawning a task: the slot and the wait-group count taken for it become the task's own.
  lemma StartingKeeps(c: Config, s: State)
    requires c.Valid() && Inv(c, s) && s.driver == Starting
    ensures Inv(c, DriverStep(c, s))
  {
    var t := DriverStep(c, s);
    TaskStarts(s.tasks);
    assert t.Sent() == s.Sent();
    assert PoolInv(c, t);
    assert CountInv(c, t);
    assert OriginInv(t);
  }

  // By the time the driver cancels and closes, no task is left that could cancel, close or send.
  lemma EndingKeeps(c: Config, s: State)
    requires c.Valid() && Inv(c, s) && Enabled(c, s, Driver)
    requires s.driver == Waiting || s.driver == Cancelling || s.driver == Closing
    ensures Inv(c, DriverStep(c, s))
  {
    var t := DriverStep(c, s);
    AllFinished(c, s);
    assert t.Sent() == s.Sent();
    assert OriginInv(t);
  }

  lemma AcquiringKeeps(c: Config, s: State)
    requires c.Valid() && Inv(c, s) && Enabled(c, s, Driver) && (s.driver == Adding || s.driver == Acquiring)
    ensures Inv(c, DriverStep(c, s))
  {
    var t := DriverStep(c, s);
    assert t.Sent() == s.Sent();
    assert PoolInv(c, t);
    assert OriginInv(t);
  }

  lemma DriverKeeps(c: Config, s: State)
    requires c.Valid() && Inv(c, s) && Enabled(c, s, Driver)
    ensures Inv(c, DriverStep(c, s))
  {
    if s.driver == Starting {
      StartingKeeps(c, s);
    } else if s.driver == Adding || s.driver == Acquiring {
      AcquiringKeeps(c, s);
    } else {
      EndingKeeps(c, s);
    }
  }

  lemma ReturnKeepsOrigins(c: Config, s: State, i: nat, r: Option<Value>)
    requires OriginInv(s) && Enabled(c, s, Return(i, r))
    ensures var t := Do(c, s, Return(i, r)); OriginInv(t) && t.Sent() == s.Sent()
  {
    assert Do(c, s, Return(i, r)).Sent() == s.Sent();
  }

  lemma ReturnKeeps(c: Config, s: State, i: nat, r: Option<Value>)
    requires c.Valid() && Inv(c, s) && Enabled(c, s, Return(i, r))
    ensures Inv(c, Do(c, s, Return(i, r)))
  {
    TaskMoves(s.tasks, i, if r.Some? then Check else FreeSlot);
    ReturnKeepsOrigins(c, s, i, r);
  }

  lemma ReceiveKeepsStream(c: Config, s: State)
    requires |s.tasks| == |s.results| && Enabled(c, s, Receive)
    ensures var t := Do(c, s, Receive); t.Sent() == s.Sent() && t == s.(received := t.received, buffer := t.buffer)
  {
    assert s.received + [s.buffer[0]] + s.buffer[1..] == s.received + s.buffer;
  }

  lemma ReceiveKeeps(c: Config, s: State)
    requires c.Valid() && Inv(c, s) && Enabled(c, s, Receive)
    ensures Inv(c, Do(c, s, Receive))
    ensures Do(c, s, Receive).Sent() == s.Sent()
  {
    ReceiveKeepsStream(c, s);
  }

  // A task about to send finds the channel open and with room.
  lemma SendSucceeds(c: Config, s: State, i: nat)
    requires c.Valid() && Inv(c, s) && Enabled(c, s, Task(i)) && s.tasks[i] == Send
    ensures !s.closed && |s.buffer| < c.want && s.results[i].Some?
  {
    Bounds(s.tasks);
    Present(s.tasks, i);
  }

  lemma SendKeepsOrigins(c: Config, s: State, i: nat)
    requires OriginInv(s) && Enabled(c, s, Task(i)) && s.tasks[i] == Send
    requires !s.closed && |s.buffer| < c.want && s.results[i].Some?
    ensures var t := TaskStep(c, s, i);
      OriginInv(t) && t.Sent() == s.Sent() + [s.results[i].value]
  {
    var t := TaskStep(c, s, i);
    assert t.Sent() == s.Sent() + [s.results[i].value];
    assert t.tasks == s.tasks[i := Enter] && t.results == s.results && t.origins == s.origins + [i];
  }

  lemma SendKeeps(c: Config, s: State, i: nat)
    requires c.Valid() && Inv(c, s) && Enabled(c, s, Task(i)) && s.tasks[i] == Send
    ensures Inv(c, TaskStep(c, s, i))
  {
    SendSucceeds(c, s, i);
    SendKeepsOrigins(c, s, i);
    TaskMoves(s.tasks, i, Enter);
  }

  lemma OriginsStay(s: State, t: State, i: nat)
    requires OriginInv(s) && i < |s.tasks| == |t.tasks|
    requires t.tasks == s.tasks[i := t.tasks[i]] && t.results == s.results
    requires t.origins == s.origins && t.received == s.received && t.buffer == s.buffer
    requires HasResult(t.tasks[i]) ==> HasResult(s.tasks[i])
    requires AfterSend(s.tasks[i]) ==> AfterSend(t.tasks[i])
    ensures OriginInv(t) && t.Sent() == s.Sent()
  {
    assert t.Sent() == s.Sent();
  }

  // A task leaves the pool with its last two steps, first its slot and then the wait group.
  lemma PoolEffect(c: Config, s: State, i: nat)
    requires |s.tasks| == |s.results| && Enabled(c, s, Task(i)) && s.tasks[i] != Send
    ensures var p := s.tasks[i]; var t := Effect(c, s, i);
      && t.wg == s.wg - (if p == Leave then 1 else 0)
      && t.tokens == s.tokens - (if p == FreeSlot then 1 else 0)
  {
    match s.tasks[i]
    case Check =>
    case Claim =>
    case CancelLate =>
    case Enter =>
    case CancelFull =>
    case CloseFull =>
    case FreeSlot =>
    case Leave =>
  }

  lemma PoolStays(c: Config, s: State, i: nat)
    requires PoolInv(c, s) && Enabled(c, s, Task(i)) && s.tasks[i] != Send
    ensures PoolInv(c, TaskStep(c, s, i))
  {
    PoolEffect(c, s, i);
    DriverUntouched(c, s, i);
    StreamUntouched(c, s, i);
    SumUpdate(s.tasks, i, NextPc(c, s, i), Unfinished);
    SumUpdate(s.tasks, i, NextPc(c, s, i), HoldsSlot);
    Present(s.tasks, i);
  }

  // What the steps before and after the send do to the weights the counters are about.
  lemma CountMoves(c: Config, s: State, i: nat)
    requires |s.tasks| == |s.results| && Enabled(c, s, Task(i)) && s.tasks[i] != Send
    ensures var p := s.tasks[i]; var pc := NextPc(c, s, i); var t := TaskStep(c, s, i);
      && t.Sent() == s.Sent() && t.successes == s.successes
      && Sum(t.tasks, AtSend) == Sum(s.tasks, AtSend) + AtSend(pc)
      && Sum(t.tasks, AtEnter) == Sum(s.tasks, AtEnter) - AtEnter(p)
      && Sum(t.tasks, AtCheck) == Sum(s.tasks, AtCheck) - AtCheck(p)
      && Sum(t.tasks, AtClaim) == Sum(s.tasks, AtClaim) - AtClaim(p) + AtClaim(pc)
      && Sum(t.tasks, AtCancelLate) == Sum(s.tasks, AtCancelLate) - AtCancelLate(p) + AtCancelLate(pc)
  {
    StreamUntouched(c, s, i);
    TaskMoves(s.tasks, i, NextPc(c, s, i));
  }

  lemma ClaimKeepsCounts(c: Config, s: State, i: nat)
    requires c.Valid() && PoolInv(c, s) && CountInv(c, s) && Enabled(c, s, Task(i)) && s.tasks[i] == Claim
    ensures CountInv(c, TaskStep(c, s, i))
  {
    CountMoves(c, s, i);
    Present(s.tasks, i);
    Bounds(s.tasks);
  }

  lemma CheckKeepsCounts(c: Config, s: State, i: nat)
    requires c.Valid() && PoolInv(c, s) && CountInv(c, s) && Enabled(c, s, Task(i)) && s.tasks[i] == Check
    ensures CountInv(c, TaskStep(c, s, i))
  {
    CountMoves(c, s, i);
    SumUpdate(s.tasks, i, NextPc(c, s, i), HoldsSlot);
    Bounds(s.tasks);
    Bounds(TaskStep(c, s, i).tasks);
  }

  lemma EnterKeepsCounts(c: Config, s: State, i: nat)
    requires c.Valid() && PoolInv(c, s) && CountInv(c, s) && Enabled(c, s, Task(i)) && s.tasks[i] == Enter
    ensures CountInv(c, TaskStep(c, s, i))
  {
    CountMoves(c, s, i);
    Bounds(s.tasks);
    Present(s.tasks, i);
  }

  lemma CountsStay(c: Config, s: State, i: nat)
    requires c.Valid() && PoolInv(c, s) && CountInv(c, s) && Enabled(c, s, Task(i)) && s.tasks[i] != Send
    ensures CountInv(c, TaskStep(c, s, i))
  {
    if s.tasks[i] == Check {
      CheckKeepsCounts(c, s, i);
    } else if s.tasks[i] == Claim {
      ClaimKeepsCounts(c, s, i);
    } else if s.tasks[i] == Enter {
      EnterKeepsCounts(c, s, i);
    } else {
      OthersKeepCounts(c, s, i);
    }
  }

  lemma OthersKeepCounts(c: Config, s: State, i: nat)
    requires CountInv(c, s) && |s.tasks| == |s.results| && Enabled(c, s, Task(i))
    requires s.tasks[i] in {CancelLate, CancelFull, CloseFull, FreeSlot, Leave}
    ensures CountInv(c, TaskStep(c, s, i))
  {
    CountMoves(c, s, i);
    match s.tasks[i]
    case CancelLate =>
    case CancelFull =>
    case CloseFull =>
    case FreeSlot =>
    case Leave =>
  }

  // Who cancels and closes, and when, depends on the two counters.
  lemma FullKeepsChannel(c: Config, s: State, i: nat)
    requires ChannelInv(c, s) && PoolInv(c, s) && Enabled(c, s, Task(i))
    requires s.tasks[i] == CancelFull || s.tasks[i] == CloseFull
    ensures ChannelInv(c, TaskStep(c, s, i))
  {
    Present(s.tasks, i);
  }

  lemma ChannelStays(c: Config, s: State, i: nat)
    requires c.Valid() && Inv(c, s) && Enabled(c, s, Task(i)) && s.tasks[i] != Send
    ensures ChannelInv(c, TaskStep(c, s, i))
  {
    if s.tasks[i] == CancelFull || s.tasks[i] == CloseFull {
      FullKeepsChannel(c, s, i);
    } else {
      Present(s.tasks, i);
      Bounds(s.tasks);
    }
  }

  lemma TaskKeepsOrigins(c: Config, s: State, i: nat)
    requires OriginInv(s) && Enabled(c, s, Task(i)) && s.tasks[i] != Send
    ensures OriginInv(TaskStep(c, s, i))
  {
    StreamUntouched(c, s, i);
    OriginsStay(s, TaskStep(c, s, i), i);
  }

  lemma TaskKeeps(c: Config, s: State, i: nat)
    requires c.Valid() && Inv(c, s) && Enabled(c, s, Task(i))
    ensures Inv(c, TaskStep(c, s, i))
  {
    if s.tasks[i] == Send {
      SendKeeps(c, s, i);
    } else {
      PoolStays(c, s, i);
      CountsStay(c, s, i);
      ChannelStays(c, s, i);
      TaskKeepsOrigins(c, s, i);
    }
  }

  lemma StepKeeps(c: Config, s: State, a: Action)
    requires c.Valid() && Inv(c, s) && Enabled(c, s, a)
    ensures Inv(c, Do(c, s, a))
  {
    match a
    case Driver => DriverKeeps(c, s);
    case Return(i, r) => ReturnKeeps(c, s, i, r);
    case Task(i) => TaskKeeps(c, s, i);
    case Receive => ReceiveKeeps(c, s);
    case CancelParent =>
  }

  lemma {:induction false} RunKeeps(c: Config, sched: seq<Action>)
    requires c.Valid() && Run(c, sched).Some?
    ensures Inv(c, Run(c, sched).value)
  {
    if sched != [] {
      RunKeeps(c, sched[..|sched| - 1]);
      StepKeeps(c, Run(c, sched[..|sched| - 1]).value, sched[|sched| - 1]);
    }
  }

  // Main results, for every schedule

  lemma NothingSent(s: State)
    requires forall i :: 0 <= i < |s.tasks| ==> s.tasks[i] == Finished
    ensures Sum(s.tasks, AtSend) == 0 && Sum(s.tasks, AtEnter) == 0
    ensures Sum(s.tasks, AtCheck) == 0 && Sum(s.tasks, AtClaim) == 0
  {
    SumMonotone(s.tasks, AtSend, Unfinished);
    SumMonotone(s.tasks, AtEnter, Unfinished);
    SumMonotone(s.tasks, AtCheck, Unfinished);
    SumMonotone(s.tasks, AtClaim, Unfinished);
    var none := (p: TaskPc) => 0;
    SumMonotone(s.tasks, Unfinished, none);
    SumZero(s.tasks, none);
    Bounds(s.tasks);
  }

  lemma {:induction false} SumZero(tasks: seq<TaskPc>, w: TaskPc -> int)
    requires forall p :: w(p) == 0
    ensures Sum(tasks, w) == 0
  {
    if tasks != [] {
      SumZero(tasks[..|tasks| - 1], w);
    }
  }

  // No schedule sends on the closed channel, closes it twice, drops a value, or runs more than
  // `pool` bodies at once; every value sent is the result of a task of its own.
  lemma Safety(c: Config, sched: seq<Action>)
    requires c.Valid() && Run(c, sched).Some?
    ensures var s := Run(c, sched).value;
      && !s.panicked && s.dropped == 0 && s.closes == (if s.closed then 1 else 0)
      && Sum(s.tasks, AtBody) <= c.pool
      && |s.Sent()| <= c.want && |s.Sent()| <= s.successes
      && |s.origins| == |s.Sent()| && |s.results| == |s.tasks|
      && (forall j :: 0 <= j < |s.origins| ==> s.origins[j] < |s.tasks| && s.results[s.origins[j]] == Some(s.Sent()[j]))
      && (forall j, k :: 0 <= j < k < |s.origins| ==> s.origins[j] != s.origins[k])
      && (s.closed ==> |s.Sent()| == c.want || s.driver == Ended)
  {
    RunKeeps(c, sched);
    Bounds(Run(c, sched).value.tasks);
  }

  // The int32 counters never wrap around.
  lemma CountersInRange(c: Config, sched: seq<Action>)
    requires c.Valid() && Run(c, sched).Some?
    ensures var s := Run(c, sched).value;
      && -c.pool <= s.resultCount <= c.want
      && 0 <= s.enterCount <= c.want
  {
    RunKeeps(c, sched);
    Bounds(Run(c, sched).value.tasks);
  }

  lemma EndedCount(c: Config, s: State)
    requires Inv(c, s) && s.driver == Ended
    ensures forall i :: 0 <= i < |s.tasks| ==> s.tasks[i] == Finished
    ensures !s.parentDone ==> |s.Sent()| == (if c.want < s.successes then c.want else s.successes)
  {
    AllFinished(c, s);
    NothingSent(s);
  }

  // When the driver has ended and the parent context was never done, the channel has been closed
  // once and holds exactly as many results as were wanted and available.
  lemma ExactCount(c: Config, sched: seq<Action>)
    requires c.Valid() && Run(c, sched).Some?
    requires var s := Run(c, sched).value; s.driver == Ended && !s.parentDone
    ensures var s := Run(c, sched).value;
      && s.closed && s.closes == 1
      && |s.Sent()| == (if c.want < s.successes then c.want else s.successes)
  {
    RunKeeps(c, sched);
    EndedCount(c, Run(c, sched).value);
  }

  // Progress

  function DriverRank(c: Config, s: State): int {
    match s.driver
    case Adding => 14 * (c.total - |s.tasks|) + 5
    case Acquiring => 14 * (c.total - |s.tasks|) + 4
    case Starting => 14 * (c.total - |s.tasks|) + 3
    case Waiting => 4
    case Cancelling => 3
    case Closing => 2
    case Ended => 1
  }

  // The most steps that the goroutines can still take.
  function Measure(c: Config, s: State): int { DriverRank(c, s) + Sum(s.tasks, Rank) }

  // A step of a goroutine, as opposed to one of the caller or the parent context.
  predicate Internal(a: Action) { a.Driver? || a.Return? || a.Task? }

  function InternalSteps(sched: seq<Action>): nat {
    if sched == [] then 0
    else InternalSteps(sched[..|sched| - 1]) + if Internal(sched[|sched| - 1]) then 1 else 0
  }

  lemma DriverRankFalls(c: Config, s: State)
    requires PoolInv(c, s) && Enabled(c, s, Driver)
    ensures Measure(c, DriverStep(c, s)) < Measure(c, s)
  {
    if s.driver == Starting {
      TaskStarts(s.tasks);
    }
  }

  lemma DriverUntouched(c: Config, s: State, i: nat)
    requires |s.tasks| == |s.results| && Enabled(c, s, Task(i))
    ensures Effect(c, s, i).driver == s.driver
  {
  }

  lemma TaskRankFalls(c: Config, s: State, i: nat)
    requires |s.tasks| == |s.results| && Enabled(c, s, Task(i))
    ensures Measure(c, TaskStep(c, s, i)) < Measure(c, s)
  {
    DriverUntouched(c, s, i);
    SumUpdate(s.tasks, i, NextPc(c, s, i), Rank);
  }

  lemma MeasureFalls(c: Config, s: State, a: Action)
    requires PoolInv(c, s) && Enabled(c, s, a)
    ensures Measure(c, Do(c, s, a)) + (if Internal(a) then 1 else 0) <= Measure(c, s)
  {
    match a
    case Driver => DriverRankFalls(c, s);
    case Return(i, r) => SumUpdate(s.tasks, i, if r.Some? then Check else FreeSlot, Rank);
    case Task(i) => TaskRankFalls(c, s, i);
    case Receive =>
    case CancelParent =>
  }

  // Every schedule makes a bounded number of internal steps ...
  lemma {:induction false} RunIsBounded(c: Config, sched: seq<Action>)
    requires c.Valid() && Run(c, sched).Some?
    ensures InternalSteps(sched) + Measure(c, Run(c, sched).value) <= 14 * c.total + 5
    ensures InternalSteps(sched) <= 14 * c.total + 5
  {
    RunKeeps(c, sched);
    Bounds(Run(c, sched).value.tasks);
    if sched != [] {
      var earlier := sched[..|sched| - 1];
      RunIsBounded(c, earlier);
      RunKeeps(c, earlier);
      MeasureFalls(c, Run(c, earlier).value, sched[|sched| - 1]);
    }
  }

  // ... and as long as the driver has not ended, one more is possible: nobody is stuck, and
  // whether or not the caller receives, the channel ends up closed.
  lemma NotStuck(c: Config, sched: seq<Action>) returns (a: Action)
    requires c.Valid() && Run(c, sched).Some? && Run(c, sched).value.driver != Ended
    ensures Internal(a) && Run(c, sched + [a]).Some?
  {
    RunKeeps(c, sched);
    a := CanMove(c, Run(c, sched).value);
    assert (sched + [a])[..|sched + [a]| - 1] == sched;
  }

  lemma CanMove(c: Config, s: State) returns (a: Action)
    requires c.Valid() && Inv(c, s) && s.driver != Ended
    ensures Internal(a) && Enabled(c, s, a)
  {
    a := Driver;
    if !Enabled(c, s, Driver) {
      Bounds(s.tasks);
      var i: nat;
      if s.driver == Acquiring {
        i := SumWitness(s.tasks, HoldsSlot);
      } else {
        i := SumWitness(s.tasks, Unfinished);
      }
      Present(s.tasks, i);
      a := if s.tasks[i] == Running then Return(i, None) else Task(i);
    }
  }

  // Only the send touches the stream.
  lemma StreamUntouched(c: Config, s: State, i: nat)
    requires |s.tasks| == |s.results| && Enabled(c, s, Task(i)) && s.tasks[i] != Send
    ensures var t := Effect(c, s, i);
      && t.received == s.received && t.buffer == s.buffer && (s.closed ==> t.closed)
      && t.origins == s.origins && t.results == s.results
  {
    match s.tasks[i]
    case Check =>
    case Claim =>
    case CancelLate =>
    case Enter =>
    case CancelFull =>
    case CloseFull =>
    case FreeSlot =>
    case Leave =>
  }

  lemma TaskStream(c: Config, s: State, i: nat)
    requires c.Valid() && Inv(c, s) && Enabled(c, s, Task(i))
    ensures s.Sent() <= TaskStep(c, s, i).Sent() && TaskStep(c, s, i).received == s.received
    ensures s.closed ==> TaskStep(c, s, i).closed && TaskStep(c, s, i).Sent() == s.Sent()
  {
    if s.tasks[i] == Send {
      SendSucceeds(c, s, i);
      assert TaskStep(c, s, i).Sent() == s.Sent() + [s.results[i].value];
    } else {
      StreamUntouched(c, s, i);
    }
  }

  // The result stream only grows, and not after the channel was closed; once the driver has ended
  // no more tasks succeed.
  lemma StreamGrows(c: Config, s: State, a: Action)
    requires c.Valid() && Inv(c, s) && Enabled(c, s, a)
    ensures var t := Do(c, s, a);
      && s.Sent() <= t.Sent()
      && (s.closed ==> t.closed && t.Sent() == s.Sent())
      && (!a.Receive? ==> t.received == s.received)
      && (s.driver == Ended ==> t.driver == Ended && t.successes == s.successes)
      && (s.parentDone ==> t.parentDone)
  {
    if a.Receive? {
      ReceiveKeeps(c, s);
    } else {
      if a.Task? {
        TaskStream(c, s, a.i);
      } else {
        assert Do(c, s, a).Sent() == s.Sent();
      }
      if s.driver == Ended {
        EndedCount(c, s);
      }
    }
  }

  lemma StreamBounds(c: Config, s: State)
    requires Inv(c, s)
    ensures |s.Sent()| <= c.want && |s.Sent()| <= s.successes && !s.panicked
    ensures s.closed ==> |s.Sent()| == c.want || s.driver == Ended
  {
    Bounds(s.tasks);
  }

  // What closing and cancelling must come to, beside why they may happen

  function AtCancelFull(p: TaskPc): int { if p == CancelFull then 1 else 0 }
  function AtCloseFull(p: TaskPc): int { if p == CloseFull then 1 else 0 }

  // Whoever counted the last value still has to cancel and close, or has; and the driver's deferred
  // calls are made in their order.
  ghost predicate EndInv(c: Config, s: State) {
    && (s.enterCount == 0 && 0 < c.want ==>
          0 < Sum(s.tasks, AtCancelFull) || (s.cancelled && (0 < Sum(s.tasks, AtCloseFull) || s.closed)))
    && (s.driver == Closing || s.driver == Ended ==> s.cancelled)
  }

  lemma FullMoves(tasks: seq<TaskPc>, i: nat, pc: TaskPc)
    requires i < |tasks|
    ensures Sum(tasks[i := pc], AtCancelFull) == Sum(tasks, AtCancelFull) - AtCancelFull(tasks[i]) + AtCancelFull(pc)
    ensures Sum(tasks[i := pc], AtCloseFull) == Sum(tasks, AtCloseFull) - AtCloseFull(tasks[i]) + AtCloseFull(pc)
    ensures AtCancelFull(pc) <= Sum(tasks[i := pc], AtCancelFull) && AtCloseFull(pc) <= Sum(tasks[i := pc], AtCloseFull)
    ensures 0 <= Sum(tasks, AtCancelFull) && 0 <= Sum(tasks, AtCloseFull)
  {
    SumUpdate(tasks, i, pc, AtCancelFull);
    SumUpdate(tasks, i, pc, AtCloseFull);
    SumAtLeast(tasks[i := pc], i, AtCancelFull);
    SumAtLeast(tasks[i := pc], i, AtCloseFull);
    SumNonNegative(tasks, AtCancelFull);
    SumNonNegative(tasks, AtCloseFull);
  }

  // Tasks other than those that count, cancel or close for a full stream.
  lemma QuietKeepsEnd(c: Config, s: State, i: nat)
    requires |s.tasks| == |s.results| && EndInv(c, s) && Enabled(c, s, Task(i))
    requires s.tasks[i] != Enter && s.tasks[i] != CancelFull && s.tasks[i] != CloseFull
    ensures EndInv(c, TaskStep(c, s, i))
  {
    FullMoves(s.tasks, i, NextPc(c, s, i));
    DriverUntouched(c, s, i);
    match s.tasks[i]
    case Check =>
    case Claim =>
    case CancelLate =>
    case Send =>
    case FreeSlot =>
    case Leave =>
  }

  lemma FullKeepsEnd(c: Config, s: State, i: nat)
    requires c.Valid() && Inv(c, s) && EndInv(c, s) && Enabled(c, s, Task(i))
    requires s.tasks[i] == Enter || s.tasks[i] == CancelFull || s.tasks[i] == CloseFull
    ensures EndInv(c, TaskStep(c, s, i))
  {
    FullMoves(s.tasks, i, NextPc(c, s, i));
    DriverUntouched(c, s, i);
    Present(s.tasks, i);
    Bounds(s.tasks);
  }

  lemma DriverKeepsEnd(c: Config, s: State)
    requires c.Valid() && Inv(c, s) && EndInv(c, s) && Enabled(c, s, Driver)
    ensures EndInv(c, DriverStep(c, s))
  {
    SumAppend(s.tasks, Running, AtCancelFull);
    SumAppend(s.tasks, Running, AtCloseFull);
  }

  lemma EndStays(c: Config, s: State, a: Action)
    requires c.Valid() && Inv(c, s) && EndInv(c, s) && Enabled(c, s, a)
    ensures EndInv(c, Do(c, s, a))
  {
    match a
    case Driver => DriverKeepsEnd(c, s);
    case Return(i, r) => FullMoves(s.tasks, i, if r.Some? then Check else FreeSlot);
    case Task(i) =>
      if s.tasks[i] == Enter || s.tasks[i] == CancelFull || s.tasks[i] == CloseFull {
        FullKeepsEnd(c, s, i);
      } else {
        QuietKeepsEnd(c, s, i);
      }
    case Receive =>
    case CancelParent =>
  }

  lemma {:induction false} RunEnds(c: Config, sched: seq<Action>)
    requires c.Valid() && Run(c, sched).Some?
    ensures EndInv(c, Run(c, sched).value)
  {
    if sched != [] {
      RunEnds(c, sched[..|sched| - 1]);
      RunKeeps(c, sched[..|sched| - 1]);
      EndStays(c, Run(c, sched[..|sched| - 1]).value, sched[|sched| - 1]);
    }
  }

  // A place whose task has not yet done what it does about a full stream or a late result.
  predicate StillEnding(p: TaskPc) { p == Enter || p == CancelFull || p == CloseFull || p == CancelLate }

  lemma NobodyAt(tasks: seq<TaskPc>, w: TaskPc -> int)
    requires forall p :: 0 < w(p) ==> StillEnding(p)
    requires forall i :: 0 <= i < |tasks| ==> !StillEnding(tasks[i])
    ensures Sum(tasks, w) <= 0
  {
    if 0 < Sum(tasks, w) {
      var i := SumWitness(tasks, w);
    }
  }

  // On every schedule, once no task is still about to see to it: a full stream has closed the
  // channel and cancelled the context, a result too many has cancelled it, and so has the driver
  // by the time it ends, with the channel closed.
  lemma FullStreamCloses(c: Config, sched: seq<Action>)
    requires c.Valid() && Run(c, sched).Some?
    ensures var s := Run(c, sched).value;
      && ((forall i :: 0 <= i < |s.tasks| ==> !StillEnding(s.tasks[i])) ==>
            && (0 < c.want && |s.Sent()| == c.want ==> s.closed && s.cancelled)
            && (s.resultCount < 0 ==> s.cancelled || s.parentDone))
      && (s.driver == Ended ==> s.closed && s.cancelled)
  {
    RunKeeps(c, sched);
    RunEnds(c, sched);
    var s := Run(c, sched).value;
    if forall i :: 0 <= i < |s.tasks| ==> !StillEnding(s.tasks[i]) {
      NobodyAt(s.tasks, AtEnter);
      NobodyAt(s.tasks, AtCancelFull);
      NobodyAt(s.tasks, AtCloseFull);
      NobodyAt(s.tasks, AtCancelLate);
      Bounds(s.tasks);
    }
  }

  // Values sent, and tasks past their look at the context that may still send.
  function Committed(s: State): int { |s.Sent()| + Sum(s.tasks, AtClaim) + Sum(s.tasks, AtSend) }

  lemma DoneCommits(c: Config, s: State, a: Action)
    requires c.Valid() && Inv(c, s) && Enabled(c, s, a) && (s.cancelled || s.parentDone)
    ensures var t := Do(c, s, a); (t.cancelled || t.parentDone) && Committed(t) <= Committed(s)
  {
    match a
    case Driver =>
      assert DriverStep(c, s).Sent() == s.Sent();
      TaskStarts(s.tasks);
    case Return(i, r) => ReturnCommits(c, s, i, r);
    case Task(i) => TaskCommits(c, s, i);
    case Receive => ReceiveKeepsStream(c, s);
    case CancelParent => assert Do(c, s, a).Sent() == s.Sent();
  }

  lemma ReturnCommits(c: Config, s: State, i: nat, r: Option<Value>)
    requires Inv(c, s) && Enabled(c, s, Return(i, r))
    ensures Committed(Do(c, s, Return(i, r))) == Committed(s)
  {
    ReturnKeepsOrigins(c, s, i, r);
    TaskMoves(s.tasks, i, if r.Some? then Check else FreeSlot);
  }

  lemma SendCommits(c: Config, s: State, i: nat)
    requires c.Valid() && Inv(c, s) && Enabled(c, s, Task(i)) && s.tasks[i] == Send
    ensures Committed(TaskStep(c, s, i)) == Committed(s)
  {
    SendSucceeds(c, s, i);
    SendKeepsOrigins(c, s, i);
    SumUpdate(s.tasks, i, Enter, AtClaim);
    SumUpdate(s.tasks, i, Enter, AtSend);
  }

  lemma DoneLasts(c: Config, s: State, i: nat)
    requires |s.tasks| == |s.results| && Enabled(c, s, Task(i)) && (s.cancelled || s.parentDone)
    ensures TaskStep(c, s, i).cancelled || TaskStep(c, s, i).parentDone
  {
    match s.tasks[i]
    case Check =>
    case Claim =>
    case CancelLate =>
    case Send =>
    case Enter =>
    case CancelFull =>
    case CloseFull =>
    case FreeSlot =>
    case Leave =>
  }

  lemma TaskCommits(c: Config, s: State, i: nat)
    requires c.Valid() && Inv(c, s) && Enabled(c, s, Task(i)) && (s.cancelled || s.parentDone)
    ensures var t := TaskStep(c, s, i); (t.cancelled || t.parentDone) && Committed(t) <= Committed(s)
  {
    DoneLasts(c, s, i);
    if s.tasks[i] == Send {
      SendCommits(c, s, i);
    } else {
      CountMoves(c, s, i);
      assert AtClaim(NextPc(c, s, i)) + AtSend(NextPc(c, s, i)) <= AtClaim(s.tasks[i]);
    }
  }

  // Once the context is done, by a cancel of its own or by its parent, whatever follows: only tasks
  // that are past their look at it still send.
  lemma {:induction false} DoneStopsSending(c: Config, sched: seq<Action>, more: seq<Action>)
    requires c.Valid() && Run(c, sched).Some? && Run(c, sched + more).Some?
    requires Run(c, sched).value.cancelled || Run(c, sched).value.parentDone
    ensures var s := Run(c, sched).value; var t := Run(c, sched + more).value;
      (t.cancelled || t.parentDone) && |t.Sent()| <= Committed(t) <= Committed(s)
  {
    if more == [] {
      assert sched + more == sched;
    } else {
      var earlier := more[..|more| - 1];
      assert (sched + more)[..|sched + more| - 1] == sched + earlier;
      DoneStopsSending(c, sched, earlier);
      RunKeeps(c, sched + earlier);
      DoneCommits(c, Run(c, sched + earlier).value, more[|more| - 1]);
    }
    Bounds(Run(c, sched + more).value.tasks);
  }

  // What comes from outside is never refused: any result of a running task, a receive when a value
  // is there, the end of the parent context.
  lemma NothingRefused(c: Config, sched: seq<Action>, a: Action)
    requires c.Valid() && Run(c, sched).Some?
    requires var s := Run(c, sched).value;
      || (a.Return? && a.i < |s.tasks| && s.tasks[a.i] == Running)
      || (a.Receive? && s.buffer != []) || a.CancelParent?
    ensures Run(c, sched + [a]).Some?
  {
    RunKeeps(c, sched);
    assert (sched + [a])[..|sched + [a]| - 1] == sched;
  }
}
