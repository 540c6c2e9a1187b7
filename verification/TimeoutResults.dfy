/** utils/taskRunManager/chanTask.go, lines 90-132: the same protocol under a timeout.

    A forwarding goroutine is the caller of the inner protocol and, when it stops, the end of the
    inner protocol's parent context.  The inner steps are those of FirstResults. */
module TimeoutResults {
  import opened Wrappers
  import FirstResults

  type Value = FirstResults.Value
  type Config = FirstResults.Config

  datatype ForwardPc =
    | Selecting          // in the select over the timeout and the inner channel
    | Holding(v: Value)  // took v, about to do the non-blocking send
    | Cancelling         // deferred cancel()
    | Closing            // deferred close(resChan)
    | Ended

  datatype State = State(
    inner: FirstResults.State,
    pc: ForwardPc,
    received: seq<Value>,   // values the caller has taken out of the outer channel
    buffer: seq<Value>,
    closed: bool,
    dropped: nat,
    panicked: bool,
    complete: bool          // the inner channel ended while the timeout context was not done
  ) {
    function Sent(): seq<Value> { received + buffer }
  }

  datatype Action =
    | Inner(a: FirstResults.Action)   // any inner step but receiving, including the timer
    | Take                            // select: receive from the inner channel
    | Exhausted                       // select: the inner channel is closed and empty
    | TimedOut                        // select: the timeout context is done
    | Forward                         // the next step outside the select
    | Receive                         // the caller receives one value

  function Init(c: Config): State {
    State(FirstResults.Init(c), Selecting, [], [], false, 0, false, false)
  }

  predicate Enabled(c: Config, s: State, a: Action) {
    match a
    case Inner(b) => !b.Receive? && FirstResults.Enabled(c, s.inner, b)
    case Take => s.pc == Selecting && s.inner.buffer != []
    case Exhausted => s.pc == Selecting && s.inner.closed && s.inner.buffer == []
    case TimedOut => s.pc == Selecting && s.inner.parentDone
    case Forward => s.pc != Selecting && s.pc != Ended
    case Receive => s.buffer != []
  }

  function TrySend(c: Config, s: State, v: Value): State {
    if s.closed then s.(panicked := true)
    else if |s.buffer| < c.want then s.(buffer := s.buffer + [v])
    else s.(dropped := s.dropped + 1)
  }

  function Do(c: Config, s: State, a: Action): State
    requires |s.inner.tasks| == |s.inner.results| && Enabled(c, s, a)
  {
    match a
    case Inner(b) => s.(inner := FirstResults.Do(c, s.inner, b))
    case Take => s.(pc := Holding(s.inner.buffer[0]), inner := FirstResults.Do(c, s.inner, FirstResults.Receive))
    case Exhausted => s.(pc := Cancelling, complete := !s.inner.parentDone)
    case TimedOut => s.(pc := Cancelling)
    case Forward =>
      (match s.pc
       case Holding(v) => TrySend(c, s, v).(pc := Selecting)
       case Cancelling => s.(pc := Closing, inner := FirstResults.Do(c, s.inner, FirstResults.CancelParent))
       case Closing => s.(pc := Ended, closed := true, panicked := s.panicked || s.closed))
    case Receive => s.(received := s.received + [s.buffer[0]], buffer := s.buffer[1..])
  }

  function Run(c: Config, sched: seq<Action>): Option<State> {
    if sched == [] then Some(Init(c))
    else
      var before := Run(c, sched[..|sched| - 1]);
      var a := sched[|sched| - 1];
      if before.Some? && |before.value.inner.tasks| == |before.value.inner.results| && Enabled(c, before.value, a)
      then Some(Do(c, before.value, a))
      else None
  }

  function Held(pc: ForwardPc): seq<Value> {
    match pc
    case Holding(v) => [v]
    case _ => []
  }

  ghost predicate Inv(c: Config, s: State) {
    FirstResults.Inv(c, s.inner) && OuterInv(c, s)
  }

  ghost predicate OuterInv(c: Config, s: State) {
    && s.Sent() + Held(s.pc) == s.inner.received
    && s.dropped == 0 && !s.panicked
    && (s.closed <==> s.pc == Ended)
    && (s.pc == Closing || s.pc == Ended ==> s.inner.parentDone)
    && (s.complete ==> s.inner.closed && s.inner.buffer == [] && s.pc != Selecting && !s.pc.Holding? && Counted(c, s))
  }

  // The inner protocol delivered all it ever will: the wanted number, or all there was.
  ghost predicate Counted(c: Config, s: State) {
    |s.Sent()| == c.want || (s.inner.driver == FirstResults.Ended && |s.Sent()| == s.inner.successes)
  }

  // The outer side only looks at the inner stream, so it survives whatever keeps that stream.
  lemma OuterSurvives(c: Config, s: State, t: State)
    requires OuterInv(c, s) && t == s.(inner := t.inner)
    requires t.inner.received == s.inner.received
    requires s.inner.parentDone ==> t.inner.parentDone
    requires s.inner.closed ==> t.inner.closed && t.inner.Sent() == s.inner.Sent()
    requires s.inner.driver == FirstResults.Ended ==>
      t.inner.driver == FirstResults.Ended && t.inner.successes == s.inner.successes
    ensures OuterInv(c, t)
  {
  }

  lemma InnerKeeps(c: Config, s: State, b: FirstResults.Action)
    requires c.Valid() && Inv(c, s) && Enabled(c, s, Inner(b))
    ensures Inv(c, Do(c, s, Inner(b)))
  {
    FirstResults.StepKeeps(c, s.inner, b);
    FirstResults.StreamGrows(c, s.inner, b);
    OuterSurvives(c, s, Do(c, s, Inner(b)));
  }

  // The inner channel ended before the timeout: everything wanted, or everything available, came.
  lemma ExhaustedKeeps(c: Config, s: State)
    requires c.Valid() && Inv(c, s) && Enabled(c, s, Exhausted)
    ensures Inv(c, Do(c, s, Exhausted))
  {
    assert s.Sent() == s.inner.Sent();
    if s.inner.driver == FirstResults.Ended {
      FirstResults.EndedCount(c, s.inner);
    }
    FirstResults.StreamBounds(c, s.inner);
  }

  lemma ForwardKeeps(c: Config, s: State)
    requires c.Valid() && Inv(c, s) && Enabled(c, s, Forward)
    ensures Inv(c, Do(c, s, Forward))
  {
    FirstResults.StepKeeps(c, s.inner, FirstResults.CancelParent);
    FirstResults.StreamBounds(c, s.inner);
    var t := Do(c, s, Forward);
    if s.pc.Holding? {
      assert |s.inner.received| <= c.want;
      assert t.Sent() == s.Sent() + [s.pc.v];
    }
  }

  lemma TakeKeeps(c: Config, s: State)
    requires c.Valid() && Inv(c, s) && Enabled(c, s, Take)
    ensures Inv(c, Do(c, s, Take))
  {
    FirstResults.StepKeeps(c, s.inner, FirstResults.Receive);
  }

  lemma ReceiveKeeps(c: Config, s: State)
    requires Inv(c, s) && Enabled(c, s, Receive)
    ensures Inv(c, Do(c, s, Receive))
  {
    assert s.received + [s.buffer[0]] + s.buffer[1..] == s.received + s.buffer;
  }

  lemma StepKeeps(c: Config, s: State, a: Action)
    requires c.Valid() && Inv(c, s) && Enabled(c, s, a)
    ensures Inv(c, Do(c, s, a))
  {
    match a
    case Inner(b) => InnerKeeps(c, s, b);
    case Take => TakeKeeps(c, s);
    case Exhausted => ExhaustedKeeps(c, s);
    case TimedOut =>
    case Forward => ForwardKeeps(c, s);
    case Receive => ReceiveKeeps(c, s);
  }

  lemma {:induction false} RunKeeps(c: Config, sched: seq<Action>)
    requires c.Valid() && Run(c, sched).Some?
    ensures Inv(c, Run(c, sched).value)
  {
    if sched != [] {
      RunKeeps(c, sched[..|sched| - 1]);
      StepKeeps(c, Run(c, sched[..|sched| - 1]).value, sched[|sched| - 1]);
    }
  }

  // For every schedule the outer stream is a prefix of the inner one with nothing dropped on the
  // way, the outer channel is never sent on after its close, and when the inner channel ended
  // before the timeout the outer stream holds exactly as many values as were wanted and available.
  // The channel is closed once the forwarding has ended, and the inner context is done by then.
  lemma OuterStream(c: Config, sched: seq<Action>)
    requires c.Valid() && Run(c, sched).Some?
    ensures var s := Run(c, sched).value;
      && s.Sent() <= s.inner.Sent() && s.dropped == 0
      && !s.panicked && !s.inner.panicked
      && (s.pc == Ended ==> s.closed && s.inner.parentDone)
      && (s.complete ==> |s.Sent()| == (if c.want < s.inner.successes then c.want else s.inner.successes))
  {
    RunKeeps(c, sched);
    FirstResults.StreamBounds(c, Run(c, sched).value.inner);
    PrefixOfInner(c, Run(c, sched).value);
  }

  lemma PrefixOfInner(c: Config, s: State)
    requires OuterInv(c, s)
    ensures s.Sent() <= s.inner.Sent()
    ensures s.complete ==> s.Sent() == s.inner.Sent()
  {
    assert s.inner.Sent() == s.Sent() + (Held(s.pc) + s.inner.buffer);
  }

  // Progress

  function ForwardRank(pc: ForwardPc): int {
    match pc
    case Holding(_) => 5
    case Selecting => 4
    case Cancelling => 3
    case Closing => 2
    case Ended => 1
  }

  // The most steps that the goroutines of both protocols can still take.
  function Measure(c: Config, s: State): int {
    FirstResults.Measure(c, s.inner) + 2 * (c.want - |s.inner.received|) + ForwardRank(s.pc)
  }

  // A step of a goroutine, as opposed to one of the caller, the timer or the parent context.
  predicate Internal(a: Action) {
    !a.Receive? && a != Inner(FirstResults.CancelParent)
  }

  function InternalSteps(sched: seq<Action>): nat {
    if sched == [] then 0
    else InternalSteps(sched[..|sched| - 1]) + if Internal(sched[|sched| - 1]) then 1 else 0
  }

  lemma MeasureFalls(c: Config, s: State, a: Action)
    requires c.Valid() && Inv(c, s) && Enabled(c, s, a)
    ensures Measure(c, Do(c, s, a)) + (if Internal(a) then 1 else 0) <= Measure(c, s)
  {
    if a.Inner? {
      FirstResults.StreamGrows(c, s.inner, a.a);
      FirstResults.MeasureFalls(c, s.inner, a.a);
    } else if a.Take? {
      FirstResults.MeasureFalls(c, s.inner, FirstResults.Receive);
    } else if a.Forward? && s.pc.Cancelling? {
      FirstResults.MeasureFalls(c, s.inner, FirstResults.CancelParent);
    }
  }

  lemma {:induction false} RunIsBounded(c: Config, sched: seq<Action>)
    requires c.Valid() && Run(c, sched).Some?
    ensures InternalSteps(sched) + Measure(c, Run(c, sched).value) <= 14 * c.total + 2 * c.want + 9
  {
    if sched != [] {
      var earlier := sched[..|sched| - 1];
      RunIsBounded(c, earlier);
      RunKeeps(c, earlier);
      MeasureFalls(c, Run(c, earlier).value, sched[|sched| - 1]);
    }
  }

  // As long as the outer channel has not been closed, some goroutine can take one more step: with
  // the bound on such steps, it ends up closed whether or not the caller receives and the timer fires.
  lemma NotStuck(c: Config, sched: seq<Action>) returns (a: Action)
    requires c.Valid() && Run(c, sched).Some? && !Run(c, sched).value.closed
    ensures Internal(a) && Run(c, sched + [a]).Some?
  {
    RunKeeps(c, sched);
    var s := Run(c, sched).value;
    if s.pc != Selecting {
      a := Forward;
    } else if s.inner.buffer != [] {
      a := Take;
    } else if s.inner.driver == FirstResults.Ended {
      a := Exhausted;
    } else {
      var b := FirstResults.CanMove(c, s.inner);
      a := Inner(b);
    }
    assert (sched + [a])[..|sched + [a]| - 1] == sched;
  }

  // So the internal steps of any run are bounded outright.
  lemma StepsBounded(c: Config, sched: seq<Action>)
    requires c.Valid() && Run(c, sched).Some?
    ensures InternalSteps(sched) <= 14 * c.total + 2 * c.want + 9
  {
    RunKeeps(c, sched);
    RunIsBounded(c, sched);
    var s := Run(c, sched).value;
    FirstResults.StreamBounds(c, s.inner);
    FirstResults.Bounds(s.inner.tasks);
  }

  // Whatever the inner protocol and the caller do: once the timer has fired, three steps of the
  // forwarding goroutine, if it is at its select, close the channel, and nothing more is sent.
  lemma TimeoutEnds(c: Config, sched: seq<Action>)
    requires c.Valid() && Run(c, sched).Some? && Run(c, sched).value.inner.parentDone
    requires Run(c, sched).value.pc == Selecting
    ensures var r := Run(c, sched + [TimedOut] + [Forward] + [Forward]);
      r.Some? && r.value.closed && r.value.Sent() == Run(c, sched).value.Sent()
  {
    RunKeeps(c, sched);
    RunOneMore(c, sched, TimedOut);
    RunKeeps(c, sched + [TimedOut]);
    RunOneMore(c, sched + [TimedOut], Forward);
    RunKeeps(c, sched + [TimedOut] + [Forward]);
    RunOneMore(c, sched + [TimedOut] + [Forward], Forward);
  }

  lemma RunOneMore(c: Config, sched: seq<Action>, a: Action)
    requires Run(c, sched).Some? && Enabled(c, Run(c, sched).value, a)
    requires |Run(c, sched).value.inner.tasks| == |Run(c, sched).value.inner.results|
    ensures Run(c, sched + [a]) == Some(Do(c, Run(c, sched).value, a))
  {
    assert (sched + [a])[..|sched + [a]| - 1] == sched;
  }
}
