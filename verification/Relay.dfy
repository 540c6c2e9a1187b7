/** The relay phase of server/http_proxy_handler.go (lines 139-289, with the admission of lines
    57-58), shared with the SOCKS handler.

    A step system over the handler, its two copying goroutines and the sniffing goroutine.  When a
    copy ends, whether a write triggers the notice, and why the handler leaves its loop are chosen
    by the schedule. */
module Relay {
  import opened Wrappers

  datatype MainPc =
    | AddUser          // addUserConnection
    | SpawnSniffer     // wg.Add(1), go, if the domain is not known yet
    | SpawnCopies      // wg.Add(2), go, go
    | Looping          // in the select loop
    | CloseDone        // deferred: close(done)
    | CloseConns       // deferred: close both connections
    | WaitAll          // deferred: wg.Wait()
    | CloseErrs        // deferred: close(errCh)
    | CloseBytes       // deferred: close(byteChan)
    | ReleaseUser      // deferred: deleteUserConnection
    | CloseTarget      // deferred: target.Close()
    | ReleaseIp        // deferred: ReduceIpConnCount
    | Gone

  datatype CopyPc =
    | Unborn
    | Copying
    | Swapping         // a write to the client: about to compare-and-swap isNotice
    | SendBytes        // in the callback: about to send on byteChan
    | SendErr          // copy over: about to send on errCh
    | SignOff          // deferred wg.Done()
    | Ended

  datatype SniffPc = NoSniffer | Waiting | Parsing | SniffSignOff | SniffEnded

  datatype State = State(
    sniffing: bool,        // the domain is empty and the method is CONNECT
    main: MainPc,
    up: CopyPc,            // client to target
    down: CopyPc,          // target to client, whose writes trigger the notice
    sniffer: SniffPc,
    wg: int,
    errs: nat,             // elements in errCh, of capacity 2
    errsClosed: bool,
    bytes: nat,            // elements in byteChan, of capacity 1
    bytesClosed: bool,
    done: bool,            // done is closed
    noticed: bool,         // isNotice of the wrapper
    userHeld: bool,        // this handler holds its user connection
    ipHeld: bool,          // this handler is counted for its IP
    panicked: bool         // a send on, or a second close of, a closed channel
  )

  datatype Action =
    | Main
    | Leave(fromErr: bool)     // the select loop: an error, or a cancelled context or the blacklist
    | Up                       // the next step of the first copy
    | Down(notice: bool)       // the next step of the second; `notice`: its next event is a write
    | SniffDone                // the sniffer's select takes done
    | SniffBytes               // the sniffer's select takes byteChan
    | Sniff                    // its next step after that

  function Init(sniffing: bool): State {
    State(sniffing, AddUser, Unborn, Unborn, NoSniffer, 0, 0, false, 0, false, false, false, false, true, false)
  }

  predicate CopyEnabled(s: State, p: CopyPc) {
    match p
    case Unborn => false
    case SendBytes => s.bytes < 1 || s.bytesClosed
    case SendErr => s.errs < 2 || s.errsClosed
    case Ended => false
    case _ => true
  }

  predicate Enabled(s: State, a: Action) {
    match a
    case Main => s.main != Looping && s.main != Gone && (s.main == WaitAll ==> s.wg == 0)
    case Leave(fromErr) => s.main == Looping && (fromErr ==> 0 < s.errs)
    case Up => CopyEnabled(s, s.up)
    case Down(notice) => CopyEnabled(s, s.down) && (notice ==> s.sniffing && s.down == Copying)
    case SniffDone => s.sniffer == Waiting && s.done
    case SniffBytes => s.sniffer == Waiting && (0 < s.bytes || s.bytesClosed)
    case Sniff => s.sniffer == Parsing || s.sniffer == SniffSignOff
  }

  function MainStep(s: State): State {
    match s.main
    case AddUser => s.(userHeld := true, main := SpawnSniffer)
    case SpawnSniffer =>
      if s.sniffing then s.(wg := s.wg + 1, sniffer := Waiting, main := SpawnCopies) else s.(main := SpawnCopies)
    case SpawnCopies => s.(wg := s.wg + 2, up := Copying, down := Copying, main := Looping)
    case Looping => s
    case CloseDone => s.(done := true, panicked := s.panicked || s.done, main := CloseConns)
    case CloseConns => s.(main := WaitAll)
    case WaitAll => s.(main := CloseErrs)
    case CloseErrs => s.(errsClosed := true, panicked := s.panicked || s.errsClosed, main := CloseBytes)
    case CloseBytes => s.(bytesClosed := true, panicked := s.panicked || s.bytesClosed, main := ReleaseUser)
    case ReleaseUser => s.(userHeld := false, main := CloseTarget)
    case CloseTarget => s.(main := ReleaseIp)
    case ReleaseIp => s.(ipHeld := false, main := Gone)
    case Gone => s
  }

  function SendError(s: State): State {
    if s.errsClosed then s.(panicked := true) else s.(errs := s.errs + 1)
  }

  function UpStep(s: State): State {
    match s.up
    case Copying => s.(up := SendErr)
    case SendErr => SendError(s).(up := SignOff)
    case SignOff => s.(wg := s.wg - 1, up := Ended)
    case _ => s
  }

  function DownStep(s: State, notice: bool): State {
    match s.down
    case Copying => s.(down := if notice then Swapping else SendErr)
    case Swapping => s.(noticed := true, down := if s.noticed then Copying else SendBytes)
    case SendBytes =>
      if s.bytesClosed then s.(panicked := true, down := Copying) else s.(bytes := s.bytes + 1, down := Copying)
    case SendErr => SendError(s).(down := SignOff)
    case SignOff => s.(wg := s.wg - 1, down := Ended)
    case _ => s
  }

  function Do(s: State, a: Action): State
    requires Enabled(s, a)
  {
    match a
    case Main => MainStep(s)
    case Leave(fromErr) => s.(main := CloseDone, errs := if fromErr && 0 < s.errs then s.errs - 1 else s.errs)
    case Up => UpStep(s)
    case Down(notice) => DownStep(s, notice)
    case SniffDone => s.(sniffer := SniffSignOff)
    case SniffBytes => s.(bytes := if 0 < s.bytes then s.bytes - 1 else 0, sniffer := Parsing)
    case Sniff =>
      if s.sniffer == Parsing then s.(sniffer := SniffSignOff) else s.(wg := s.wg - 1, sniffer := SniffEnded)
  }

  function Run(sniffing: bool, sched: seq<Action>): Option<State> {
    if sched == [] then Some(Init(sniffing))
    else
      var before := Run(sniffing, sched[..|sched| - 1]);
      var a := sched[|sched| - 1];
      if before.Some? && Enabled(before.value, a) then Some(Do(before.value, a)) else None
  }

  function Alive(p: CopyPc): int { if p == Unborn || p == Ended then 0 else 1 }
  function SnifferAlive(p: SniffPc): int { if p == NoSniffer || p == SniffEnded then 0 else 1 }
  function ErrSent(p: CopyPc): int { if p == SignOff || p == Ended then 1 else 0 }

  // The order of the handler's own steps.
  function Stage(m: MainPc): int {
    match m
    case AddUser => 0
    case SpawnSniffer => 1
    case SpawnCopies => 2
    case Looping => 3
    case CloseDone => 4
    case CloseConns => 5
    case WaitAll => 6
    case CloseErrs => 7
    case CloseBytes => 8
    case ReleaseUser => 9
    case CloseTarget => 10
    case ReleaseIp => 11
    case Gone => 12
  }

  ghost predicate Inv(s: State) {
    && !s.panicked
    && s.wg == Alive(s.up) + Alive(s.down) + SnifferAlive(s.sniffer)
    && s.errs <= ErrSent(s.up) + ErrSent(s.down)
    && s.bytes + (if s.down == SendBytes then 1 else 0) <= (if s.noticed then 1 else 0)
    && (s.down == Swapping || s.down == SendBytes ==> s.sniffing)
    && (s.up == Unborn <==> Stage(s.main) < 3)
    && (s.down == Unborn <==> Stage(s.main) < 3)
    && (s.sniffer == NoSniffer <==> Stage(s.main) < 2 || !s.sniffing)
    && s.up != Swapping && s.up != SendBytes
    && (Stage(s.main) > 6 ==> s.wg == 0)
    && (s.done <==> Stage(s.main) > 4)
    && (s.errsClosed <==> Stage(s.main) > 7)
    && (s.bytesClosed <==> Stage(s.main) > 8)
    && (s.userHeld <==> 0 < Stage(s.main) <= 9)
    && (s.ipHeld <==> Stage(s.main) <= 11)
  }

  lemma MainKeeps(s: State)
    requires Inv(s) && Enabled(s, Main)
    ensures Inv(MainStep(s)) && MainStep(s).sniffing == s.sniffing
  {
  }

  lemma UpKeeps(s: State)
    requires Inv(s) && Enabled(s, Up)
    ensures Inv(UpStep(s)) && UpStep(s).sniffing == s.sniffing
  {
    if s.up == Copying {
      assert Stage(UpStep(s).main) == Stage(s.main);
    } else if s.up == SendErr {
      assert !s.errsClosed;
    } else {
      assert s.up == SignOff;
    }
  }

  lemma NoticeKeeps(s: State, notice: bool)
    requires Inv(s) && Enabled(s, Down(notice)) && (s.down == Swapping || s.down == SendBytes)
    ensures Inv(DownStep(s, notice)) && DownStep(s, notice).sniffing == s.sniffing
  {
  }

  lemma DownKeeps(s: State, notice: bool)
    requires Inv(s) && Enabled(s, Down(notice))
    ensures Inv(DownStep(s, notice)) && DownStep(s, notice).sniffing == s.sniffing
  {
    if s.down == Swapping || s.down == SendBytes {
      NoticeKeeps(s, notice);
    } else if s.down == SendErr {
      assert !s.errsClosed;
    } else {
      assert s.down == Copying || s.down == SignOff;
    }
  }

  lemma LeaveKeeps(s: State, fromErr: bool)
    requires Inv(s) && Enabled(s, Leave(fromErr))
    ensures Inv(Do(s, Leave(fromErr))) && Do(s, Leave(fromErr)).sniffing == s.sniffing
  {
  }

  lemma SnifferKeeps(s: State, a: Action)
    requires Inv(s) && Enabled(s, a) && (a.SniffDone? || a.SniffBytes? || a.Sniff?)
    ensures Inv(Do(s, a)) && Do(s, a).sniffing == s.sniffing
  {
  }

  lemma StepKeeps(s: State, a: Action)
    requires Inv(s) && Enabled(s, a)
    ensures Inv(Do(s, a)) && Do(s, a).sniffing == s.sniffing
  {
    match a
    case Main => MainKeeps(s);
    case Leave(fromErr) => LeaveKeeps(s, fromErr);
    case Up => UpKeeps(s);
    case Down(notice) => DownKeeps(s, notice);
    case _ => SnifferKeeps(s, a);
  }

  lemma {:induction false} RunKeeps(sniffing: bool, sched: seq<Action>)
    requires Run(sniffing, sched).Some?
    ensures Inv(Run(sniffing, sched).value) && Run(sniffing, sched).value.sniffing == sniffing
  {
    if sched != [] {
      RunKeeps(sniffing, sched[..|sched| - 1]);
      StepKeeps(Run(sniffing, sched[..|sched| - 1]).value, sched[|sched| - 1]);
    }
  }

  // No goroutine of the relay is left.
  predicate AllEnded(s: State) {
    && (s.up == Unborn || s.up == Ended)
    && (s.down == Unborn || s.down == Ended)
    && (s.sniffer == NoSniffer || s.sniffer == SniffEnded)
  }

  // For every schedule: nobody sends on a closed channel, a goroutine about to send finds room,
  // channels are closed only after all goroutines have ended, and the user connection and then
  // the IP slot are released only after the channels have been closed.
  lemma Teardown(sniffing: bool, sched: seq<Action>)
    requires Run(sniffing, sched).Some?
    ensures var s := Run(sniffing, sched).value;
      && !s.panicked
      && (s.up == SendErr || s.down == SendErr ==> s.errs < 2 && !s.errsClosed)
      && (s.down == SendBytes ==> s.bytes < 1 && !s.bytesClosed)
      && (s.errsClosed || s.bytesClosed ==> AllEnded(s))
      && (!s.userHeld && s.main != AddUser ==> s.errsClosed && s.bytesClosed && AllEnded(s))
      && (!s.ipHeld ==> !s.userHeld && s.errsClosed && s.bytesClosed && AllEnded(s))
  {
    RunKeeps(sniffing, sched);
  }

  // Progress, given that both copies end once the connections have been closed

  function CopyRank(p: CopyPc): int {
    match p
    case Unborn => 7
    case Copying => 6
    case Swapping => 7
    case SendBytes => 8
    case SendErr => 2
    case SignOff => 1
    case Ended => 0
  }

  function SniffRank(p: SniffPc): int {
    match p
    case NoSniffer => 4
    case Waiting => 3
    case Parsing => 2
    case SniffSignOff => 1
    case SniffEnded => 0
  }

  // Everything still to do, not counting writes after the first.
  function Measure(s: State): int {
    12 - Stage(s.main) + CopyRank(s.up) + CopyRank(s.down) + SniffRank(s.sniffer)
    + (if s.noticed then 0 else 4)
  }

  // Every step but the start of another write brings the measure down ...
  lemma Progress(s: State, a: Action)
    requires Inv(s) && Enabled(s, a)
    requires !(a.Down? && a.notice)
    ensures 0 <= Measure(Do(s, a)) < Measure(s)
  {
    if a.Down? {
      DownProgress(s);
    } else if a.Main? || a.Leave? {
      MainProgress(s, a);
    }
  }

  lemma DownProgress(s: State)
    requires Inv(s) && Enabled(s, Down(false))
    ensures Measure(Do(s, Down(false))) < Measure(s)
  {
  }

  lemma MainProgress(s: State, a: Action)
    requires Inv(s) && Enabled(s, a) && (a.Main? || a.Leave?)
    ensures Measure(Do(s, a)) < Measure(s)
  {
  }

  // ... and until the handler is gone, such a step is possible.
  lemma NotStuck(sniffing: bool, sched: seq<Action>) returns (a: Action)
    requires Run(sniffing, sched).Some? && Run(sniffing, sched).value.main != Gone
    ensures Run(sniffing, sched + [a]).Some? && !(a.Down? && a.notice)
  {
    RunKeeps(sniffing, sched);
    var s := Run(sniffing, sched).value;
    a := if s.main == Looping then Leave(false)
         else if Enabled(s, Main) then Main
         else if Enabled(s, Up) then Up
         else if Enabled(s, Down(false)) then Down(false)
         else if Enabled(s, Sniff) then Sniff
         else SniffDone;
    assert (sched + [a])[..|sched + [a]| - 1] == sched;
  }

  // Nothing that is sent goes missing: as long as the handler listens, every copy that is over has
  // left its error, and the bytes of the first write wait for the sniffer.
  ghost predicate SignalInv(s: State) {
    && (Stage(s.main) <= 3 ==> s.errs == ErrSent(s.up) + ErrSent(s.down))
    && (s.noticed && s.down != SendBytes && s.sniffer == Waiting ==> s.bytes == 1)
    && (s.down == Unborn ==> !s.noticed)
    && (s.sniffer == Parsing ==> s.noticed && s.down != SendBytes && s.bytes == 0)
  }

  lemma MainSignals(s: State, a: Action)
    requires Inv(s) && SignalInv(s) && Enabled(s, a) && (a.Main? || a.Leave?)
    ensures SignalInv(Do(s, a))
  {
  }

  lemma UpSignals(s: State)
    requires Inv(s) && SignalInv(s) && Enabled(s, Up)
    ensures SignalInv(UpStep(s))
  {
  }

  lemma DownSignals(s: State, notice: bool)
    requires Inv(s) && SignalInv(s) && Enabled(s, Down(notice))
    ensures SignalInv(DownStep(s, notice))
  {
    if s.down == SendBytes {
      assert 0 < s.wg && !s.bytesClosed && s.noticed && s.bytes == 0;
    } else if s.down == Swapping {
      assert DownStep(s, notice).noticed;
    } else {
      assert DownStep(s, notice).noticed == s.noticed && DownStep(s, notice).bytes == s.bytes;
    }
  }

  lemma SnifferSignals(s: State, a: Action)
    requires Inv(s) && SignalInv(s) && Enabled(s, a) && (a.SniffDone? || a.SniffBytes? || a.Sniff?)
    ensures SignalInv(Do(s, a))
  {
  }

  lemma {:induction false} RunSignals(sniffing: bool, sched: seq<Action>)
    requires Run(sniffing, sched).Some?
    ensures SignalInv(Run(sniffing, sched).value)
  {
    if sched != [] {
      var earlier := sched[..|sched| - 1];
      var a := sched[|sched| - 1];
      RunSignals(sniffing, earlier);
      RunKeeps(sniffing, earlier);
      var s := Run(sniffing, earlier).value;
      if a.Main? || a.Leave? {
        MainSignals(s, a);
      } else if a.Up? {
        UpSignals(s);
      } else if a.Down? {
        DownSignals(s, a.notice);
      } else {
        SnifferSignals(s, a);
      }
    }
  }

  // A copy that is over lets the handler leave its loop by its error.
  ghost predicate ErrorsArrive(s: State) {
    s.main == Looping && (s.up == Ended || s.down == Ended) ==>
      Enabled(s, Leave(true)) && Do(s, Leave(true)).errs == s.errs - 1
  }

  // A waiting sniffer can take the bytes of the first write as soon as they are sent, and the end of
  // the relay as soon as it is announced.
  ghost predicate BytesArrive(s: State) {
    && (s.sniffer == Waiting && s.noticed && s.down != SendBytes ==>
          Enabled(s, SniffBytes) && Do(s, SniffBytes).sniffer == Parsing)
    && (s.sniffer == Parsing ==> s.bytes == 0)
    && (s.sniffer == Waiting && s.main == WaitAll ==> Enabled(s, SniffDone))
  }

  lemma LoopHearsErrors(s: State)
    requires Inv(s) && SignalInv(s)
    ensures ErrorsArrive(s)
  {
  }

  lemma SnifferHearsBytes(s: State)
    requires Inv(s) && SignalInv(s)
    ensures BytesArrive(s)
  {
  }

  // For every schedule: nothing that is sent waits in vain, and what is taken is no longer there.
  lemma SignalsArrive(sniffing: bool, sched: seq<Action>)
    requires Run(sniffing, sched).Some?
    ensures ErrorsArrive(Run(sniffing, sched).value) && BytesArrive(Run(sniffing, sched).value)
  {
    RunKeeps(sniffing, sched);
    RunSignals(sniffing, sched);
    LoopHearsErrors(Run(sniffing, sched).value);
    SnifferHearsBytes(Run(sniffing, sched).value);
  }

  lemma GoroutinesCounted(s: State)
    requires Inv(s) && !AllEnded(s)
    ensures 0 < s.wg && Stage(s.main) <= 6
  {
  }

  // For every schedule: the slots are held until all goroutines have ended, and when the handler is
  // gone, everything is over, closed and released.
  lemma EverythingReleased(sniffing: bool, sched: seq<Action>)
    requires Run(sniffing, sched).Some?
    ensures var s := Run(sniffing, sched).value;
      && (s.main != AddUser && !AllEnded(s) ==> s.userHeld && s.ipHeld)
      && (s.main == Gone ==>
            AllEnded(s) && s.wg == 0 && !s.userHeld && !s.ipHeld && s.done && s.errsClosed && s.bytesClosed)
  {
    RunKeeps(sniffing, sched);
    var s := Run(sniffing, sched).value;
    if !AllEnded(s) {
      GoroutinesCounted(s);
    }
  }
}
