/** server/flow_limit.go, lines 147-215: a reader that delivers a source's bytes as fast as its
    action grants them. */
module LimitedReader {
  import opened Bytes
  import opened FlowLimit

  const BUFFER_SIZE := 2 * 1024

  datatype ReadError = Nil | ContextDone | SourceError | Eof

  /** The underlying reader: any number of bytes at a time, zero included, with or without an
      error beside them. */
  class Source {
    var pending: seq<byte>
    var failed: bool               // the last read came with an error
    ghost var fetched: seq<byte>   // every byte handed out so far

    constructor (bytes: seq<byte>)
      ensures pending == bytes && fetched == []
    {
      pending, failed, fetched := bytes, false, [];
    }

    method Read(buf: array<byte>) returns (n: nat, err: bool)
      modifies this, buf
      ensures n <= buf.Length && err == failed
      ensures fetched == old(fetched) + buf[..n] && old(pending) == buf[..n] + pending
    {
      n :| 0 <= n <= buf.Length && n <= |pending|;
      failed := *;
      err := failed;
      forall k | 0 <= k < n {
        buf[k] := pending[k];
      }
      fetched := fetched + pending[..n];
      pending := pending[n..];
    }
  }

  // What a reader has done so far, whatever its buffer looks like.
  datatype Reader = Reader(
    window: seq<byte>,      // the buffered bytes, in order
    fetched: seq<byte>,     // every byte that the source has handed out
    delivered: seq<byte>,   // every byte that Read has delivered
    granted: int,           // what GetReadSize has granted to this reader
    starved: int            // reads that went ahead without a grant
  )

  // A chunk of the source takes the place of an empty buffer.
  function Fetched(r: Reader, chunk: seq<byte>): Reader {
    r.(window := chunk, fetched := r.fetched + chunk)
  }

  // How much a read may deliver, one byte being forced when nothing is granted.
  function Allowance(grant: int): int { if grant <= 0 then 1 else grant }

  // The buffered bytes are delivered as far as the grant and the caller's room go.  A grant for
  // these bytes never goes beyond them (FlowLimit.SizeBounds), so the first case does not arise.
  function Served(r: Reader, grant: int, room: nat): Reader {
    var n := Min(room, Allowance(grant));
    if |r.window| < n then r
    else Reader(r.window[n..], r.fetched, r.delivered + r.window[..n], r.granted + grant,
                r.starved + if grant <= 0 then 1 else 0)
  }

  // The n bytes delivered from `r` into room for `room` are what the limiter `l` grants at shard i
  // for the bytes buffered, or one byte, and `l` is charged with the grant.
  predicate Charged(r: Reader, l: Limiter, i: nat, now: int, room: nat, s: Reader, m: Limiter, n: int)
    requires i < |l.shards|
  {
    var ready := Ready(l, i, now);
    var grant := Size(ready, i, |r.window|);
    m == Taken(ready, i, grant) && s == Served(r, grant, room) && n == Min(room, Allowance(grant))
  }

  lemma ChargedParts(r: Reader, l: Limiter, i: nat, now: int, room: nat, grant: int, n: int)
    requires i < |l.shards| && grant == Size(Ready(l, i, now), i, |r.window|)
    requires n == Min(room, Allowance(grant)) && 0 <= n <= |r.window|
    ensures Charged(r, l, i, now, room,
                    Reader(r.window[n..], r.fetched, r.delivered + r.window[..n], r.granted + grant,
                           r.starved + if grant <= 0 then 1 else 0),
                    Taken(Ready(l, i, now), i, grant), n)
  {
  }

  lemma Rejoin(before: seq<byte>, window: seq<byte>, n: nat)
    requires n <= |window|
    ensures before + window[..n] + window[n..] == before + window
  {
  }

  class LimitedReader {
    const r: Source
    const tempbuf: array<byte>
    const action: LimitedReaderAction
    var off: nat                     // buf is tempbuf[off..]
    var llen: nat                    // valid bytes at the front of buf

    ghost var delivered: seq<byte>
    ghost var granted: nat
    ghost var starved: nat

    ghost predicate Valid()
      reads this, r, tempbuf, action
    {
      && tempbuf.Length == BUFFER_SIZE
      && off + llen <= tempbuf.Length
      && action.View().Valid()
      && delivered + Window() == r.fetched
      && |delivered| <= granted + starved
    }

    constructor (r: Source, action: LimitedReaderAction)
      requires action.View().Valid() && r.fetched == []
      ensures Valid() && fresh(tempbuf) && this.r == r && this.action == action
      ensures View() == Reader([], [], [], 0, 0)
    {
      this.r, this.action := r, action;
      tempbuf := new byte[BUFFER_SIZE](_ => 0);
      off, llen := 0, 0;
      delivered, granted, starved := [], 0, 0;
    }

    ghost function Window(): seq<byte>
      requires off + llen <= tempbuf.Length
      reads this, tempbuf
    {
      tempbuf[off..off + llen]
    }

    ghost function View(): Reader
      requires off + llen <= tempbuf.Length
      reads this, r, tempbuf
    {
      Reader(Window(), r.fetched, delivered, granted, starved)
    }

    // An empty buffer is filled from the source.
    method Fill() returns (failed: bool)
      requires Valid() && llen == 0
      modifies this`off, this`llen, r, tempbuf
      ensures Valid() && old(r.fetched) <= r.fetched && r.fetched + r.pending == old(r.fetched + r.pending)
      ensures View() == Fetched(old(View()), r.fetched[|old(r.fetched)|..]) && failed == r.failed
    {
      off := 0;
      assert tempbuf[old(off)..old(off)] == [];
      var got, f := r.Read(tempbuf);
      llen, failed := got, f;
      assert tempbuf[0..0 + llen] == tempbuf[..llen];
    }

    // What the action grants for the buffered bytes, or one byte after the wait when that is nothing.
    method Quota(now: int) returns (size: nat)
      requires action.View().Valid() && 0 < llen
      modifies this`granted, this`starved, action
      ensures action.View().Valid() && 1 <= size <= llen
      ensures action.cc == (old(action.cc) + 1) % 0x1_0000_0000_0000_0000
      ensures var i := action.cc % LIMIT_SHARE_SIZE; var l := Ready(old(action.View()), i, now);
        var grant := Size(l, i, llen);
        && action.View() == Taken(l, i, grant) && size == Allowance(grant)
        && granted == old(granted) + grant && starved == old(starved) + if grant <= 0 then 1 else 0
    {
      size := action.GetReadSize(llen, now);
      granted := granted + size;
      if size <= 0 {
        size := 1;
        starved := starved + 1;
      }
    }

    // The first n buffered bytes go to the caller.
    method Deliver(p: array<byte>, n: nat)
      requires off + llen <= tempbuf.Length && n <= llen && n <= p.Length && p != tempbuf
      modifies this`off, this`llen, this`delivered, p
      ensures off + llen <= tempbuf.Length && llen == old(llen) - n
      ensures p[..n] == old(Window())[..n] && p[n..] == old(p[n..])
      ensures View() ==
        old(View()).(window := old(Window())[n..], delivered := old(delivered) + old(Window())[..n])
    {
      forall k | 0 <= k < n {
        p[k] := tempbuf[off + k];
      }
      llen := llen - n;
      off := off + n;
      delivered := delivered + p[..n];
    }

    // The part of Read after the buffer has been filled.
    method ReadBuffered(p: array<byte>, now: int) returns (n: nat)
      requires Valid() && p != tempbuf && 0 < llen
      modifies this, action, p
      ensures Valid() && r.fetched == old(r.fetched) && r.pending == old(r.pending) && r.failed == old(r.failed)
      ensures action.cc == (old(action.cc) + 1) % 0x1_0000_0000_0000_0000
      ensures Charged(old(View()), old(action.View()), action.cc % LIMIT_SHARE_SIZE, now, p.Length,
                      View(), action.View(), n)
      ensures n <= old(llen) && p[..n] == old(Window())[..n] && p[n..] == old(p[n..])
    {
      var size := Quota(now);
      n := if size < p.Length then size else p.Length;
      ghost var filled := old(View());
      ghost var grant := granted - old(granted);
      ChargedParts(filled, old(action.View()), action.cc % LIMIT_SHARE_SIZE, now, p.Length, grant, n);
      Deliver(p, n);
      Rejoin(filled.delivered, filled.window, n);
    }

    // `done`: the context is done at the start; `now`: the clock's second.
    // Whatever the outcome, what was delivered followed by what is buffered is what was fetched.
    // A success is charged to the action by exactly what the action grants for the bytes buffered,
    // and delivers min(len(p), grant) of them in their order, or min(len(p), 1) when nothing was
    // granted.  A failure delivers nothing and is charged nothing.
    method Read(p: array<byte>, done: bool, now: int) returns (n: nat, err: ReadError)
      requires Valid() && p != tempbuf
      modifies this, r, tempbuf, action, p
      ensures Valid() && old(r.fetched) <= r.fetched && r.fetched + r.pending == old(r.fetched + r.pending)
      ensures done <==> err == ContextDone
      ensures done || old(llen) != 0 ==> r.fetched == old(r.fetched)
      ensures old(llen) != 0 && !done ==> err == Nil
      ensures err == SourceError <==> !done && old(llen) == 0 && r.failed
      ensures err == Eof <==> !done && old(llen) == 0 && !r.failed && r.fetched == old(r.fetched)
      ensures err != Nil ==> n == 0 && p[..] == old(p[..]) && action.View() == old(action.View())
      ensures err == Nil ==> action.cc == (old(action.cc) + 1) % 0x1_0000_0000_0000_0000
      ensures var chunk := r.fetched[|old(r.fetched)|..];
        var filled := if old(llen) == 0 && !done then Fetched(old(View()), chunk) else old(View());
        if err != Nil then View() == filled
        else
          && filled.window != []
          && Charged(filled, old(action.View()), action.cc % LIMIT_SHARE_SIZE, now, p.Length, View(), action.View(), n)
          && n <= |filled.window| && p[..n] == filled.window[..n] && p[n..] == old(p[n..])
      ensures err == Nil && 0 < p.Length ==> 1 <= n
    {
      n, err := 0, Nil;
      if done {
        return 0, ContextDone;
      }
      if llen == 0 {
        var failed := Fill();
        if failed {
          return 0, SourceError;
        }
      }
      assert action.View() == old(action.View());
      if llen <= 0 {
        assert r.fetched[|old(r.fetched)|..] == Window() == [];
        return 0, Eof;
      }
      n := ReadBuffered(p, now);
    }
  }

  // What io.CopyBuffer does with a reader: read to the first error, and hand on every byte that
  // comes without one.  All that was fetched has been delivered if and only if nothing is left in
  // the buffer.  After an error of the source what is left is what came beside that error: up to
  // there, `intact` being what had been fetched before it, nothing is missing.
  method CopyUntilError(l: LimitedReader, p: array<byte>)
    returns (out: seq<byte>, err: ReadError, ghost intact: seq<byte>)
    requires l.Valid() && p != l.tempbuf && 0 < p.Length
    modifies l, l.r, l.tempbuf, l.action, p
    ensures l.Valid() && err != Nil && l.View().delivered == old(l.View().delivered) + out
    ensures l.View().delivered == l.View().fetched <==> l.View().window == []
    ensures err == Eof ==> l.View().window == []
    ensures err == SourceError ==> l.View().delivered == intact && l.View().fetched == intact + l.View().window
  {
    out, err, intact := [], Nil, [];
    while err == Nil
      invariant l.Valid() && l.delivered == old(l.delivered) + out
      invariant l.r.fetched + l.r.pending == old(l.r.fetched + l.r.pending)
      invariant err == Eof ==> l.llen == 0
      invariant err == SourceError ==> l.delivered == intact && l.View().fetched == intact + l.View().window
      decreases |l.r.fetched| + |l.r.pending| - |l.delivered|, if err == Nil then 1 else 0
    {
      intact := l.r.fetched;
      var chunk;
      chunk, err := ReadOnce(l, p);
      out := out + chunk;
    }
  }

  method ReadOnce(l: LimitedReader, p: array<byte>) returns (chunk: seq<byte>, err: ReadError)
    requires l.Valid() && p != l.tempbuf && 0 < p.Length
    modifies l, l.r, l.tempbuf, l.action, p
    ensures l.Valid() && l.delivered == old(l.delivered) + chunk && (err == Nil <==> chunk != [])
    ensures l.r.fetched + l.r.pending == old(l.r.fetched + l.r.pending)
    ensures |l.r.fetched| + |l.r.pending| == old(|l.r.fetched| + |l.r.pending|)
    ensures err == Eof ==> l.llen == 0
    ensures err == SourceError ==>
      l.delivered == old(l.r.fetched) && l.View().fetched == old(l.r.fetched) + l.View().window
  {
    var done: bool, now: int := *, *;
    ghost var total := l.r.fetched + l.r.pending;
    var n;
    n, err := l.Read(p, done, now);
    assert |l.r.fetched + l.r.pending| == |total|;
    chunk := if err == Nil then p[..n] else [];
  }
}

/** Any number of readers that share one action, with updates of its parameters in between.

    A read is a fetch when the buffer is empty, a refill when the shard is exhausted, and a
    delivery; readers of other shards and updates can come between these. */
module SharedLimiter {
  import opened Bytes
  import opened Sums
  import opened Wrappers
  import FlowLimit
  import opened LimitedReader

  type Limiter = FlowLimit.Limiter

  datatype State = State(limiter: Limiter, readers: seq<Reader>)

  datatype Action =
    | Update(rate: int, burst: int)
    | Refill(i: nat, now: int)
    | Fetch(k: nat, chunk: seq<byte>)
    | Serve(k: nat, i: nat, room: nat)

  predicate Enabled(s: State, a: Action) {
    match a
    case Update(rate, burst) => true
    case Refill(i, now) => i < |s.limiter.shards| && s.limiter.shards[i] <= 0
    case Fetch(k, chunk) => k < |s.readers| && s.readers[k].window == []
    case Serve(k, i, room) => k < |s.readers| && s.readers[k].window != [] && i < |s.limiter.shards|
  }

  function Do(s: State, a: Action): State
    requires Enabled(s, a)
  {
    match a
    case Update(rate, burst) => s.(limiter := FlowLimit.Updated(s.limiter, rate, burst))
    case Refill(i, now) => s.(limiter := FlowLimit.Refilled(s.limiter, i, now))
    case Fetch(k, chunk) => s.(readers := s.readers[k := Fetched(s.readers[k], chunk)])
    case Serve(k, i, room) =>
      var grant := FlowLimit.Size(s.limiter, i, |s.readers[k].window|);
      State(FlowLimit.Taken(s.limiter, i, grant), s.readers[k := Served(s.readers[k], grant, room)])
  }

  function Run(start: State, sched: seq<Action>): Option<State> {
    if sched == [] then Some(start)
    else
      var before := Run(start, sched[..|sched| - 1]);
      var a := sched[|sched| - 1];
      if before.Some? && Enabled(before.value, a) then Some(Do(before.value, a)) else None
  }

  // The steps of reader k's call of Read, given the chunk its source delivers if it is asked.
  function ReadSteps(s: State, k: nat, chunk: seq<byte>, i: nat, now: int, room: nat): seq<Action>
    requires k < |s.readers| && i < |s.limiter.shards|
  {
    (if s.readers[k].window == [] then [Fetch(k, chunk)] else [])
    + (if s.limiter.shards[i] <= 0 then [Refill(i, now)] else [])
    + [Serve(k, i, room)]
  }

  lemma RunOneMore(start: State, sched: seq<Action>, a: Action)
    ensures Run(start, sched + [a]) ==
      var s := Run(start, sched); if s.Some? && Enabled(s.value, a) then Some(Do(s.value, a)) else None
  {
    assert (sched + [a])[..|sched + [a]| - 1] == sched;
  }

  lemma RunAtMostOne(start: State, sched: seq<Action>, s: State, a: Action, wanted: bool)
    requires Run(start, sched) == Some(s) && (wanted ==> Enabled(s, a))
    ensures Run(start, sched + if wanted then [a] else []) == Some(if wanted then Do(s, a) else s)
  {
    if wanted {
      RunOneMore(start, sched, a);
    } else {
      assert sched + [] == sched;
    }
  }

  // They take the reader and the action exactly where a successful Read is proved to take them: to
  // what is Charged.
  lemma ReadIsSteps(s: State, k: nat, chunk: seq<byte>, i: nat, now: int, room: nat, r: Reader, m: Limiter, n: int)
    requires s.limiter.Valid() && k < |s.readers| && i < |s.limiter.shards|
    requires s.readers[k].window != [] || chunk != []
    requires var filled := if s.readers[k].window == [] then Fetched(s.readers[k], chunk) else s.readers[k];
      Charged(filled, s.limiter, i, now, room, r, m, n)
    ensures Run(s, ReadSteps(s, k, chunk, i, now, room)) == Some(State(m, s.readers[k := r]))
  {
    var empty, exhausted := s.readers[k].window == [], s.limiter.shards[i] <= 0;
    var fetch := if empty then [Fetch(k, chunk)] else [];
    var fetched := if empty then Do(s, Fetch(k, chunk)) else s;
    RunAtMostOne(s, [], s, Fetch(k, chunk), empty);
    assert [] + fetch == fetch;
    RunAtMostOne(s, fetch, fetched, Refill(i, now), exhausted);
    var ready := if exhausted then Do(fetched, Refill(i, now)) else fetched;
    RunOneMore(s, fetch + if exhausted then [Refill(i, now)] else [], Serve(k, i, room));
    ServeEnds(s, k, chunk, i, now, room, ready);
  }

  lemma ServeEnds(s: State, k: nat, chunk: seq<byte>, i: nat, now: int, room: nat, ready: State)
    requires k < |s.readers| && i < |s.limiter.shards| && (s.readers[k].window != [] || chunk != [])
    requires ready.limiter == FlowLimit.Ready(s.limiter, i, now) && |ready.limiter.shards| == |s.limiter.shards|
    requires ready.readers ==
      if s.readers[k].window == [] then s.readers[k := Fetched(s.readers[k], chunk)] else s.readers
    ensures var filled := if s.readers[k].window == [] then Fetched(s.readers[k], chunk) else s.readers[k];
      var grant := FlowLimit.Size(ready.limiter, i, |filled.window|);
      && Enabled(ready, Serve(k, i, room))
      && Do(ready, Serve(k, i, room)) ==
         State(FlowLimit.Taken(ready.limiter, i, grant), s.readers[k := Served(filled, grant, room)])
  {
  }

  function Delivered(r: Reader): int { |r.delivered| }

  function Granted(r: Reader): int { r.granted }

  function Starved(r: Reader): int { r.starved }

  // The step as the limiter sees it.
  function Limits(s: State, a: Action): seq<FlowLimit.Action>
    requires Enabled(s, a)
  {
    match a
    case Update(rate, burst) => [FlowLimit.Update(rate, burst)]
    case Refill(i, now) => [FlowLimit.Refill(i, now)]
    case Fetch(k, chunk) => []
    case Serve(k, i, room) => [FlowLimit.Grant(i, |s.readers[k].window|, room)]
  }

  function LimitsOf(start: State, sched: seq<Action>): seq<FlowLimit.Action>
    requires Run(start, sched).Some?
  {
    if sched == [] then []
    else
      LimitsOf(start, sched[..|sched| - 1])
      + Limits(Run(start, sched[..|sched| - 1]).value, sched[|sched| - 1])
  }

  // `t` counts for the limiter what the readers have got since `start`.
  ghost predicate Counts(t: FlowLimit.Tally, start: State, s: State) {
    && t.limiter == s.limiter
    && Sum(s.readers, Delivered) == Sum(start.readers, Delivered) + t.delivered
    && Sum(s.readers, Granted) == Sum(start.readers, Granted) + t.granted
    && Sum(s.readers, Starved) == Sum(start.readers, Starved) + t.starved
  }

  lemma ServeCounts(t: FlowLimit.Tally, start: State, s: State, k: nat, i: nat, room: nat)
    requires Counts(t, start, s) && s.limiter.Valid() && Enabled(s, Serve(k, i, room))
    ensures Counts(FlowLimit.Do(t, FlowLimit.Grant(i, |s.readers[k].window|, room)), start, Do(s, Serve(k, i, room)))
  {
    FlowLimit.SizeBounds(s.limiter, i, |s.readers[k].window|);
    var r := Do(s, Serve(k, i, room)).readers[k];
    SumUpdate(s.readers, k, r, Delivered);
    SumUpdate(s.readers, k, r, Granted);
    SumUpdate(s.readers, k, r, Starved);
  }

  lemma FetchCounts(t: FlowLimit.Tally, start: State, s: State, k: nat, chunk: seq<byte>)
    requires Counts(t, start, s) && Enabled(s, Fetch(k, chunk))
    ensures Counts(t, start, Do(s, Fetch(k, chunk)))
  {
    var r := Fetched(s.readers[k], chunk);
    SumUpdate(s.readers, k, r, Delivered);
    SumUpdate(s.readers, k, r, Granted);
    SumUpdate(s.readers, k, r, Starved);
  }

  lemma StepCounts(t: FlowLimit.Tally, start: State, s: State, a: Action)
    requires Counts(t, start, s) && s.limiter.Valid() && Enabled(s, a) && !a.Fetch?
    ensures var b := Limits(s, a)[0];
      && FlowLimit.Enabled(t.limiter, b)
      && FlowLimit.Do(t, b).limiter.Valid() && Counts(FlowLimit.Do(t, b), start, Do(s, a))
  {
    FlowLimit.StepConserves(t, Limits(s, a)[0]);
    if a.Serve? {
      ServeCounts(t, start, s, a.k, a.i, a.room);
    }
  }

  lemma LimiterOneMore(start: Limiter, sched: seq<FlowLimit.Action>, b: FlowLimit.Action)
    requires FlowLimit.Run(start, sched).Some? && FlowLimit.Enabled(FlowLimit.Run(start, sched).value.limiter, b)
    ensures FlowLimit.Run(start, sched + [b]) == Some(FlowLimit.Do(FlowLimit.Run(start, sched).value, b))
  {
    assert (sched + [b])[..|sched + [b]| - 1] == sched;
  }

  // Whatever the readers do is a run of the limiter, whose tally of grants, deliveries and starved
  // reads is the sum over the readers.
  lemma {:induction false} TallyIsSum(start: State, sched: seq<Action>)
    requires start.limiter.Valid() && Run(start, sched).Some?
    ensures var t := FlowLimit.Run(start.limiter, LimitsOf(start, sched));
      t.Some? && t.value.limiter.Valid() && Counts(t.value, start, Run(start, sched).value)
  {
    if sched != [] {
      var earlier := sched[..|sched| - 1];
      var a := sched[|sched| - 1];
      TallyIsSum(start, earlier);
      var s := Run(start, earlier).value;
      var limits := LimitsOf(start, earlier);
      var t := FlowLimit.Run(start.limiter, limits).value;
      if a.Fetch? {
        FetchCounts(t, start, s, a.k, a.chunk);
        assert limits + [] == limits;
      } else {
        var b := Limits(s, a)[0];
        StepCounts(t, start, s, a);
        LimiterOneMore(start.limiter, limits, b);
        assert LimitsOf(start, sched) == limits + [b];
      }
    }
  }

  // What a reader has delivered, followed by what it has buffered, is what it has fetched.
  ghost predicate InOrder(s: State) {
    forall k :: 0 <= k < |s.readers| ==> s.readers[k].delivered + s.readers[k].window == s.readers[k].fetched
  }

  lemma ServedInOrder(r: Reader, grant: int, room: nat)
    requires r.delivered + r.window == r.fetched
    ensures var t := Served(r, grant, room); t.delivered + t.window == t.fetched
  {
    var n := FlowLimit.Min(room, Allowance(grant));
    if n <= |r.window| {
      assert r.window == r.window[..n] + r.window[n..];
    }
  }

  lemma {:induction false} StaysInOrder(start: State, sched: seq<Action>)
    requires InOrder(start) && Run(start, sched).Some?
    ensures InOrder(Run(start, sched).value)
  {
    if sched != [] {
      var earlier := sched[..|sched| - 1];
      StaysInOrder(start, earlier);
      var s := Run(start, earlier).value;
      match sched[|sched| - 1]
      case Update(rate, burst) =>
      case Refill(i, now) =>
      case Fetch(k, chunk) =>
      case Serve(k, i, room) =>
        ServedInOrder(s.readers[k], FlowLimit.Size(s.limiter, i, |s.readers[k].window|), room);
    }
  }

  // No burst above `bound` is set and the clock does not run backwards; that the limiter's steps
  // are a run is TallyIsSum.
  ghost predicate Paced(start: State, sched: seq<Action>, bound: int)
    requires Run(start, sched).Some?
  {
    var limits := LimitsOf(start, sched);
    FlowLimit.Run(start.limiter, limits).Some? && FlowLimit.Paced(start.limiter, limits, bound)
  }

  // All readers together, over any stretch of any run: at most (t - s + u + 2) times the bound,
  // and a byte for each starved read, where s and t are the stored seconds at its ends and u the
  // number of updates in it.
  lemma SharedRateBound(rate: int, burst: int, now: int, bound: int,
                        start: State, sched: seq<Action>, mid: State, more: seq<Action>, end: State)
    requires FlowLimit.OrDefault(burst, FlowLimit.DEFAULT_BURST) <= bound
    requires start.limiter == FlowLimit.Created(rate, burst, now)
    requires Run(start, sched) == Some(mid) && Paced(start, sched, bound)
    requires Run(mid, more) == Some(end) && Paced(mid, more, bound)
    ensures Sum(end.readers, Delivered) - Sum(mid.readers, Delivered)
      <= FlowLimit.Ceiling(mid.limiter, LimitsOf(mid, more), end.limiter, bound)
         + Sum(end.readers, Starved) - Sum(mid.readers, Starved)
  {
    FlowLimit.CreatedBelow(rate, burst, now, bound);
    TallyIsSum(start, sched);
    TallyIsSum(mid, more);
    var limits, further := LimitsOf(start, sched), LimitsOf(mid, more);
    var t, u := FlowLimit.Run(start.limiter, limits).value, FlowLimit.Run(mid.limiter, further).value;
    FlowLimit.RateBound(rate, burst, now, bound, limits, t, further, u);
  }
}
