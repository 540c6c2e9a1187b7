/** server/flow_limit.go, lines 11-145: eight shard budgets fed from one global budget that is
    renewed when the clock's second changes. */
module FlowLimit {
  import opened Sums
  import opened Wrappers

  const LIMIT_SHARE_SIZE := 8
  const DEFAULT_RATE := 1024 * 30
  const DEFAULT_BURST := 1024 * 100000

  datatype Limiter = Limiter(
    readRate: int,
    readBurst: int,
    resid: int,         // residReadueBurst
    second: int,        // nowTimeUnix
    maxFlow: int,       // slimitMaxFlow
    shards: seq<int>    // rflow of each shard
  ) {
    predicate Valid() {
      && 0 < readRate && 0 < readBurst && 0 <= resid && maxFlow == readBurst / LIMIT_SHARE_SIZE
      && |shards| == LIMIT_SHARE_SIZE && forall i :: 0 <= i < |shards| ==> 0 <= shards[i]
    }

    // All that can be granted without injecting more.
    function Total(): int { Sum(shards, Budget) + resid }
  }

  function Budget(x: int): int { x }

  function OrDefault(x: int, default: int): int { if x <= 0 then default else x }

  function Min(x: int, y: int): int { if x < y then x else y }

  function Created(rate: int, burst: int, now: int): Limiter {
    var b := OrDefault(burst, DEFAULT_BURST);
    var m := b / LIMIT_SHARE_SIZE;
    Limiter(OrDefault(rate, DEFAULT_RATE), b, b, now, m, [m, m, m, m, m, m, m, m])
  }

  function Updated(l: Limiter, rate: int, burst: int): Limiter {
    var b := OrDefault(burst, DEFAULT_BURST);
    l.(readRate := OrDefault(rate, DEFAULT_RATE), readBurst := b, resid := b, maxFlow := b / LIMIT_SHARE_SIZE)
  }

  // A new second renews the global budget.
  function Renewed(l: Limiter, now: int): Limiter {
    if l.second != now then l.(second := now, resid := l.readBurst) else l
  }

  // The section of GetReadSize under the global lock, for an exhausted shard.
  function Refilled(l: Limiter, i: nat, now: int): Limiter
    requires i < |l.shards|
  {
    var m := Renewed(l, now);
    if m.resid >= m.maxFlow && m.resid != 0 then m.(resid := m.resid - m.maxFlow, shards := m.shards[i := m.maxFlow])
    else m.(resid := 0, shards := m.shards[i := m.resid])
  }

  // The rest of GetReadSize.
  function Size(l: Limiter, i: nat, dataLen: int): int
    requires i < |l.shards|
  {
    Min(dataLen, Min(l.readRate, l.shards[i]))
  }

  function Taken(l: Limiter, i: nat, n: int): Limiter
    requires i < |l.shards|
  {
    l.(shards := l.shards[i := l.shards[i] - n])
  }

  // What GetReadSize finds when it decides on the size.
  function Ready(l: Limiter, i: nat, now: int): Limiter
    requires i < |l.shards|
  {
    if l.shards[i] <= 0 then Refilled(l, i, now) else l
  }

  class LimitedReaderAction {
    var readRate: int
    var readBurst: int
    var nowTimeUnix: int
    var residReadueBurst: int
    var cc: nat                 // uint64
    var slimitArray: seq<int>
    var slimitMaxFlow: int

    ghost function View(): Limiter
      reads this
    {
      Limiter(readRate, readBurst, residReadueBurst, nowTimeUnix, slimitMaxFlow, slimitArray)
    }

    constructor (rate: int, burst: int, now: int)
      ensures View() == Created(rate, burst, now) && View().Valid()
    {
      var r, b := rate, burst;
      if r <= 0 {
        r := DEFAULT_RATE;
      }
      if b <= 0 {
        b := DEFAULT_BURST;
      }
      readRate, readBurst, residReadueBurst, nowTimeUnix := r, b, b, now;
      slimitMaxFlow := b / LIMIT_SHARE_SIZE;
      cc := 0;
      var flow := b / LIMIT_SHARE_SIZE;
      var shards: seq<int> := [];
      for i := 0 to LIMIT_SHARE_SIZE
        invariant shards == seq(i, _ => flow)
      {
        shards := shards + [flow];
      }
      slimitArray := shards;
    }

    method UpdateParameter(rate: int, burst: int)
      requires View().Valid()
      modifies this
      ensures View() == Updated(old(View()), rate, burst) && View().Valid()
    {
      var r, b := rate, burst;
      if r <= 0 {
        r := DEFAULT_RATE;
      }
      if b <= 0 {
        b := DEFAULT_BURST;
      }
      readRate := r;
      readBurst := b;
      residReadueBurst := b;
      slimitMaxFlow := b / LIMIT_SHARE_SIZE;
    }

    // Exactly the least of the request, the rate and the budget of the shard whose turn it is.
    method GetReadSize(dataLen: int, now: int) returns (n: int)
      requires View().Valid() && 0 <= dataLen
      modifies this
      ensures View().Valid() && 0 <= n <= dataLen
      ensures cc == (old(cc) + 1) % 0x1_0000_0000_0000_0000
      ensures var i := cc % LIMIT_SHARE_SIZE; var l := Ready(old(View()), i, now);
        n == Size(l, i, dataLen) && View() == Taken(l, i, n)
      ensures var i := cc % LIMIT_SHARE_SIZE;
        old(slimitArray)[i] <= 0 && old(nowTimeUnix) != now && 0 < dataLen ==>
          && nowTimeUnix == now && residReadueBurst + slimitArray[i] + n == readBurst
          && (0 < n <==> LIMIT_SHARE_SIZE <= readBurst)
    {
      ghost var before := View();
      cc := (cc + 1) % 0x1_0000_0000_0000_0000;
      var idx := cc % LIMIT_SHARE_SIZE;
      if slimitArray[idx] <= 0 {
        var dry := RefillShard(idx, now);
        if dry {
          assert slimitArray[idx := 0] == slimitArray;
          if 0 < dataLen && before.second != now {
            NewSecondGrants(before, idx, now, dataLen);
          }
          return 0;
        }
      }
      n := TakeFromShard(idx, dataLen);
      if 0 < dataLen && before.shards[idx] <= 0 && before.second != now {
        NewSecondGrants(before, idx, now, dataLen);
      }
    }

    // The section under the global lock; dry when there is nothing left to hand out.
    method RefillShard(idx: nat, now: int) returns (dry: bool)
      requires View().Valid() && idx < |slimitArray| && slimitArray[idx] <= 0
      modifies this`nowTimeUnix, this`residReadueBurst, this`slimitArray
      ensures View().Valid() && View() == Refilled(old(View()), idx, now)
      ensures dry ==> slimitArray[idx] == 0
    {
      if nowTimeUnix != now {
        nowTimeUnix := now;
        residReadueBurst := readBurst;
      }
      if residReadueBurst == 0 {
        assert slimitArray[idx := 0] == slimitArray;
        return true;
      }
      if residReadueBurst >= slimitMaxFlow {
        residReadueBurst := residReadueBurst - slimitMaxFlow;
        slimitArray := slimitArray[idx := slimitMaxFlow];
      } else {
        slimitArray := slimitArray[idx := residReadueBurst];
        residReadueBurst := 0;
      }
      dry := false;
    }

    // The size, and its deduction from the shard's budget.
    method TakeFromShard(idx: nat, dataLen: int) returns (n: int)
      requires View().Valid() && idx < |slimitArray| && 0 <= dataLen
      modifies this`slimitArray
      ensures View().Valid() && 0 <= n <= dataLen
      ensures n == Size(old(View()), idx, dataLen) && View() == Taken(old(View()), idx, n)
    {
      var available := slimitArray[idx];
      if readRate >= available {
        if dataLen >= available {
          slimitArray := slimitArray[idx := 0];
          return available;
        }
        slimitArray := slimitArray[idx := available - dataLen];
        return dataLen;
      }
      if readRate >= dataLen {
        slimitArray := slimitArray[idx := available - dataLen];
        return dataLen;
      }
      slimitArray := slimitArray[idx := available - readRate];
      return readRate;
    }
  }

  // Runs.  The two parts of GetReadSize are steps of their own, so that updates and the readers
  // of other shards can come between them.

  datatype Action =
    | Update(rate: int, burst: int)
    | Refill(i: nat, now: int)
    | Grant(i: nat, dataLen: nat, room: nat)
      // The reader holds dataLen > 0 bytes and delivers what the grant and its caller's room
      // allow, or one byte when nothing is granted.

  datatype Tally = Tally(
    limiter: Limiter,
    granted: int,
    injected: int,     // what resets and updates added to the global budget
    delivered: int,    // bytes delivered by all readers
    starved: int       // reads that went ahead without a grant
  )

  predicate Enabled(l: Limiter, a: Action) {
    match a
    case Update(rate, burst) => true
    case Refill(i, now) => i < |l.shards| && l.shards[i] <= 0
    case Grant(i, dataLen, room) => i < |l.shards| && 0 < dataLen
  }

  function Do(t: Tally, a: Action): Tally
    requires Enabled(t.limiter, a)
  {
    var l := t.limiter;
    match a
    case Update(rate, burst) =>
      var m := Updated(l, rate, burst);
      t.(limiter := m, injected := t.injected + m.resid - l.resid)
    case Refill(i, now) =>
      t.(limiter := Refilled(l, i, now), injected := t.injected + Renewed(l, now).resid - l.resid)
    case Grant(i, dataLen, room) =>
      var n := Size(l, i, dataLen);
      t.(limiter := Taken(l, i, n),
         granted := t.granted + n,
         delivered := t.delivered + Min(room, if n <= 0 then 1 else n),
         starved := t.starved + if n <= 0 then 1 else 0)
  }

  function Run(start: Limiter, sched: seq<Action>): Option<Tally> {
    if sched == [] then Some(Tally(start, 0, 0, 0, 0))
    else
      var before := Run(start, sched[..|sched| - 1]);
      var a := sched[|sched| - 1];
      if before.Some? && Enabled(before.value.limiter, a) then Some(Do(before.value, a)) else None
  }

  lemma SizeBounds(l: Limiter, i: nat, dataLen: nat)
    requires l.Valid() && i < |l.shards|
    ensures 0 <= Size(l, i, dataLen) <= dataLen
    ensures Size(l, i, dataLen) <= l.readRate && Size(l, i, dataLen) <= l.shards[i]
    ensures Size(l, i, dataLen) in {dataLen, l.readRate, l.shards[i]}
    ensures Taken(l, i, Size(l, i, dataLen)).Valid()
  {
  }

  // What a call finds: an exhausted shard has been given its share of the supply, or all of a smaller
  // one, the supply being a whole burst in a new second; and nothing else has changed.
  lemma ReadyGives(l: Limiter, i: nat, now: int)
    requires l.Valid() && i < LIMIT_SHARE_SIZE
    ensures var r := Ready(l, i, now); var supply := if l.second != now then l.readBurst else l.resid;
      && r.Valid() && r.readRate == l.readRate && r.readBurst == l.readBurst && r.maxFlow == l.maxFlow
      && (0 < l.shards[i] ==> r == l)
      && (l.shards[i] <= 0 ==>
            r.second == now && r.resid + r.shards[i] == supply && r.shards[i] == Min(l.readBurst / 8, supply))
      && forall j :: 0 <= j < LIMIT_SHARE_SIZE && j != i ==> r.shards[j] == l.shards[j]
  {
  }

  // In a new second the first call at an exhausted shard is granted something, unless the burst is
  // below eight.
  lemma NewSecondGrants(l: Limiter, i: nat, now: int, dataLen: nat)
    requires l.Valid() && i < LIMIT_SHARE_SIZE && l.shards[i] <= 0 && l.second != now && 0 < dataLen
    ensures var r := Ready(l, i, now);
      && r.second == now && r.resid + r.shards[i] == l.readBurst
      && (0 < Size(r, i, dataLen) <==> LIMIT_SHARE_SIZE <= l.readBurst)
  {
    ReadyGives(l, i, now);
  }

  // A new action is set up as it is told, or by default, with a whole burst beside the shards.
  lemma CreatedSupplies(rate: int, burst: int, now: int)
    ensures var l := Created(rate, burst, now);
      && (if 0 < rate then l.readRate == rate else l.readRate == 30 * 1024)
      && (if 0 < burst then l.readBurst == burst else l.readBurst == 1024 * 100000)
      && l.second == now && l.resid == l.readBurst && |l.shards| == 8
      && forall i :: 0 <= i < |l.shards| ==> l.shards[i] == l.readBurst / 8
  {
  }

  // An update replaces the parameters and refills the global rest, and nothing else.
  lemma UpdateSupplies(l: Limiter, rate: int, burst: int)
    ensures var m := Updated(l, rate, burst);
      && SetBy(m, rate, burst) && m.resid == m.readBurst && m.shards == l.shards && m.second == l.second
  {
  }

  predicate SetBy(l: Limiter, rate: int, burst: int) {
    && (if 0 < rate then l.readRate == rate else l.readRate == 30 * 1024)
    && (if 0 < burst then l.readBurst == burst else l.readBurst == 1024 * 100000)
    && l.maxFlow == l.readBurst / 8
  }

  // From an update until the next one, grants follow its parameters: whatever happens in between, no
  // grant exceeds the rate that it set.
  lemma {:induction false} UpdateHolds(start: Limiter, sched: seq<Action>, rate: int, burst: int, more: seq<Action>)
    requires start.Valid() && Run(start, sched + [Update(rate, burst)] + more).Some? && Updates(more) == 0
    ensures var l := Run(start, sched + [Update(rate, burst)] + more).value.limiter;
      && l.Valid() && SetBy(l, rate, burst)
      && forall i, dataLen :: 0 <= i < LIMIT_SHARE_SIZE && 0 <= dataLen ==>
           Size(l, i, dataLen) <= if 0 < rate then rate else 30 * 1024
  {
    var all := sched + [Update(rate, burst)] + more;
    Conservation(start, all);
    if more == [] {
      assert all == sched + [Update(rate, burst)] && all[..|all| - 1] == sched;
      UpdateSupplies(Run(start, sched).value.limiter, rate, burst);
    } else {
      assert all[..|all| - 1] == sched + [Update(rate, burst)] + more[..|more| - 1];
      UpdateHolds(start, sched, rate, burst, more[..|more| - 1]);
    }
  }

  // Any eight calls in a row have each of the eight shards once, across the counter's wrap-around.
  lemma TurnsDiffer(cc: nat, j: nat, k: nat)
    requires j < k < LIMIT_SHARE_SIZE
    ensures (cc + j) % 0x1_0000_0000_0000_0000 % LIMIT_SHARE_SIZE
      != (cc + k) % 0x1_0000_0000_0000_0000 % LIMIT_SHARE_SIZE
  {
    WrapKeepsTurn(cc + j);
    WrapKeepsTurn(cc + k);
    NextTurns(cc + j, k - j);
  }

  lemma NextTurns(c: nat, d: nat)
    requires 0 < d < LIMIT_SHARE_SIZE
    ensures (c + d) % LIMIT_SHARE_SIZE != c % LIMIT_SHARE_SIZE
  {
  }

  lemma WrapKeepsTurn(c: nat)
    ensures c % 0x1_0000_0000_0000_0000 % LIMIT_SHARE_SIZE == c % LIMIT_SHARE_SIZE
  {
    var q, r := c / 0x1_0000_0000_0000_0000, c % 0x1_0000_0000_0000_0000;
    assert c == 8 * (0x2000_0000_0000_0000 * q) + r;
  }

  // A call of GetReadSize is one or two steps of a run, and a reader that gets its answer n
  // delivers min(room, n), or min(room, 1) when n is zero.
  lemma CallIsSteps(t: Tally, i: nat, dataLen: nat, now: int, room: nat)
    requires t.limiter.Valid() && i < LIMIT_SHARE_SIZE && 0 < dataLen
    ensures var l := Ready(t.limiter, i, now); var n := Size(l, i, dataLen);
      var mid := if t.limiter.shards[i] <= 0 then Do(t, Refill(i, now)) else t;
      var u := Do(mid, Grant(i, dataLen, room));
      && u.limiter == Taken(l, i, n) && u.granted == t.granted + n
      && u.delivered == t.delivered + (if room == 0 then 0 else if n == 0 then 1 else Min(room, n))
  {
    var mid := if t.limiter.shards[i] <= 0 then Do(t, Refill(i, now)) else t;
    if t.limiter.shards[i] <= 0 {
      StepConserves(t, Refill(i, now));
    }
    assert mid.limiter == Ready(t.limiter, i, now);
    SizeBounds(mid.limiter, i, dataLen);
  }

  // One step: nothing comes from nowhere and nothing gets lost.
  lemma StepConserves(t: Tally, a: Action)
    requires t.limiter.Valid() && Enabled(t.limiter, a)
    ensures var u := Do(t, a);
      && u.limiter.Valid() && t.granted <= u.granted
      && u.granted - t.granted + u.limiter.Total() == t.limiter.Total() + u.injected - t.injected
      && u.delivered - t.delivered <= u.granted - t.granted + u.starved - t.starved
  {
    var l := t.limiter;
    match a
    case Update(rate, burst) =>
    case Refill(i, now) =>
      var m := Renewed(l, now);
      SumUpdate(m.shards, i, Refilled(l, i, now).shards[i], Budget);
    case Grant(i, dataLen, room) =>
      SizeBounds(l, i, dataLen);
      SumUpdate(l.shards, i, l.shards[i] - Size(l, i, dataLen), Budget);
  }

  // Conservation over every run of refills, grants and updates; and readers deliver no more than
  // was granted, but for one byte for each read that went ahead without a grant.
  lemma {:induction false} Conservation(start: Limiter, sched: seq<Action>)
    requires start.Valid() && Run(start, sched).Some?
    ensures var t := Run(start, sched).value;
      && t.limiter.Valid() && 0 <= t.granted
      && t.granted + t.limiter.Total() == start.Total() + t.injected
      && t.delivered <= t.granted + t.starved
  {
    if sched != [] {
      Conservation(start, sched[..|sched| - 1]);
      StepConserves(Run(start, sched[..|sched| - 1]).value, sched[|sched| - 1]);
    }
  }

  // No burst above `bound` is ever set, and the clock never runs behind the stored second.
  predicate Paced(start: Limiter, sched: seq<Action>, bound: int)
    requires Run(start, sched).Some?
  {
    sched != [] ==>
      var a := sched[|sched| - 1];
      && Paced(start, sched[..|sched| - 1], bound)
      && (a.Update? ==> OrDefault(a.burst, DEFAULT_BURST) <= bound)
      && (a.Refill? ==> Run(start, sched[..|sched| - 1]).value.limiter.second <= a.now)
  }

  function Updates(sched: seq<Action>): nat {
    if sched == [] then 0
    else Updates(sched[..|sched| - 1]) + if sched[|sched| - 1].Update? then 1 else 0
  }

  // No shard holds more than an eighth of the bound, and the rest is no more than the bound.
  ghost predicate Below(l: Limiter, bound: int) {
    && l.Valid() && l.readBurst <= bound && l.resid <= bound
    && forall i :: 0 <= i < |l.shards| ==> l.shards[i] <= bound / LIMIT_SHARE_SIZE
  }

  lemma BelowTotal(l: Limiter, bound: int)
    requires Below(l, bound)
    ensures l.Total() <= 2 * bound
  {
    var share := (x: int) => bound / LIMIT_SHARE_SIZE;
    SumMonotone(l.shards, Budget, share);
    SumShare(l.shards, share, bound / LIMIT_SHARE_SIZE);
  }

  lemma {:induction false} SumShare(s: seq<int>, w: int -> int, m: int)
    requires forall x :: w(x) == m
    ensures Sum(s, w) == |s| * m
  {
    if s != [] {
      SumShare(s[..|s| - 1], w, m);
      assert |s| * m == (|s| - 1) * m + m;
    }
  }

  lemma CreatedBelow(rate: int, burst: int, now: int, bound: int)
    requires OrDefault(burst, DEFAULT_BURST) <= bound
    ensures Below(Created(rate, burst, now), bound)
  {
  }

  lemma StepStaysBelow(t: Tally, a: Action, bound: int)
    requires Below(t.limiter, bound) && Enabled(t.limiter, a)
    requires a.Update? ==> OrDefault(a.burst, DEFAULT_BURST) <= bound
    ensures Below(Do(t, a).limiter, bound)
  {
    if a.Grant? {
      SizeBounds(t.limiter, a.i, a.dataLen);
    }
  }

  lemma {:induction false} StaysBelow(start: Limiter, sched: seq<Action>, bound: int)
    requires Below(start, bound) && Run(start, sched).Some? && Paced(start, sched, bound)
    ensures Below(Run(start, sched).value.limiter, bound)
  {
    if sched != [] {
      var earlier := sched[..|sched| - 1];
      StaysBelow(start, earlier, bound);
      StepStaysBelow(Run(start, earlier).value, sched[|sched| - 1], bound);
    }
  }

  lemma More(m: int, n: int, bound: int)
    requires m < n && 0 <= bound
    ensures m * bound + bound <= n * bound
  {
    assert n * bound == (m + 1) * bound + (n - m - 1) * bound;
  }

  // Injections so far, bounded by the seconds and the updates that have passed.
  ghost predicate Metered(t: Tally, since: int, updates: nat, bound: int) {
    since <= t.limiter.second && t.injected <= (t.limiter.second - since + updates) * bound
  }

  lemma StepStaysMetered(t: Tally, a: Action, since: int, updates: nat, bound: int)
    requires Below(t.limiter, bound) && Enabled(t.limiter, a) && Metered(t, since, updates, bound)
    requires a.Update? ==> OrDefault(a.burst, DEFAULT_BURST) <= bound
    requires a.Refill? ==> t.limiter.second <= a.now
    ensures Metered(Do(t, a), since, updates + if a.Update? then 1 else 0, bound)
  {
    var passed := t.limiter.second - since + updates;
    if a.Update? {
      More(passed, passed + 1, bound);
    } else if a.Refill? && t.limiter.second < a.now {
      More(passed, a.now - since + updates, bound);
    }
  }

  // Each reset takes a new second, each update is counted, and neither injects more than `bound`.
  lemma {:induction false} InjectionBound(start: Limiter, sched: seq<Action>, bound: int)
    requires Below(start, bound) && Run(start, sched).Some? && Paced(start, sched, bound)
    ensures Metered(Run(start, sched).value, start.second, Updates(sched), bound)
  {
    if sched != [] {
      var earlier := sched[..|sched| - 1];
      InjectionBound(start, earlier, bound);
      StaysBelow(start, earlier, bound);
      StepStaysMetered(Run(start, earlier).value, sched[|sched| - 1], start.second, Updates(earlier), bound);
    }
  }

  // With a clock that does not run backwards and bursts up to `bound`, any stretch of a run that
  // starts at stored second s, ends at second t and sees u updates grants at most (t - s + u + 2)
  // times the bound, and the readers deliver at most that and a byte for each starved read.
  // With fixed parameters u is zero and the bound is the burst.
  lemma RateBound(rate: int, burst: int, now: int, bound: int,
                  sched: seq<Action>, mid: Tally, more: seq<Action>, end: Tally)
    requires OrDefault(burst, DEFAULT_BURST) <= bound
    requires Run(Created(rate, burst, now), sched) == Some(mid) && Paced(Created(rate, burst, now), sched, bound)
    requires Run(mid.limiter, more) == Some(end) && Paced(mid.limiter, more, bound)
    ensures end.granted <= Ceiling(mid.limiter, more, end.limiter, bound)
    ensures end.delivered <= Ceiling(mid.limiter, more, end.limiter, bound) + end.starved
  {
    var start := Created(rate, burst, now);
    CreatedBelow(rate, burst, now, bound);
    StaysBelow(start, sched, bound);
    BelowTotal(mid.limiter, bound);
    Conservation(mid.limiter, more);
    InjectionBound(mid.limiter, more, bound);
    SumNonNegative(end.limiter.shards, Budget);
    var passed := end.limiter.second - mid.limiter.second + Updates(more);
    assert (passed + 2) * bound == passed * bound + 2 * bound;
  }

  // What the readers may be granted from `mid` to `end`.
  function Ceiling(mid: Limiter, more: seq<Action>, end: Limiter, bound: int): int {
    (end.second - mid.second + Updates(more) + 2) * bound
  }

  // As long as all bursts are below the number of shards every share is zero: nothing is ever
  // granted.
  lemma {:induction false} TinyBurstGrantsNothing(rate: int, burst: int, now: int, sched: seq<Action>)
    requires 0 < burst < LIMIT_SHARE_SIZE
    requires var start := Created(rate, burst, now);
      Run(start, sched).Some? && Paced(start, sched, LIMIT_SHARE_SIZE - 1)
    ensures Run(Created(rate, burst, now), sched).value.granted == 0
  {
    var start := Created(rate, burst, now);
    CreatedBelow(rate, burst, now, LIMIT_SHARE_SIZE - 1);
    if sched != [] {
      var earlier := sched[..|sched| - 1];
      TinyBurstGrantsNothing(rate, burst, now, earlier);
      StaysBelow(start, earlier, LIMIT_SHARE_SIZE - 1);
    }
  }

  // From eight on, the first read is granted something.
  lemma FirstGrant(rate: int, burst: int, now: int, i: nat, dataLen: nat)
    requires i < LIMIT_SHARE_SIZE && 0 < dataLen
    ensures 0 < Size(Created(rate, burst, now), i, dataLen) <==> burst <= 0 || LIMIT_SHARE_SIZE <= burst
  {
  }
}
