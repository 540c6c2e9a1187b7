/** server/manager.go, lines 88-123: how many connections each IP has, and the limit on them. */
module IpSlots {
  import opened Wrappers

  type Ip = string

  // AddIpConnCount lets a connection in.
  predicate Admits(counts: map<Ip, int>, ip: Ip, limit: int) {
    ip !in counts || limit == 0 || counts[ip] < limit
  }

  function Added(counts: map<Ip, int>, ip: Ip, limit: int): map<Ip, int> {
    if !Admits(counts, ip, limit) then counts
    else counts[ip := if ip in counts then counts[ip] + 1 else 1]
  }

  function Reduced(counts: map<Ip, int>, ip: Ip): map<Ip, int> {
    if ip !in counts then counts
    else if counts[ip] == 1 then counts - {ip}
    else counts[ip := counts[ip] - 1]
  }

  class Counter {
    var ipConnCountMap: map<Ip, int>

    constructor ()
      ensures ipConnCountMap == map[]
    {
      ipConnCountMap := map[];
    }

    // `limit` is the configuration's OneIpMaxConn at this moment.
    method AddIpConnCount(ip: Ip, limit: int) returns (ok: bool, ipCount: int)
      modifies this
      ensures ok == Admits(old(ipConnCountMap), ip, limit)
      ensures ipConnCountMap == Added(old(ipConnCountMap), ip, limit)
      ensures ip in ipConnCountMap && ipCount == ipConnCountMap[ip]
    {
      ok := false;
      if ip in ipConnCountMap {
        if limit != 0 && ipConnCountMap[ip] >= limit {
          ipCount := ipConnCountMap[ip];
          return;
        }
        ipCount := ipConnCountMap[ip] + 1;
        ok := true;
        ipConnCountMap := ipConnCountMap[ip := ipCount];
      } else {
        ipCount := 1;
        ok := true;
        ipConnCountMap := ipConnCountMap[ip := ipCount];
      }
    }

    method ReduceIpConnCount(ip: Ip)
      modifies this
      ensures ipConnCountMap == Reduced(old(ipConnCountMap), ip)
    {
      if ip in ipConnCountMap {
        ipConnCountMap := ipConnCountMap[ip := ipConnCountMap[ip] - 1];
        if ipConnCountMap[ip] == 0 {
          ipConnCountMap := ipConnCountMap - {ip};
        }
      }
    }
  }

  // Handlers arriving, and those that were admitted leaving.  The limit may change at any time.
  datatype State = State(
    counts: map<Ip, int>,
    live: map<nat, Ip>,     // the admitted handlers that have not left
    arrivals: nat
  )

  datatype Action = Arrive(ip: Ip, limit: int) | Leave(h: nat)

  const Init := State(map[], map[], 0)

  predicate Enabled(s: State, a: Action) { a.Leave? ==> a.h in s.live }

  function Do(s: State, a: Action): State
    requires Enabled(s, a)
  {
    match a
    case Arrive(ip, limit) =>
      State(Added(s.counts, ip, limit),
            if Admits(s.counts, ip, limit) then s.live[s.arrivals := ip] else s.live,
            s.arrivals + 1)
    case Leave(h) => s.(counts := Reduced(s.counts, s.live[h]), live := s.live - {h})
  }

  function Run(sched: seq<Action>): Option<State> {
    if sched == [] then Some(Init)
    else
      var before := Run(sched[..|sched| - 1]);
      var a := sched[|sched| - 1];
      if before.Some? && Enabled(before.value, a) then Some(Do(before.value, a)) else None
  }

  // The live admitted handlers of an IP.
  ghost function Handlers(live: map<nat, Ip>, ip: Ip): set<nat> { set h | h in live && live[h] == ip }

  ghost predicate Inv(s: State) {
    && (forall h :: h in s.live ==> h < s.arrivals && s.live[h] in s.counts)
    && (forall ip :: ip in s.counts ==> 1 <= s.counts[ip] == |Handlers(s.live, ip)|)
  }

  lemma ArriveKeeps(s: State, ip: Ip, limit: int)
    requires Inv(s)
    ensures Inv(Do(s, Arrive(ip, limit)))
  {
    var t := Do(s, Arrive(ip, limit));
    if Admits(s.counts, ip, limit) {
      assert Handlers(t.live, ip) == Handlers(s.live, ip) + {s.arrivals};
      assert ip !in s.counts ==> Handlers(s.live, ip) == {};
      assert forall other :: other != ip ==> Handlers(t.live, other) == Handlers(s.live, other);
    }
  }

  lemma LeaveKeeps(s: State, h: nat)
    requires Inv(s) && h in s.live
    ensures Inv(Do(s, Leave(h)))
  {
    var t := Do(s, Leave(h));
    var ip := s.live[h];
    assert Handlers(t.live, ip) == Handlers(s.live, ip) - {h};
    assert forall other :: other != ip ==> Handlers(t.live, other) == Handlers(s.live, other);
    if s.counts[ip] == 1 {
      forall g | g in t.live
        ensures t.live[g] in t.counts
      {
        assert g in Handlers(t.live, ip) <==> t.live[g] == ip;
      }
    }
  }

  lemma {:induction false} RunKeeps(sched: seq<Action>)
    requires Run(sched).Some?
    ensures Inv(Run(sched).value)
  {
    if sched != [] {
      RunKeeps(sched[..|sched| - 1]);
      var s := Run(sched[..|sched| - 1]).value;
      match sched[|sched| - 1]
      case Arrive(ip, limit) => ArriveKeeps(s, ip, limit);
      case Leave(h) => LeaveKeeps(s, h);
    }
  }

  // In every reachable state an IP has an entry exactly when it has admitted live handlers, and
  // the entry is their number.
  lemma EntryIsNumber(sched: seq<Action>, ip: Ip)
    requires Run(sched).Some?
    ensures var s := Run(sched).value;
      && (ip in s.counts <==> Handlers(s.live, ip) != {})
      && (ip in s.counts ==> s.counts[ip] == |Handlers(s.live, ip)|)
  {
    RunKeeps(sched);
    var s := Run(sched).value;
    if Handlers(s.live, ip) != {} {
      var h :| h in Handlers(s.live, ip);
      assert s.live[h] in s.counts;
    } else {
      assert |Handlers(s.live, ip)| == 0;
    }
  }

  // Every arrival at the IP met a limit, of at most `bound`; zero means no limit.
  ghost predicate LimitedBy(sched: seq<Action>, ip: Ip, bound: int) {
    forall k :: 0 <= k < |sched| && sched[k].Arrive? && sched[k].ip == ip ==>
      sched[k].limit != 0 && sched[k].limit <= bound
  }

  // However the limit moves below the bound, the IP never has more live handlers than the bound.
  lemma {:induction false} NeverAboveLimit(sched: seq<Action>, ip: Ip, bound: int)
    requires Run(sched).Some? && LimitedBy(sched, ip, bound) && 1 <= bound
    ensures |Handlers(Run(sched).value.live, ip)| <= bound
  {
    EntryIsNumber(sched, ip);
    if sched == [] {
      assert Handlers(Init.live, ip) == {};
    } else {
      var earlier := sched[..|sched| - 1];
      NeverAboveLimit(earlier, ip, bound);
      EntryIsNumber(earlier, ip);
      assert Handlers(Run(sched).value.live, ip) == {} ==> |Handlers(Run(sched).value.live, ip)| == 0;
    }
  }

  // On every schedule an arrival is let in exactly when its IP has no live handler, or there is no
  // limit, or the live handlers are below it; then there is one more, and otherwise nothing changes.
  lemma ArrivalIsAnswered(sched: seq<Action>, ip: Ip, limit: int)
    requires Run(sched).Some?
    ensures var s := Run(sched).value; var t := Do(s, Arrive(ip, limit));
      var n := |Handlers(s.live, ip)|;
      && Admits(s.counts, ip, limit) == (n == 0 || limit == 0 || n < limit)
      && |Handlers(t.live, ip)| == (if n == 0 || limit == 0 || n < limit then n + 1 else n)
      && (forall other :: other != ip ==> Handlers(t.live, other) == Handlers(s.live, other))
  {
    RunKeeps(sched);
    EntryIsNumber(sched, ip);
    var s := Run(sched).value;
    var t := Do(s, Arrive(ip, limit));
    if Admits(s.counts, ip, limit) {
      assert Handlers(t.live, ip) == Handlers(s.live, ip) + {s.arrivals};
      assert forall other :: other != ip ==> Handlers(t.live, other) == Handlers(s.live, other);
    }
  }

  // And a handler that leaves takes its own slot with it, and no other.
  lemma DepartureFreesSlot(sched: seq<Action>, h: nat)
    requires Run(sched).Some? && h in Run(sched).value.live
    ensures var s := Run(sched).value; var t := Do(s, Leave(h));
      forall ip :: Handlers(t.live, ip) == Handlers(s.live, ip) - {h}
  {
  }
}
