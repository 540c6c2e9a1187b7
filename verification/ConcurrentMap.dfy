/** What four shards stand for, for any sharding function. */
module Shards {
  const SHARD_COUNT := 4

  // Every key lives in the shard that the sharding function gives it.
  ghost predicate Cut<K(!new), V>(sharding: K -> nat, s: seq<map<K, V>>) {
    && |s| == SHARD_COUNT
    && forall i, k :: 0 <= i < SHARD_COUNT && k in s[i] ==> i == sharding(k) % SHARD_COUNT
  }

  // The one map that the shards stand for.
  function Merged<K, V>(s: seq<map<K, V>>): map<K, V>
    requires |s| == SHARD_COUNT
  {
    s[0] + s[1] + s[2] + s[3]
  }

  lemma OwnShard<K(!new), V>(sharding: K -> nat, s: seq<map<K, V>>, k: K)
    requires Cut(sharding, s)
    ensures var i := sharding(k) % SHARD_COUNT;
      && (k in Merged(s) <==> k in s[i])
      && (k in Merged(s) ==> Merged(s)[k] == s[i][k])
  {
    forall j | 0 <= j < SHARD_COUNT && j != sharding(k) % SHARD_COUNT
      ensures k !in s[j]
    {
    }
  }

  lemma SetInShard<K(!new), V>(sharding: K -> nat, s: seq<map<K, V>>, k: K, v: V)
    requires Cut(sharding, s)
    ensures var i := sharding(k) % SHARD_COUNT;
      && Cut(sharding, s[i := s[i][k := v]])
      && Merged(s[i := s[i][k := v]]) == Merged(s)[k := v]
  {
    var i := sharding(k) % SHARD_COUNT;
    var t := s[i := s[i][k := v]];
    forall l
      ensures l in Merged(t) <==> l in Merged(s)[k := v]
      ensures l in Merged(t) ==> Merged(t)[l] == Merged(s)[k := v][l]
    {
      OwnShard(sharding, s, l);
      OwnShard(sharding, t, l);
    }
  }

  lemma RemoveFromShard<K(!new), V>(sharding: K -> nat, s: seq<map<K, V>>, k: K)
    requires Cut(sharding, s)
    ensures var i := sharding(k) % SHARD_COUNT;
      && Cut(sharding, s[i := s[i] - {k}])
      && Merged(s[i := s[i] - {k}]) == Merged(s) - {k}
  {
    var i := sharding(k) % SHARD_COUNT;
    var t := s[i := s[i] - {k}];
    forall l
      ensures l in Merged(t) <==> l in Merged(s) - {k}
      ensures l in Merged(t) ==> Merged(t)[l] == (Merged(s) - {k})[l]
    {
      OwnShard(sharding, s, l);
      OwnShard(sharding, t, l);
    }
  }

  lemma DisjointSize<K, V>(m: map<K, V>, n: map<K, V>)
    requires forall k :: k in m ==> k !in n
    ensures |m + n| == |m| + |n|
  {
    assert (m + n).Keys == m.Keys + n.Keys && m.Keys !! n.Keys;
    assert |m.Keys + n.Keys| == |m.Keys| + |n.Keys|;
  }

  // The shards' sizes add up to the size of the map.
  lemma SizesAddUp<K(!new), V>(sharding: K -> nat, s: seq<map<K, V>>)
    requires Cut(sharding, s)
    ensures |Merged(s)| == |s[0]| + |s[1]| + |s[2]| + |s[3]|
  {
    assert forall k :: k in s[0] ==> sharding(k) % SHARD_COUNT == 0;
    assert forall k :: k in s[1] ==> sharding(k) % SHARD_COUNT == 1;
    assert forall k :: k in s[2] ==> sharding(k) % SHARD_COUNT == 2;
    assert forall k :: k in s[3] ==> sharding(k) % SHARD_COUNT == 3;
    DisjointSize(s[0], s[1]);
    DisjointSize(s[0] + s[1], s[2]);
    DisjointSize(s[0] + s[1] + s[2], s[3]);
  }
}

/** utils/Map/concurrentMap/map.go: a map cut into four shards.  Each operation, a section of one
    shard's lock or several of them in a row, is proved to be that of the one map. */
module ConcurrentMap {
  import opened Wrappers
  import opened Shards

  class ConcurrentMap<K(==,!new), V> {
    const sharding: K -> nat
    const shards: array<map<K, V>>

    ghost predicate Valid()
      reads shards
    {
      Cut(sharding, shards[..])
    }

    ghost function Contents(): map<K, V>
      requires Valid()
      reads shards
    {
      Merged(shards[..])
    }

    constructor (sharding: K -> nat)
      ensures Valid() && fresh(shards) && this.sharding == sharding && Contents() == map[]
    {
      this.sharding := sharding;
      shards := new map<K, V>[SHARD_COUNT](_ => map[]);
    }

    function GetShard(k: K): nat { sharding(k) % SHARD_COUNT }

    method Set(k: K, v: V)
      requires Valid()
      modifies shards
      ensures Valid() && Contents() == old(Contents())[k := v]
    {
      ghost var before := shards[..];
      var i := GetShard(k);
      shards[i] := shards[i][k := v];
      SetInShard(sharding, before, k, v);
      assert shards[..] == before[i := before[i][k := v]];
    }

    // The callback gets the value in the map, if there is one, and the new one.
    method Upsert(k: K, v: V, cb: (Option<V>, V) -> V) returns (res: V)
      requires Valid()
      modifies shards
      ensures Valid() && Contents() == old(Contents())[k := res]
      ensures res == cb(if k in old(Contents()) then Some(old(Contents())[k]) else None, v)
    {
      ghost var before := shards[..];
      var i := GetShard(k);
      OwnShard(sharding, before, k);
      res := cb(if k in shards[i] then Some(shards[i][k]) else None, v);
      shards[i] := shards[i][k := res];
      SetInShard(sharding, before, k, res);
      assert shards[..] == before[i := before[i][k := res]];
    }

    method SetIfAbsent(k: K, v: V) returns (stored: bool)
      requires Valid()
      modifies shards
      ensures Valid() && stored == (k !in old(Contents()))
      ensures Contents() == if stored then old(Contents())[k := v] else old(Contents())
    {
      ghost var before := shards[..];
      var i := GetShard(k);
      OwnShard(sharding, before, k);
      stored := k !in shards[i];
      if stored {
        shards[i] := shards[i][k := v];
        SetInShard(sharding, before, k, v);
        assert shards[..] == before[i := before[i][k := v]];
      }
    }

    method Get(k: K) returns (v: Option<V>)
      requires Valid()
      ensures v == if k in Contents() then Some(Contents()[k]) else None
    {
      var i := GetShard(k);
      OwnShard(sharding, shards[..], k);
      v := if k in shards[i] then Some(shards[i][k]) else None;
    }

    method Count() returns (count: nat)
      requires Valid()
      ensures count == |Contents()|
    {
      count := 0;
      SizesAddUp(sharding, shards[..]);
      for i := 0 to SHARD_COUNT
        invariant count == (if 0 < i then |shards[0]| else 0) + (if 1 < i then |shards[1]| else 0)
          + (if 2 < i then |shards[2]| else 0) + (if 3 < i then |shards[3]| else 0)
      {
        count := count + |shards[i]|;
      }
    }

    method Remove(k: K)
      requires Valid()
      modifies shards
      ensures Valid() && Contents() == old(Contents()) - {k}
    {
      ghost var before := shards[..];
      var i := GetShard(k);
      shards[i] := shards[i] - {k};
      RemoveFromShard(sharding, before, k);
      assert shards[..] == before[i := before[i] - {k}];
    }

    // The callback's answer is returned even when there was nothing to remove.
    method RemoveCb(k: K, cb: (K, Option<V>) -> bool) returns (remove: bool)
      requires Valid()
      modifies shards
      ensures Valid()
      ensures remove == cb(k, if k in old(Contents()) then Some(old(Contents())[k]) else None)
      ensures Contents() == if remove then old(Contents()) - {k} else old(Contents())
    {
      ghost var before := shards[..];
      var i := GetShard(k);
      OwnShard(sharding, before, k);
      remove := cb(k, if k in shards[i] then Some(shards[i][k]) else None);
      if remove && k in shards[i] {
        shards[i] := shards[i] - {k};
        RemoveFromShard(sharding, before, k);
        assert shards[..] == before[i := before[i] - {k}];
      } else {
        assert k !in Contents() ==> Contents() - {k} == Contents();
      }
    }

    method Pop(k: K) returns (v: Option<V>)
      requires Valid()
      modifies shards
      ensures Valid() && Contents() == old(Contents()) - {k}
      ensures v == if k in old(Contents()) then Some(old(Contents())[k]) else None
    {
      ghost var before := shards[..];
      var i := GetShard(k);
      OwnShard(sharding, before, k);
      v := if k in shards[i] then Some(shards[i][k]) else None;
      shards[i] := shards[i] - {k};
      RemoveFromShard(sharding, before, k);
      assert shards[..] == before[i := before[i] - {k}];
    }
  }
}

/** snapshot and fanIn, behind Iter, IterBuffered and Items, while other goroutines write.

    A snapshot goroutine fills its channel, of exactly the right capacity, under the shard's read
    lock, so its section is one step; the order in which a shard is listed, and everything else,
    is chosen by the schedule. */
module Iteration {
  import opened Wrappers
  import opened Shards

  type Key(==,!new)
  type Value(==,!new)

  datatype Tuple = Tuple(key: Key, val: Value)

  datatype State = State(
    shards: seq<map<Key, Value>>,
    taken: seq<Option<map<Key, Value>>>,  // what each snapshot goroutine saw
    chans: seq<seq<Tuple>>,               // what its channel still holds
    out: seq<Tuple>,                      // what the iterator has yielded
    steady: set<Key>                      // the keys that have been in the map all the time
  )

  datatype Action =
    | Set(k: Key, v: Value)
    | Remove(k: Key)
    | Snapshot(i: nat, items: seq<Tuple>)
    | Forward(i: nat)

  function Init(shards: seq<map<Key, Value>>): State
    requires |shards| == SHARD_COUNT
  {
    State(shards, [None, None, None, None], [[], [], [], []], [], Merged(shards).Keys)
  }

  ghost predicate Distinct(items: seq<Tuple>) {
    forall j, k :: 0 <= j < k < |items| ==> items[j].key != items[k].key
  }

  // `items` lists m, in some order.
  ghost predicate Lists(items: seq<Tuple>, m: map<Key, Value>) {
    && Distinct(items)
    && (forall x :: x in items ==> x.key in m && m[x.key] == x.val)
    && (forall k :: k in m ==> Tuple(k, m[k]) in items)
  }

  ghost predicate Shaped(s: State) { |s.shards| == |s.taken| == |s.chans| == SHARD_COUNT }

  // fanIn starts when snapshot has returned, with all four channels made.
  ghost predicate Enabled(s: State, a: Action) {
    match a
    case Set(k, v) => true
    case Remove(k) => true
    case Snapshot(i, items) => i < |s.shards| == |s.taken| && s.taken[i].None? && Lists(items, s.shards[i])
    case Forward(i) => i < |s.chans| && s.chans[i] != [] && forall j :: 0 <= j < |s.taken| ==> s.taken[j].Some?
  }

  ghost function Do(sharding: Key -> nat, s: State, a: Action): State
    requires Shaped(s) && Enabled(s, a)
  {
    match a
    case Set(k, v) =>
      var i := sharding(k) % SHARD_COUNT;
      s.(shards := s.shards[i := s.shards[i][k := v]])
    case Remove(k) =>
      var i := sharding(k) % SHARD_COUNT;
      s.(shards := s.shards[i := s.shards[i] - {k}], steady := s.steady - {k})
    case Snapshot(i, items) => s.(taken := s.taken[i := Some(s.shards[i])], chans := s.chans[i := items])
    case Forward(i) => s.(out := s.out + [s.chans[i][0]], chans := s.chans[i := s.chans[i][1..]])
  }

  ghost function Run(sharding: Key -> nat, shards: seq<map<Key, Value>>, sched: seq<Action>): Option<State>
    requires |shards| == SHARD_COUNT
  {
    if sched == [] then Some(Init(shards))
    else
      var before := Run(sharding, shards, sched[..|sched| - 1]);
      var a := sched[|sched| - 1];
      if before.Some? && Shaped(before.value) && Enabled(before.value, a)
      then Some(Do(sharding, before.value, a)) else None
  }

  // No key is yielded twice, nor waits in a channel twice or after having been yielded.
  ghost predicate OnceInv(s: State)
    requires Shaped(s)
  {
    && Distinct(s.out)
    && (forall i :: 0 <= i < SHARD_COUNT ==> Distinct(s.chans[i]))
    && (forall i, x, y :: 0 <= i < SHARD_COUNT && x in s.chans[i] && y in s.out ==> x.key != y.key)
  }

  // Shard i's channel and the iterator hold nothing but what snapshot i saw.
  ghost predicate SeenInv(sharding: Key -> nat, s: State)
    requires Shaped(s)
  {
    && (forall i, x :: 0 <= i < SHARD_COUNT && x in s.chans[i] ==> Saw(s, i, x))
    && (forall x :: x in s.out ==> Saw(s, sharding(x.key) % SHARD_COUNT, x))
  }

  ghost predicate Saw(s: State, i: nat, x: Tuple)
    requires Shaped(s) && i < SHARD_COUNT
  {
    s.taken[i].Some? && x.key in s.taken[i].value && s.taken[i].value[x.key] == x.val
  }

  // Nothing that a snapshot saw gets lost.
  ghost predicate CoveredInv(s: State)
    requires Shaped(s)
  {
    forall i, x :: 0 <= i < SHARD_COUNT && Saw(s, i, x) ==> x in s.chans[i] || x in s.out
  }

  ghost predicate ChannelInv(sharding: Key -> nat, s: State)
    requires Shaped(s)
  {
    OnceInv(s) && SeenInv(sharding, s) && CoveredInv(s)
  }

  ghost predicate TakenInv(sharding: Key -> nat, s: State)
    requires Shaped(s)
  {
    && Cut(sharding, s.shards)
    && (forall i, k :: 0 <= i < SHARD_COUNT && s.taken[i].Some? && k in s.taken[i].value ==>
          sharding(k) % SHARD_COUNT == i)
    && (forall k :: k in s.steady ==> k in s.shards[sharding(k) % SHARD_COUNT])
    && (forall k :: k in s.steady && s.taken[sharding(k) % SHARD_COUNT].Some? ==>
          k in s.taken[sharding(k) % SHARD_COUNT].value)
  }

  ghost predicate Inv(sharding: Key -> nat, s: State) {
    Shaped(s) && ChannelInv(sharding, s) && TakenInv(sharding, s)
  }

  lemma SnapshotKeeps(sharding: Key -> nat, s: State, i: nat, items: seq<Tuple>)
    requires Inv(sharding, s) && Enabled(s, Snapshot(i, items))
    ensures Inv(sharding, Do(sharding, s, Snapshot(i, items)))
  {
    var t := Do(sharding, s, Snapshot(i, items));
    assert TakenInv(sharding, t);
  }

  // The tuple moves from its channel to the output.
  lemma ForwardMoves(sharding: Key -> nat, s: State, i: nat)
    requires Shaped(s) && Enabled(s, Forward(i))
    ensures var t := Do(sharding, s, Forward(i)); var x := s.chans[i][0];
      && Shaped(t) && t.taken == s.taken && t.shards == s.shards && t.steady == s.steady
      && (forall y :: y in t.out <==> y in s.out || y == x)
      && (forall y :: y in s.chans[i] <==> y in t.chans[i] || y == x)
      && (forall j :: 0 <= j < SHARD_COUNT && j != i ==> t.chans[j] == s.chans[j])
  {
    assert s.chans[i] == [s.chans[i][0]] + s.chans[i][1..];
  }

  lemma ForwardKeepsOnce(sharding: Key -> nat, s: State, i: nat)
    requires Inv(sharding, s) && Enabled(s, Forward(i))
    ensures OnceInv(Do(sharding, s, Forward(i)))
  {
    var t := Do(sharding, s, Forward(i));
    var x := s.chans[i][0];
    ForwardMoves(sharding, s, i);
    assert x in s.chans[i];
    forall j, y | 0 <= j < SHARD_COUNT && y in t.chans[j]
      ensures y.key != x.key
    {
      if j == i {
        var k :| 0 <= k < |t.chans[i]| && t.chans[i][k] == y;
        assert s.chans[i][0].key != s.chans[i][k + 1].key;
      } else {
        assert y in s.chans[j];
        assert Saw(s, j, y) && Saw(s, i, x);
        assert sharding(y.key) % SHARD_COUNT == j && sharding(x.key) % SHARD_COUNT == i;
      }
    }
  }

  lemma ForwardKeeps(sharding: Key -> nat, s: State, i: nat)
    requires Inv(sharding, s) && Enabled(s, Forward(i))
    ensures Inv(sharding, Do(sharding, s, Forward(i)))
  {
    var t := Do(sharding, s, Forward(i));
    var x := s.chans[i][0];
    ForwardKeepsOnce(sharding, s, i);
    ForwardMoves(sharding, s, i);
    assert x in s.chans[i];
    assert Saw(s, i, x);
    forall j, y | 0 <= j < SHARD_COUNT
      ensures Saw(t, j, y) <==> Saw(s, j, y)
    {
    }
    assert SeenInv(sharding, t);
    assert CoveredInv(t);
  }

  lemma SetKeeps(sharding: Key -> nat, s: State, k: Key, v: Value)
    requires Inv(sharding, s)
    ensures Inv(sharding, Do(sharding, s, Set(k, v)))
  {
    var t := Do(sharding, s, Set(k, v));
    SetInShard(sharding, s.shards, k, v);
    assert forall j, y :: 0 <= j < SHARD_COUNT ==> Saw(t, j, y) == Saw(s, j, y);
  }

  lemma RemoveKeeps(sharding: Key -> nat, s: State, k: Key)
    requires Inv(sharding, s)
    ensures Inv(sharding, Do(sharding, s, Remove(k)))
  {
    var t := Do(sharding, s, Remove(k));
    RemoveFromShard(sharding, s.shards, k);
    assert forall j, y :: 0 <= j < SHARD_COUNT ==> Saw(t, j, y) == Saw(s, j, y);
  }

  lemma InitHolds(sharding: Key -> nat, shards: seq<map<Key, Value>>)
    requires Cut(sharding, shards)
    ensures Inv(sharding, Init(shards))
  {
    forall k | k in Merged(shards)
      ensures k in shards[sharding(k) % SHARD_COUNT]
    {
      OwnShard(sharding, shards, k);
    }
  }

  lemma {:induction false} RunKeeps(sharding: Key -> nat, shards: seq<map<Key, Value>>, sched: seq<Action>)
    requires Cut(sharding, shards) && Run(sharding, shards, sched).Some?
    ensures Inv(sharding, Run(sharding, shards, sched).value)
  {
    if sched == [] {
      InitHolds(sharding, shards);
    } else {
      RunKeeps(sharding, shards, sched[..|sched| - 1]);
      var s := Run(sharding, shards, sched[..|sched| - 1]).value;
      match sched[|sched| - 1]
      case Snapshot(i, items) => SnapshotKeeps(sharding, s, i, items);
      case Forward(i) => ForwardKeeps(sharding, s, i);
      case Set(k, v) => SetKeeps(sharding, s, k, v);
      case Remove(k) => RemoveKeeps(sharding, s, k);
    }
  }

  // All snapshots are taken and all channels are empty: the iterator ends.
  ghost predicate Exhausted(s: State)
    requires Shaped(s)
  {
    forall i :: 0 <= i < SHARD_COUNT ==> s.taken[i].Some? && s.chans[i] == []
  }

  lemma ExhaustedYieldsAll(sharding: Key -> nat, s: State)
    requires Inv(sharding, s) && Exhausted(s)
    ensures forall x :: x in s.out <==> Saw(s, sharding(x.key) % SHARD_COUNT, x)
    ensures forall k :: k in s.steady ==> exists x :: x in s.out && x.key == k
  {
    forall k | k in s.steady
      ensures exists x :: x in s.out && x.key == k
    {
      var i := sharding(k) % SHARD_COUNT;
      var x := Tuple(k, s.taken[i].value[k]);
      assert Saw(s, i, x);
    }
  }

  // For every schedule the iterator yields no key twice, and when it is exhausted it has yielded
  // exactly the tuples of four shard snapshots, with every key that was there all the time.
  lemma YieldsEachKeyOnce(sharding: Key -> nat, shards: seq<map<Key, Value>>, sched: seq<Action>)
    requires Cut(sharding, shards) && Run(sharding, shards, sched).Some?
    ensures var s := Run(sharding, shards, sched).value;
      && Shaped(s) && Distinct(s.out)
      && (Exhausted(s) ==>
            && (forall x :: x in s.out <==> Saw(s, sharding(x.key) % SHARD_COUNT, x))
            && (forall k :: k in s.steady ==> exists x :: x in s.out && x.key == k))
  {
    RunKeeps(sharding, shards, sched);
    if Exhausted(Run(sharding, shards, sched).value) {
      ExhaustedYieldsAll(sharding, Run(sharding, shards, sched).value);
    }
  }

  // The writes that go on meanwhile are those of the one map, and the iterator's own steps leave it
  // alone.
  lemma WritesAreTheMaps(sharding: Key -> nat, shards: seq<map<Key, Value>>, sched: seq<Action>, a: Action)
    requires Cut(sharding, shards) && Run(sharding, shards, sched).Some?
    requires Shaped(Run(sharding, shards, sched).value) && Enabled(Run(sharding, shards, sched).value, a)
    ensures var s := Run(sharding, shards, sched).value; var t := Do(sharding, s, a);
      && |t.shards| == SHARD_COUNT
      && Merged(t.shards) ==
         (if a.Set? then Merged(s.shards)[a.k := a.v] else if a.Remove? then Merged(s.shards) - {a.k}
          else Merged(s.shards))
  {
    RunKeeps(sharding, shards, sched);
    var s := Run(sharding, shards, sched).value;
    match a
    case Set(k, v) => SetInShard(sharding, s.shards, k, v);
    case Remove(k) => RemoveFromShard(sharding, s.shards, k);
    case Snapshot(i, items) =>
    case Forward(i) =>
  }
}
