/** server/manager.go and server/rabbitmq_disconnect_consume.go: the contexts that the handlers
    of one user and IP share, counted by reference and closed from outside.

    A context is known by the order of its creation, which stands for its pointer.  Each callback
    of the map runs under a lock of the map, so it is one function from users to users. */
module UserConnections {
  type Key = string

  datatype Context = Context(
    key: Key,
    c: int,              // reference count; CountsAreExact keeps it above zero while mapped
    cancelled: bool,     // its cancel() has been called
    limiter: nat         // its LimitedReaderAction
  )

  datatype Users = Users(
    byKey: map<Key, nat>,       // userCtxMap
    contexts: seq<Context>      // every context ever created
  ) {
    ghost predicate Valid() {
      forall k :: k in byKey ==> byKey[k] < |contexts|
    }
  }

  // The context that addUserConnection returns.
  function ContextFor(u: Users, k: Key): nat {
    if k in u.byKey then u.byKey[k] else |u.contexts|
  }

  // addUserConnection
  function Connected(u: Users, k: Key): Users
    requires u.Valid()
  {
    if k in u.byKey then
      var id := u.byKey[k];
      u.(contexts := u.contexts[id := u.contexts[id].(c := u.contexts[id].c + 1)])
    else
      Users(u.byKey[k := |u.contexts|], u.contexts + [Context(k, 1, false, |u.contexts|)])
  }

  // deleteUserConnection by a holder of `id`
  function Released(u: Users, k: Key, id: nat): Users
    requires u.Valid()
  {
    if k !in u.byKey || u.byKey[k] != id then u
    else
      var x := u.contexts[id];
      if x.c == 1 then Users(u.byKey - {k}, u.contexts[id := x.(c := 0, cancelled := true)])
      else u.(contexts := u.contexts[id := x.(c := x.c - 1)])
  }

  function Popped(u: Users, k: Key): Users { u.(byKey := u.byKey - {k}) }

  function Cancelled(u: Users, id: nat): Users
    requires id < |u.contexts|
  {
    u.(contexts := u.contexts[id := u.contexts[id].(cancelled := true)])
  }

  // Pop and cancel, as one uninterrupted call does it.
  function Closed(u: Users, k: Key): Users
    requires u.Valid()
  {
    if k in u.byKey then Cancelled(Popped(u, k), u.byKey[k]) else u
  }

  // strings.Split(key, ":")[0]
  function UserOf(k: Key): string {
    if k == "" || k[0] == ':' then "" else [k[0]] + UserOf(k[1..])
  }

  // fmt.Sprintf("%s:%s", user, ip)
  function KeyOf(user: string, ip: string): Key { user + ":" + ip }

  // The keys of a user are told apart by the part before the colon exactly when the user name
  // has no colon in it.
  lemma {:induction false} UserOfKey(user: string, ip: string)
    ensures UserOf(KeyOf(user, ip)) == user <==> ':' !in user
  {
    if user == "" {
      assert KeyOf(user, ip)[0] == ':';
    } else if user[0] != ':' {
      assert KeyOf(user, ip)[1..] == KeyOf(user[1..], ip);
      UserOfKey(user[1..], ip);
    } else {
      assert KeyOf(user, ip)[0] == ':';
    }
  }

  class Manager {
    var userCtxMap: map<Key, nat>
    var contexts: seq<Context>

    ghost function View(): Users
      reads this
    {
      Users(userCtxMap, contexts)
    }

    constructor ()
      ensures View() == Users(map[], [])
    {
      userCtxMap, contexts := map[], [];
    }

    method AddUserConnection(k: Key) returns (id: nat)
      requires View().Valid()
      modifies this
      ensures View() == Connected(old(View()), k) && View().Valid()
      ensures id == ContextFor(old(View()), k)
    {
      if k in userCtxMap {
        id := userCtxMap[k];
        contexts := contexts[id := contexts[id].(c := contexts[id].c + 1)];
      } else {
        id := |contexts|;
        contexts := contexts + [Context(k, 1, false, |contexts|)];
        userCtxMap := userCtxMap[k := id];
      }
    }

    method DeleteUserConnection(k: Key, id: nat)
      requires View().Valid()
      modifies this
      ensures View() == Released(old(View()), k, id) && View().Valid()
    {
      if k in userCtxMap {
        if userCtxMap[k] != id {
          return;
        }
        contexts := contexts[id := contexts[id].(c := contexts[id].c - 1)];
        if contexts[id].c == 0 {
          contexts := contexts[id := contexts[id].(cancelled := true)];
          userCtxMap := userCtxMap - {k};
        }
      }
    }

    method CloseUserConnections(k: Key) returns (ok: bool)
      requires View().Valid()
      modifies this
      ensures View() == Closed(old(View()), k) && View().Valid()
      ensures ok == (k in old(userCtxMap))
    {
      ok := k in userCtxMap;
      if ok {
        var id := userCtxMap[k];
        userCtxMap := userCtxMap - {k};
        contexts := contexts[id := contexts[id].(cancelled := true)];
      }
    }

    // runRabbitmqDisconnectQueueConsumeAction after decoding, with nobody else at work.
    // `snapshot` is the order in which the map's iterator yields its keys.
    method Disconnect(username: string, ips: seq<string>, snapshot: seq<Key>)
      requires View().Valid()
      modifies this
      ensures View() == ClosedAll(old(View()), Targets(username, ips, snapshot)) && View().Valid()
    {
      if username == "" {
        return;
      }
      if |ips| == 0 {
        for n := 0 to |snapshot|
          invariant View() == ClosedAll(old(View()), OfUser(username, snapshot[..n])) && View().Valid()
        {
          assert snapshot[..n + 1][..n] == snapshot[..n];
          ghost var keys := OfUser(username, snapshot[..n]);
          assert keys + [] == keys && (keys + [snapshot[n]])[..|keys|] == keys;
          if UserOf(snapshot[n]) == username {
            var _ := CloseUserConnections(snapshot[n]);
          }
        }
        assert snapshot[..|snapshot|] == snapshot;
        return;
      }
      for n := 0 to |ips|
        invariant View() == ClosedAll(old(View()), WithIps(username, ips[..n])) && View().Valid()
      {
        assert ips[..n + 1][..n] == ips[..n];
        var _ := CloseUserConnections(KeyOf(username, ips[n]));
      }
      assert ips[..|ips|] == ips;
    }
  }

  // Closing several keys, one after the other.
  function ClosedAll(u: Users, keys: seq<Key>): (v: Users)
    requires u.Valid()
    ensures v.Valid()
  {
    if keys == [] then u else Closed(ClosedAll(u, keys[..|keys| - 1]), keys[|keys| - 1])
  }

  function OfUser(username: string, snapshot: seq<Key>): seq<Key> {
    if snapshot == [] then []
    else
      var k := snapshot[|snapshot| - 1];
      OfUser(username, snapshot[..|snapshot| - 1]) + if UserOf(k) == username then [k] else []
  }

  function WithIps(username: string, ips: seq<string>): seq<Key> {
    if ips == [] then [] else WithIps(username, ips[..|ips| - 1]) + [KeyOf(username, ips[|ips| - 1])]
  }

  // The keys that a disconnect message closes.
  function Targets(username: string, ips: seq<string>, snapshot: seq<Key>): seq<Key> {
    if username == "" then [] else if ips == [] then OfUser(username, snapshot) else WithIps(username, ips)
  }

  lemma {:induction false} OfUserMembers(username: string, snapshot: seq<Key>, k: Key)
    ensures k in OfUser(username, snapshot) <==> k in snapshot && UserOf(k) == username
  {
    if snapshot != [] {
      OfUserMembers(username, snapshot[..|snapshot| - 1], k);
      assert snapshot == snapshot[..|snapshot| - 1] + [snapshot[|snapshot| - 1]];
    }
  }

  // No context is mapped by two keys.
  ghost predicate OneKeyEach(u: Users) {
    forall k, l :: k in u.byKey && l in u.byKey && u.byKey[k] == u.byKey[l] ==> k == l
  }

  // Exactly the given keys disappear, and exactly the contexts they mapped are cancelled.
  lemma {:induction false} ClosedAllEffect(u: Users, keys: seq<Key>)
    requires u.Valid() && OneKeyEach(u)
    ensures var v := ClosedAll(u, keys);
      && (forall k :: k in v.byKey <==> k in u.byKey && k !in keys)
      && (forall k :: k in v.byKey ==> v.byKey[k] == u.byKey[k])
      && |v.contexts| == |u.contexts|
      && (forall id :: 0 <= id < |u.contexts| ==>
            v.contexts[id] == u.contexts[id].(cancelled := v.contexts[id].cancelled))
      && (forall id :: 0 <= id < |u.contexts| ==>
            (v.contexts[id].cancelled <==>
               u.contexts[id].cancelled || exists k :: k in keys && k in u.byKey && u.byKey[k] == id))
  {
    if keys != [] {
      var last := keys[|keys| - 1];
      var earlier := keys[..|keys| - 1];
      ClosedAllEffect(u, earlier);
      assert keys == earlier + [last];
      var w := ClosedAll(u, earlier);
      var v := ClosedAll(u, keys);
      forall id | 0 <= id < |u.contexts|
        ensures v.contexts[id].cancelled <==>
          u.contexts[id].cancelled || exists k :: k in keys && k in u.byKey && u.byKey[k] == id
      {
        if w.contexts[id].cancelled && !u.contexts[id].cancelled {
          var k :| k in earlier && k in u.byKey && u.byKey[k] == id;
          assert k in keys;
        }
        if last in u.byKey && u.byKey[last] == id {
          assert last in keys;
          assert last in w.byKey || last in earlier;
        }
      }
    }
  }

  // Whose connections a disconnect closes

  // A connected user, from one IP.
  datatype Connection = Connection(user: string, ip: string)

  // The map has exactly the keys of these connections.
  ghost predicate Serves(u: Users, conns: set<Connection>) {
    forall k :: k in u.byKey <==> exists x :: x in conns && k == KeyOf(x.user, x.ip)
  }

  // What the disconnect is for: the user's own connections, all of them or those of the listed IPs.
  predicate Meant(x: Connection, username: string, ips: seq<string>) {
    x.user == username && (ips == [] || x.ip in ips)
  }

  ghost predicate ClosesExactlyOwn(u: Users, conns: set<Connection>, username: string, ips: seq<string>,
                                   snapshot: seq<Key>)
    requires u.Valid()
  {
    forall x :: x in conns ==>
      (KeyOf(x.user, x.ip) !in ClosedAll(u, Targets(username, ips, snapshot)).byKey <==> Meant(x, username, ips))
  }

  lemma {:induction false} UserOfPrefix(user: string, ip: string)
    ensures UserOf(KeyOf(user, ip)) == UserOf(user)
  {
    if user == "" {
      assert KeyOf(user, ip)[0] == ':';
    } else if user[0] != ':' {
      assert KeyOf(user, ip)[1..] == KeyOf(user[1..], ip);
      UserOfPrefix(user[1..], ip);
    } else {
      assert KeyOf(user, ip)[0] == ':';
    }
  }

  // The part before the first colon is `name` for the name itself, if it has no colon, and for the
  // name followed by a colon and anything.
  lemma {:induction false} UserOfIs(v: string, name: string)
    ensures UserOf(v) == name <==> ':' !in name && (v == name || name + ":" <= v)
  {
    if v == "" || v[0] == ':' {
      if name + ":" <= v && name != "" {
        assert (name + ":")[0] == name[0] == v[0];
      }
    } else if name == "" {
      assert (name + ":")[0] == ':';
    } else {
      UserOfIs(v[1..], name[1..]);
      assert name == [name[0]] + name[1..] && v == [v[0]] + v[1..];
      assert name[0] == ':' || name[0] != ':';
      PrefixTail(v, name);
    }
  }

  lemma PrefixTail(v: string, name: string)
    requires v != "" && name != ""
    ensures name + ":" <= v <==> v[0] == name[0] && name[1..] + ":" <= v[1..]
  {
    assert (name + ":")[1..] == name[1..] + ":";
    assert name + ":" <= v ==> (name + ":")[0] == v[0];
  }

  // A colon in a name is what makes the keys of another user look like this user's.  A name with
  // a colon is itself never found, nor is the empty name, which the disconnect refuses.
  ghost predicate NamesApart(conns: set<Connection>, username: string) {
    forall x :: x in conns ==>
      if username == "" || ':' in username then x.user != username else !(username + ":" <= x.user)
  }

  // Without listed IPs: with every mapped key in the snapshot, a disconnect closes exactly the
  // user's own connections if and only if the names are apart.
  lemma UserDisconnectExact(u: Users, conns: set<Connection>, username: string, snapshot: seq<Key>)
    requires u.Valid() && OneKeyEach(u) && Serves(u, conns)
    requires forall k :: k in u.byKey ==> k in snapshot
    ensures ClosesExactlyOwn(u, conns, username, [], snapshot) <==> NamesApart(conns, username)
  {
    var keys := Targets(username, [], snapshot);
    ClosedAllEffect(u, keys);
    forall x | x in conns
      ensures KeyOf(x.user, x.ip) !in ClosedAll(u, keys).byKey
        <==> username != "" && ':' !in username && (x.user == username || username + ":" <= x.user)
    {
      var k := KeyOf(x.user, x.ip);
      OfUserMembers(username, snapshot, k);
      UserOfPrefix(x.user, x.ip);
      UserOfIs(x.user, username);
      assert k in u.byKey;
    }
    assert !(username + ":" <= username);
  }

  // x is a connection of another user under the key of `name` at `ip`: one name goes on after the
  // other, a colon, and what the other's IP then has in front.
  predicate SharesKey(x: Connection, name: string, ip: string) {
    || (name + ":" <= x.user && ip == x.user[|name| + 1..] + ":" + x.ip)
    || (x.user + ":" <= name && x.ip == name[|x.user| + 1..] + ":" + ip)
  }

  lemma LongerName(v: string, j: string, name: string, i: string)
    requires |name| < |v|
    ensures KeyOf(v, j) == KeyOf(name, i) <==> name + ":" <= v && i == v[|name| + 1..] + ":" + j
  {
    var k, l := KeyOf(v, j), KeyOf(name, i);
    var n := |name| + 1;
    assert l[..n] == name + ":" && l[n..] == i;
    assert k[..n] == v[..n] && k[n..] == v[n..] + ":" + j;
    assert k == k[..n] + k[n..] && l == l[..n] + l[n..];
  }

  // Two connections have one key exactly if they are the same or share it in this way.
  lemma SameKey(x: Connection, name: string, ip: string)
    ensures KeyOf(x.user, x.ip) == KeyOf(name, ip) <==> x == Connection(name, ip) || SharesKey(x, name, ip)
  {
    if |name| < |x.user| {
      LongerName(x.user, x.ip, name, ip);
    } else if |x.user| < |name| {
      LongerName(name, ip, x.user, x.ip);
    } else {
      var n := |name|;
      assert KeyOf(x.user, x.ip)[..n] == x.user && KeyOf(x.user, x.ip)[n + 1..] == x.ip;
      assert KeyOf(name, ip)[..n] == name && KeyOf(name, ip)[n + 1..] == ip;
    }
  }

  // No connection of another user is under a listed key.  The empty name is refused, so it must
  // have no connection at the listed IPs.
  ghost predicate KeysApart(conns: set<Connection>, username: string, ips: seq<string>) {
    forall x, ip :: x in conns && ip in ips ==>
      if username == "" then x != Connection("", ip) else !SharesKey(x, username, ip)
  }

  lemma {:induction false} WithIpsMembers(username: string, ips: seq<string>, k: Key)
    ensures k in WithIps(username, ips) <==> exists ip :: ip in ips && k == KeyOf(username, ip)
  {
    if ips != [] {
      var last := |ips| - 1;
      WithIpsMembers(username, ips[..last], k);
      assert ips == ips[..last] + [ips[last]];
    }
  }

  // With listed IPs: a disconnect closes exactly the user's connections from them if and only if
  // the keys are apart.
  lemma IpDisconnectExact(u: Users, conns: set<Connection>, username: string, ips: seq<string>, snapshot: seq<Key>)
    requires u.Valid() && OneKeyEach(u) && Serves(u, conns) && ips != []
    ensures ClosesExactlyOwn(u, conns, username, ips, snapshot) <==> KeysApart(conns, username, ips)
  {
    var keys := Targets(username, ips, snapshot);
    ClosedAllEffect(u, keys);
    forall x | x in conns
      ensures KeyOf(x.user, x.ip) !in ClosedAll(u, keys).byKey <==>
        username != "" && exists ip :: ip in ips && (x == Connection(username, ip) || SharesKey(x, username, ip))
    {
      var k := KeyOf(x.user, x.ip);
      assert k in u.byKey;
      WithIpsMembers(username, ips, k);
      forall ip | ip in ips
        ensures k == KeyOf(username, ip) <==> x == Connection(username, ip) || SharesKey(x, username, ip)
      {
        SameKey(x, username, ip);
      }
    }
    if username != "" {
      OwnOrShared(conns, username, ips);
    }
  }

  lemma OwnOrShared(conns: set<Connection>, username: string, ips: seq<string>)
    requires username != "" && ips != []
    ensures KeysApart(conns, username, ips) <==> forall x :: x in conns ==>
      ((exists ip :: ip in ips && (x == Connection(username, ip) || SharesKey(x, username, ip)))
        <==> Meant(x, username, ips))
  {
    forall x, ip | x in conns && ip in ips && SharesKey(x, username, ip)
      ensures x.user != username
    {
    }
  }

  lemma HasColon(a: string, b: string)
    ensures ':' in a + ":" + b
  {
    assert (a + ":" + b)[|a|] == ':';
  }

  // IPs without a colon keep all keys apart.
  lemma PlainIpsApart(conns: set<Connection>, username: string, ips: seq<string>)
    requires username != "" && forall x :: x in conns ==> ':' !in x.ip
    requires forall ip :: ip in ips ==> ':' !in ip
    ensures KeysApart(conns, username, ips)
  {
    forall x, ip | x in conns && ip in ips
      ensures !SharesKey(x, username, ip)
    {
      if username + ":" <= x.user {
        HasColon(x.user[|username| + 1..], x.ip);
      }
      if x.user + ":" <= username {
        HasColon(username[|x.user| + 1..], ip);
      }
    }
  }

  // Two users with one connection each.
  function TwoUsers(k: Key, l: Key): Users {
    Users(map[k := 0, l := 1], [Context(k, 1, false, 0), Context(l, 1, false, 1)])
  }

  // Disconnecting a closes the connection of a:b, who has nothing to do with it.
  lemma AnotherUserIsClosed()
    ensures var k, l := KeyOf("a", "1.2.3.4"), KeyOf("a:b", "5.6.7.8");
      var v := ClosedAll(TwoUsers(k, l), Targets("a", [], [k, l]));
      l !in v.byKey && |v.contexts| == 2 && v.contexts[1].cancelled
  {
    var k, l := KeyOf("a", "1.2.3.4"), KeyOf("a:b", "5.6.7.8");
    assert k[1] == ':' && l[1] == ':' && k[2] == '1' && l[2] == 'b';
    UserOfPrefix("a:b", "5.6.7.8");
    UserOfIs("a:b", "a");
    assert "a:b"[..2] == "a" + ":";
    OfUserMembers("a", [k, l], l);
    ClosedAllEffect(TwoUsers(k, l), Targets("a", [], [k, l]));
    assert TwoUsers(k, l).byKey[l] == 1;
  }

  // Two users, and two IPv6 addresses, with one key: they share one context and one limiter, and
  // disconnecting the one from its IP closes the other's connection.
  lemma OneKeyForTwoUsers(u: Users)
    requires u.Valid() && OneKeyEach(u) && KeyOf("a:1", "2::3") in u.byKey
    ensures KeyOf("a", "1:2::3") == KeyOf("a:1", "2::3")
    ensures var v := ClosedAll(u, Targets("a", ["1:2::3"], []));
      var id := u.byKey[KeyOf("a:1", "2::3")];
      KeyOf("a:1", "2::3") !in v.byKey && id < |v.contexts| && v.contexts[id].cancelled
  {
    var k := KeyOf("a:1", "2::3");
    assert k == KeyOf("a", "1:2::3");
    WithIpsMembers("a", ["1:2::3"], k);
    assert "1:2::3" in ["1:2::3"];
    ClosedAllEffect(u, WithIps("a", ["1:2::3"]));
  }
}

/** Handlers connecting and releasing, and disconnect messages closing keys, all at once.

    A disconnect pops a key under the map's lock and cancels what it popped in a later step; the
    keys it goes through are arbitrary, which covers an iterator that has fallen behind the map. */
module ConnectionRuns {
  import opened Wrappers
  import opened UserConnections

  // A disconnect under way: the keys it still has to pop, and a context popped but not cancelled.
  datatype Closer = Closer(todo: seq<Key>, pending: Option<nat>)

  datatype Holder = Holder(key: Key, id: nat)

  datatype State = State(
    users: Users,
    live: map<nat, Holder>,   // the handlers between connect and release
    handlers: nat,            // handlers so far
    closers: seq<Closer>,
    stopped: bool             // the manager's own context, the parent of all others, is done
  ) {
    // The context of `id` is done.
    predicate Done(id: nat)
      requires id < |users.contexts|
    {
      stopped || users.contexts[id].cancelled
    }
  }

  datatype Action =
    | Connect(k: Key)
    | Release(h: nat)
    | CallClose(keys: seq<Key>)
    | CloserStep(i: nat)
    | Stop

  const Init := State(Users(map[], []), map[], 0, [], false)

  predicate Enabled(s: State, a: Action) {
    match a
    case Connect(k) => true
    case Release(h) => h in s.live
    case CallClose(keys) => true
    case CloserStep(i) => i < |s.closers| && (s.closers[i].pending.Some? || s.closers[i].todo != [])
    case Stop => true
  }

  ghost predicate WellFormed(s: State) {
    && s.users.Valid()
    && (forall h :: h in s.live ==> s.live[h].id < |s.users.contexts| && h < s.handlers)
    && (forall i :: 0 <= i < |s.closers| && s.closers[i].pending.Some? ==>
          s.closers[i].pending.value < |s.users.contexts|)
  }

  function Pop(u: Users, k: Key): Option<nat> { if k in u.byKey then Some(u.byKey[k]) else None }

  function CloseOne(s: State, i: nat): State
    requires WellFormed(s) && Enabled(s, CloserStep(i))
  {
    var c := s.closers[i];
    match c.pending
    case Some(id) => s.(users := Cancelled(s.users, id), closers := s.closers[i := c.(pending := None)])
    case None =>
      s.(users := Popped(s.users, c.todo[0]),
         closers := s.closers[i := Closer(c.todo[1..], Pop(s.users, c.todo[0]))])
  }

  function Do(s: State, a: Action): State
    requires WellFormed(s) && Enabled(s, a)
  {
    match a
    case Connect(k) =>
      s.(users := Connected(s.users, k), live := s.live[s.handlers := Holder(k, ContextFor(s.users, k))],
         handlers := s.handlers + 1)
    case Release(h) => s.(users := Released(s.users, s.live[h].key, s.live[h].id), live := s.live - {h})
    case CallClose(keys) => s.(closers := s.closers + [Closer(keys, None)])
    case CloserStep(i) => CloseOne(s, i)
    case Stop => s.(stopped := true)
  }

  ghost function Run(sched: seq<Action>): Option<State> {
    if sched == [] then Some(Init)
    else
      var before := Run(sched[..|sched| - 1]);
      var a := sched[|sched| - 1];
      if before.Some? && WellFormed(before.value) && Enabled(before.value, a) then Some(Do(before.value, a)) else None
  }

  // The live handlers that hold a context.
  ghost function Holders(live: map<nat, Holder>, id: nat): set<nat> { set h | h in live && live[h].id == id }

  lemma HoldersGrow(live: map<nat, Holder>, h: nat, x: Holder)
    requires h !in live
    ensures |Holders(live[h := x], x.id)| == |Holders(live, x.id)| + 1
    ensures forall j :: j != x.id ==> Holders(live[h := x], j) == Holders(live, j)
  {
    assert Holders(live[h := x], x.id) == Holders(live, x.id) + {h};
  }

  lemma HoldersShrink(live: map<nat, Holder>, h: nat)
    requires h in live
    ensures |Holders(live - {h}, live[h].id)| == |Holders(live, live[h].id)| - 1
    ensures forall j :: j != live[h].id ==> Holders(live - {h}, j) == Holders(live, j)
  {
    assert Holders(live - {h}, live[h].id) == Holders(live, live[h].id) - {h};
  }

  lemma NoHolders(live: map<nat, Holder>, id: nat)
    requires |Holders(live, id)| == 0
    ensures forall h :: h in live ==> live[h].id != id
  {
    forall h | h in live
      ensures live[h].id != id
    {
      assert h in Holders(live, id) <==> live[h].id == id;
    }
  }

  ghost predicate Pending(s: State, id: nat) {
    exists i :: 0 <= i < |s.closers| && s.closers[i].pending == Some(id)
  }

  ghost predicate Mapped(s: State, id: nat)
    requires id < |s.users.contexts|
  {
    var k := s.users.contexts[id].key;
    k in s.users.byKey && s.users.byKey[k] == id
  }

  // A mapped context sits at its own key, is not cancelled, and counts its holders.
  ghost predicate MapInv(s: State)
    requires WellFormed(s)
  {
    forall k :: k in s.users.byKey ==>
      var x := s.users.contexts[s.users.byKey[k]];
      x.key == k && !x.cancelled && 1 <= x.c == |Holders(s.live, s.users.byKey[k])|
  }

  // A handler whose context is no longer mapped has been told, or is about to be.
  ghost predicate Told(s: State, h: nat)
    requires WellFormed(s) && h in s.live
  {
    var id := s.live[h].id;
    Mapped(s, id) || s.users.contexts[id].cancelled || Pending(s, id)
  }

  ghost predicate HolderInv(s: State)
    requires WellFormed(s)
  {
    forall h :: h in s.live ==> s.live[h].key == s.users.contexts[s.live[h].id].key && Told(s, h)
  }

  // What waits to be cancelled has been taken out of the map.
  ghost predicate CloserInv(s: State)
    requires WellFormed(s)
  {
    forall i :: 0 <= i < |s.closers| && s.closers[i].pending.Some? ==> !Mapped(s, s.closers[i].pending.value)
  }

  ghost predicate LimiterInv(s: State) {
    forall id :: 0 <= id < |s.users.contexts| ==> s.users.contexts[id].limiter == id
  }

  ghost predicate Inv(s: State) {
    WellFormed(s) && MapInv(s) && HolderInv(s) && CloserInv(s) && LimiterInv(s)
  }

  lemma ConnectKeepsMap(s: State, k: Key)
    requires Inv(s)
    ensures MapInv(Do(s, Connect(k))) && CloserInv(Do(s, Connect(k)))
  {
    var id := ContextFor(s.users, k);
    HoldersGrow(s.live, s.handlers, Holder(k, id));
    assert k !in s.users.byKey ==> Holders(s.live, id) == {};
  }

  lemma ConnectKeepsForm(s: State, k: Key)
    requires WellFormed(s)
    ensures WellFormed(Do(s, Connect(k)))
  {
  }

  lemma ConnectKeepsHolders(s: State, k: Key)
    requires Inv(s) && WellFormed(Do(s, Connect(k)))
    ensures HolderInv(Do(s, Connect(k)))
  {
    var t := Do(s, Connect(k));
    forall h | h in t.live
      ensures t.live[h].key == t.users.contexts[t.live[h].id].key && Told(t, h)
    {
      if h != s.handlers {
        PendingStays(s, t, s.live[h].id);
        assert Told(s, h);
      }
    }
  }

  lemma ConnectKeeps(s: State, k: Key)
    requires Inv(s)
    ensures Inv(Do(s, Connect(k)))
  {
    ConnectKeepsForm(s, k);
    ConnectKeepsMap(s, k);
    ConnectKeepsHolders(s, k);
  }

  // Closers only pile up, so what was pending still is.
  lemma PendingStays(s: State, t: State, id: nat)
    requires s.closers <= t.closers
    ensures Pending(s, id) ==> Pending(t, id)
  {
    if Pending(s, id) {
      var i :| 0 <= i < |s.closers| && s.closers[i].pending == Some(id);
      assert t.closers[i].pending == Some(id);
    }
  }

  // A release by the holder of an older context touches no context and no mapping.
  lemma OldRelease(s: State, h: nat)
    requires Inv(s) && h in s.live && !Mapped(s, s.live[h].id)
    ensures Do(s, Release(h)) == s.(live := s.live - {h})
  {
  }

  lemma OldReleaseKeeps(s: State, h: nat)
    requires Inv(s) && h in s.live && !Mapped(s, s.live[h].id)
    ensures Inv(Do(s, Release(h)))
  {
    var t := Do(s, Release(h));
    OldRelease(s, h);
    HoldersShrink(s.live, h);
    forall g | g in t.live
      ensures Told(t, g)
    {
      assert Told(s, g);
      PendingStays(s, t, s.live[g].id);
    }
  }

  lemma MappedReleaseKeepsMap(s: State, h: nat)
    requires Inv(s) && h in s.live && Mapped(s, s.live[h].id)
    ensures var t := Do(s, Release(h));
      && WellFormed(t) && MapInv(t) && CloserInv(t)
      && (!Mapped(t, s.live[h].id) ==> forall g :: g in t.live ==> t.live[g].id != s.live[h].id)
  {
    HoldersShrink(s.live, h);
    if |Holders(s.live, s.live[h].id)| == 1 {
      NoHolders(s.live - {h}, s.live[h].id);
    }
  }

  lemma MappedReleaseKeepsHolders(s: State, h: nat)
    requires Inv(s) && h in s.live && Mapped(s, s.live[h].id) && WellFormed(Do(s, Release(h)))
    requires var t := Do(s, Release(h));
      !Mapped(t, s.live[h].id) ==> forall g :: g in t.live ==> t.live[g].id != s.live[h].id
    ensures HolderInv(Do(s, Release(h)))
  {
    var t := Do(s, Release(h));
    forall g | g in t.live
      ensures t.live[g].key == t.users.contexts[t.live[g].id].key && Told(t, g)
    {
      assert Told(s, g);
      PendingStays(s, t, s.live[g].id);
      if t.live[g].id != s.live[h].id {
        assert t.users.contexts[t.live[g].id] == s.users.contexts[s.live[g].id];
      }
    }
  }

  lemma MappedReleaseKeeps(s: State, h: nat)
    requires Inv(s) && h in s.live && Mapped(s, s.live[h].id)
    ensures Inv(Do(s, Release(h)))
  {
    MappedReleaseKeepsMap(s, h);
    MappedReleaseKeepsHolders(s, h);
  }

  lemma CancelKeeps(s: State, i: nat)
    requires Inv(s) && Enabled(s, CloserStep(i)) && s.closers[i].pending.Some?
    ensures Inv(CloseOne(s, i))
  {
    var t := CloseOne(s, i);
    var id := s.closers[i].pending.value;
    forall g | g in t.live
      ensures t.live[g].key == t.users.contexts[t.live[g].id].key && Told(t, g)
    {
      assert Told(s, g);
      var j := s.live[g].id;
      if j != id && Pending(s, j) {
        var k :| 0 <= k < |s.closers| && s.closers[k].pending == Some(j);
        assert t.closers[k].pending == Some(j);
      }
    }
  }

  lemma PopKeeps(s: State, i: nat)
    requires Inv(s) && Enabled(s, CloserStep(i)) && s.closers[i].pending.None?
    ensures Inv(CloseOne(s, i))
  {
    var t := CloseOne(s, i);
    forall g | g in t.live
      ensures t.live[g].key == t.users.contexts[t.live[g].id].key && Told(t, g)
    {
      assert Told(s, g);
      var j := s.live[g].id;
      if Pending(s, j) {
        var k :| 0 <= k < |s.closers| && s.closers[k].pending == Some(j);
        assert t.closers[k].pending == Some(j);
      } else if Mapped(s, j) && !Mapped(t, j) {
        assert t.closers[i].pending == Some(j);
      }
    }
  }

  lemma CallKeeps(s: State, keys: seq<Key>)
    requires Inv(s)
    ensures Inv(Do(s, CallClose(keys)))
  {
    var t := Do(s, CallClose(keys));
    forall g | g in t.live
      ensures Told(t, g)
    {
      assert Told(s, g);
      PendingStays(s, t, s.live[g].id);
    }
  }

  lemma StopKeeps(s: State)
    requires Inv(s)
    ensures Inv(Do(s, Stop))
  {
    var t := Do(s, Stop);
    forall g | g in t.live
      ensures Told(t, g)
    {
      assert Told(s, g);
      PendingStays(s, t, s.live[g].id);
    }
  }

  lemma StepKeeps(s: State, a: Action)
    requires Inv(s) && Enabled(s, a)
    ensures Inv(Do(s, a))
  {
    match a
    case Connect(k) => ConnectKeeps(s, k);
    case Release(h) =>
      if Mapped(s, s.live[h].id) {
        MappedReleaseKeeps(s, h);
      } else {
        OldReleaseKeeps(s, h);
      }
    case CloserStep(i) =>
      if s.closers[i].pending.Some? {
        CancelKeeps(s, i);
      } else {
        PopKeeps(s, i);
      }
    case CallClose(keys) => CallKeeps(s, keys);
    case Stop => StopKeeps(s);
  }

  lemma {:induction false} RunKeeps(sched: seq<Action>)
    requires Run(sched).Some?
    ensures Inv(Run(sched).value)
  {
    if sched != [] {
      RunKeeps(sched[..|sched| - 1]);
      StepKeeps(Run(sched[..|sched| - 1]).value, sched[|sched| - 1]);
    }
  }

  // Main results, for every schedule

  // A mapped context counts exactly the live handlers that hold it, and there is at least one;
  // a handler whose context is no longer mapped finds it cancelled, or a disconnect that popped
  // it is about to cancel it.
  lemma CountsAreExact(sched: seq<Action>)
    requires Run(sched).Some?
    ensures var s := Run(sched).value;
      && WellFormed(s)
      && (forall k :: k in s.users.byKey ==>
            1 <= s.users.contexts[s.users.byKey[k]].c == |Holders(s.live, s.users.byKey[k])|)
      && (forall h :: h in s.live ==> Told(s, h))
  {
    RunKeeps(sched);
  }

  lemma HolderOf(s: State, k: Key) returns (h: nat)
    requires Inv(s) && k in s.users.byKey
    ensures h in s.live && s.live[h].key == k && s.live[h].id == s.users.byKey[k]
  {
    var holders := Holders(s.live, s.users.byKey[k]);
    assert 1 <= |holders|;
    h :| h in holders;
  }

  // The map's keys are those of the live handlers whose contexts are mapped, and no context is
  // mapped by two keys: what the results about a disconnect's keys ask for.
  lemma MappedKeysAreLive(sched: seq<Action>, k: Key)
    requires Run(sched).Some?
    ensures var s := Run(sched).value;
      && WellFormed(s) && OneKeyEach(s.users)
      && (k in s.users.byKey <==> exists h :: h in s.live && s.live[h].key == k && Mapped(s, s.live[h].id))
  {
    RunKeeps(sched);
    var s := Run(sched).value;
    if k in s.users.byKey {
      var h := HolderOf(s, k);
      assert Mapped(s, s.live[h].id);
    }
  }

  // Releasing a context that is no longer mapped changes no counter and cancels nothing.
  lemma OldGenerationIsHarmless(sched: seq<Action>, h: nat)
    requires Run(sched).Some? && WellFormed(Run(sched).value) && h in Run(sched).value.live
    requires !Mapped(Run(sched).value, Run(sched).value.live[h].id)
    ensures Do(Run(sched).value, Release(h)).users == Run(sched).value.users
  {
    RunKeeps(sched);
    OldRelease(Run(sched).value, h);
  }

  // Live handlers of one key whose contexts are neither done nor about to be share one limiter.
  lemma OneLimiterPerKey(sched: seq<Action>, g: nat, h: nat)
    requires Run(sched).Some? && WellFormed(Run(sched).value)
    requires var s := Run(sched).value;
      && g in s.live && h in s.live && s.live[g].key == s.live[h].key
      && !s.Done(s.live[g].id) && !Pending(s, s.live[g].id)
      && !s.Done(s.live[h].id) && !Pending(s, s.live[h].id)
    ensures var s := Run(sched).value;
      s.users.contexts[s.live[g].id].limiter == s.users.contexts[s.live[h].id].limiter
  {
    RunKeeps(sched);
    var s := Run(sched).value;
    assert Told(s, g) && Told(s, h);
  }

  // Once no disconnect is under way, a live handler is undone only if its context is the mapped
  // one of its key.
  lemma QuiescentHandlersAreMapped(sched: seq<Action>, h: nat)
    requires Run(sched).Some? && WellFormed(Run(sched).value) && h in Run(sched).value.live
    requires var s := Run(sched).value;
      !s.stopped && forall i :: 0 <= i < |s.closers| ==> s.closers[i] == Closer([], None)
    ensures var s := Run(sched).value; !s.Done(s.live[h].id) <==> Mapped(s, s.live[h].id)
  {
    RunKeeps(sched);
    assert Told(Run(sched).value, h);
  }

  // A disconnect under way, over schedules

  // As far as closer i goes, the context `id` under the key is out of the map, or the key is still
  // to be popped.
  ghost predicate Closing(s: State, i: nat, k: Key, id: nat) {
    i < |s.closers| && id < |s.users.contexts| && s.users.contexts[id].key == k
    && (k in s.closers[i].todo || !Mapped(s, id))
  }

  // A context keeps its key, and once it is out of the map it stays out.
  lemma UnmappedStays(s: State, a: Action, id: nat)
    requires WellFormed(s) && Enabled(s, a) && id < |s.users.contexts|
    ensures var t := Do(s, a);
      && id < |t.users.contexts| && t.users.contexts[id].key == s.users.contexts[id].key
      && (!Mapped(s, id) ==> !Mapped(t, id))
  {
  }

  lemma ClosingStays(s: State, a: Action, i: nat, k: Key, id: nat)
    requires WellFormed(s) && Enabled(s, a) && Closing(s, i, k, id)
    ensures Closing(Do(s, a), i, k, id)
  {
    UnmappedStays(s, a, id);
    if a.CloserStep? && s.closers[a.i].pending.None? {
      var todo := s.closers[a.i].todo;
      assert todo == [todo[0]] + todo[1..];
    }
  }

  // A handler that is live after a step, and is not new, was live before, with the same context.
  lemma LiveBefore(s: State, a: Action, h: nat)
    requires WellFormed(s) && Enabled(s, a) && h < s.handlers && h in Do(s, a).live
    ensures h in s.live && Do(s, a).live[h] == s.live[h] && s.handlers <= Do(s, a).handlers
  {
  }

  // How a schedule goes on from s.
  ghost function RunOn(s: State, more: seq<Action>): Option<State> {
    if more == [] then Some(s)
    else
      var before := RunOn(s, more[..|more| - 1]);
      var a := more[|more| - 1];
      if before.Some? && WellFormed(before.value) && Enabled(before.value, a) then Some(Do(before.value, a)) else None
  }

  lemma {:induction false} StaysClosing(s: State, more: seq<Action>, i: nat, h: nat)
    requires Inv(s) && RunOn(s, more).Some? && h in s.live && Closing(s, i, s.live[h].key, s.live[h].id)
    ensures var t := RunOn(s, more).value;
      && Inv(t) && s.handlers <= t.handlers && Closing(t, i, s.live[h].key, s.live[h].id)
      && (h in t.live ==> t.live[h] == s.live[h])
  {
    if more != [] {
      var earlier := more[..|more| - 1];
      var a := more[|more| - 1];
      StaysClosing(s, earlier, i, h);
      var t := RunOn(s, earlier).value;
      StepKeeps(t, a);
      ClosingStays(t, a, i, s.live[h].key, s.live[h].id);
      HandlersGrowOnly(t, a);
      if h in Do(t, a).live {
        LiveBefore(t, a, h);
      }
    }
  }

  lemma HandlersGrowOnly(s: State, a: Action)
    requires WellFormed(s) && Enabled(s, a)
    ensures s.handlers <= Do(s, a).handlers
  {
  }

  // However a disconnect interleaves with connects, releases and other disconnects: once it is
  // through, every handler that was live under one of its keys when it was called, and is live
  // still, holds a context that is out of the map, and has been told or is about to be.
  lemma DisconnectTells(sched: seq<Action>, keys: seq<Key>, more: seq<Action>, h: nat)
    requires Run(sched).Some? && WellFormed(Run(sched).value)
    requires var s := Run(sched).value;
      && h in s.live && s.live[h].key in keys
      && var t := RunOn(Do(s, CallClose(keys)), more);
      && t.Some? && |s.closers| < |t.value.closers| && t.value.closers[|s.closers|] == Closer([], None)
      && h in t.value.live
    ensures var t := RunOn(Do(Run(sched).value, CallClose(keys)), more).value;
      && WellFormed(t) && !Mapped(t, t.live[h].id) && Told(t, h)
  {
    RunKeeps(sched);
    var s := Run(sched).value;
    StepKeeps(s, CallClose(keys));
    StaysClosing(Do(s, CallClose(keys)), more, |s.closers|, h);
    var t := RunOn(Do(s, CallClose(keys)), more).value;
    assert Told(t, h);
  }

  // A context that is out of the map has been cancelled, or is about to be, whether or not anybody
  // still holds it.
  ghost predicate ContextsEnd(s: State)
    requires WellFormed(s)
  {
    forall id :: 0 <= id < |s.users.contexts| ==>
      Mapped(s, id) || s.users.contexts[id].cancelled || Pending(s, id)
  }

  lemma ConnectEnds(s: State, k: Key)
    requires Inv(s) && ContextsEnd(s) && WellFormed(Do(s, Connect(k)))
    ensures ContextsEnd(Do(s, Connect(k)))
  {
    var t := Do(s, Connect(k));
    forall id | 0 <= id < |t.users.contexts|
      ensures Mapped(t, id) || t.users.contexts[id].cancelled || Pending(t, id)
    {
      PendingStays(s, t, id);
      if id < |s.users.contexts| {
        assert Mapped(s, id) || s.users.contexts[id].cancelled || Pending(s, id);
      }
    }
  }

  lemma ReleaseEnds(s: State, h: nat)
    requires Inv(s) && ContextsEnd(s) && h in s.live && WellFormed(Do(s, Release(h)))
    ensures ContextsEnd(Do(s, Release(h)))
  {
    var t := Do(s, Release(h));
    forall id | 0 <= id < |t.users.contexts|
      ensures Mapped(t, id) || t.users.contexts[id].cancelled || Pending(t, id)
    {
      PendingStays(s, t, id);
      assert Mapped(s, id) || s.users.contexts[id].cancelled || Pending(s, id);
    }
  }

  lemma CloserEnds(s: State, i: nat)
    requires Inv(s) && ContextsEnd(s) && Enabled(s, CloserStep(i)) && WellFormed(CloseOne(s, i))
    ensures ContextsEnd(CloseOne(s, i))
  {
    var t := CloseOne(s, i);
    forall id | 0 <= id < |t.users.contexts|
      ensures Mapped(t, id) || t.users.contexts[id].cancelled || Pending(t, id)
    {
      assert Mapped(s, id) || s.users.contexts[id].cancelled || Pending(s, id);
      if Pending(s, id) && s.closers[i].pending != Some(id) {
        var k :| 0 <= k < |s.closers| && s.closers[k].pending == Some(id);
        if s.closers[i].pending.Some? || k != i {
          assert t.closers[k].pending == Some(id);
        }
      } else if Mapped(s, id) && !Mapped(t, id) {
        assert t.closers[i].pending == Some(id);
      }
    }
  }

  // On every schedule, every context ever created is mapped, or cancelled, or popped by a disconnect
  // that is about to cancel it: none is left behind as a child of the manager's own.
  lemma {:induction false} NoContextLeftBehind(sched: seq<Action>)
    requires Run(sched).Some?
    ensures WellFormed(Run(sched).value) && ContextsEnd(Run(sched).value)
  {
    RunKeeps(sched);
    if sched != [] {
      var earlier := sched[..|sched| - 1];
      NoContextLeftBehind(earlier);
      RunKeeps(earlier);
      var s := Run(earlier).value;
      match sched[|sched| - 1]
      case Connect(k) => ConnectEnds(s, k);
      case Release(h) => ReleaseEnds(s, h);
      case CloserStep(i) => CloserEnds(s, i);
      case CallClose(keys) => OthersEnd(s, Do(s, CallClose(keys)));
      case Stop => OthersEnd(s, Do(s, Stop));
    }
  }

  lemma OthersEnd(s: State, t: State)
    requires WellFormed(s) && WellFormed(t) && ContextsEnd(s) && t.users == s.users && s.closers <= t.closers
    ensures ContextsEnd(t)
  {
    forall id | 0 <= id < |t.users.contexts|
      ensures Mapped(t, id) || t.users.contexts[id].cancelled || Pending(t, id)
    {
      PendingStays(s, t, id);
      assert Mapped(s, id) || s.users.contexts[id].cancelled || Pending(s, id);
    }
  }

  // Different contexts have different limiters, and once the manager was stopped every context is
  // done.
  lemma {:induction false} LimitersApart(sched: seq<Action>, i: nat, j: nat)
    requires Run(sched).Some? && i < |Run(sched).value.users.contexts| && j < |Run(sched).value.users.contexts|
    ensures var s := Run(sched).value;
      && (s.users.contexts[i].limiter == s.users.contexts[j].limiter <==> i == j)
      && (Stop in sched ==> s.Done(i))
  {
    RunKeeps(sched);
    StopLasts(sched);
  }

  lemma {:induction false} StopLasts(sched: seq<Action>)
    requires Run(sched).Some?
    ensures Stop in sched ==> Run(sched).value.stopped
  {
    if sched != [] {
      var earlier := sched[..|sched| - 1];
      StopLasts(earlier);
      assert sched == earlier + [sched[|sched| - 1]];
    }
  }
}
