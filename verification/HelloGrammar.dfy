/** The ClientHello that server/sniffing/tls/client_hello.go accepts, as an encoder: section 4.1.2
    of RFC 8446 with the extensions that the code looks into, and server names as in section 3 of
    RFC 6066.  What the code demands beyond or short of that is part of the well-formedness. */
module HelloGrammar {
  import opened Bytes

  type u16 = x: int | 0 <= x < 0x1_0000

  // Vectors behind a length of n bytes

  predicate Width(n: nat) { n == 1 || n == 2 }

  function Limit(n: nat): nat { if n == 1 then 0x100 else 0x1_0000 }

  function U16Bytes(x: u16): seq<byte> { [x / 256, x % 256] }

  function Vec(n: nat, x: seq<byte>): seq<byte>
    requires Width(n) && |x| < Limit(n)
  {
    (if n == 1 then [|x|] else U16Bytes(|x|)) + x
  }

  function U16s(xs: seq<u16>): (s: seq<byte>)
    ensures |s| == 2 * |xs|
  {
    if xs == [] then [] else U16Bytes(xs[0]) + U16s(xs[1..])
  }

  // List items: a fixed head, a non-empty vector, and a fixed tail.  Server names have a type as
  // head, key shares a group; PSK identities have an age as tail.

  datatype Item = Item(head: seq<byte>, body: seq<byte>, tail: seq<byte>)

  datatype Shape = Shape(head: nat, width: nat, tail: nat)

  const NAME := Shape(1, 2, 0)
  const PROTOCOL := Shape(0, 1, 0)
  const SHARE := Shape(2, 2, 0)
  const IDENTITY := Shape(0, 2, 4)
  const BINDER := Shape(0, 1, 0)

  predicate Fits(sh: Shape, x: Item) {
    && Width(sh.width)
    && |x.head| == sh.head && |x.tail| == sh.tail && 0 < |x.body| < Limit(sh.width)
  }

  predicate AllFit(sh: Shape, xs: seq<Item>) {
    Width(sh.width) && forall k :: 0 <= k < |xs| ==> Fits(sh, xs[k])
  }

  function ItemBytes(sh: Shape, x: Item): seq<byte>
    requires Fits(sh, x)
  {
    x.head + Vec(sh.width, x.body) + x.tail
  }

  function Items(sh: Shape, xs: seq<Item>): seq<byte>
    requires AllFit(sh, xs)
  {
    if xs == [] then [] else ItemBytes(sh, xs[0]) + Items(sh, xs[1..])
  }

  // Extensions

  datatype Extension =
    | ServerName(names: seq<Item>)
    | StatusRequest(kind: byte, responders: seq<byte>, requests: seq<byte>)
    | SupportedCurves(curves: seq<u16>)
    | SupportedPoints(points: seq<byte>)
    | SignatureAlgorithms(algorithms: seq<u16>)
    | Alpn(protocols: seq<Item>)
    | Sct
    | ExtendedMasterSecret
    | SessionTicket(ticket: seq<byte>)
    | PreSharedKey(identities: seq<Item>, binders: seq<Item>)
    | EarlyData
    | SupportedVersions(versions: seq<u16>)
    | Cookie(cookie: seq<byte>)
    | PskModes(modes: seq<byte>)
    | SignatureAlgorithmsCert(algorithms: seq<u16>)
    | KeyShare(shares: seq<Item>)
    | QuicTransportParameters(parameters: seq<byte>)
    | RenegotiationInfo(info: seq<byte>)
    | Unknown(id: u16, data: seq<byte>)

  const PRE_SHARED_KEY: u16 := 41

  function Id(e: Extension): u16 {
    match e
    case ServerName(_) => 0
    case StatusRequest(_, _, _) => 5
    case SupportedCurves(_) => 10
    case SupportedPoints(_) => 11
    case SignatureAlgorithms(_) => 13
    case Alpn(_) => 16
    case Sct => 18
    case ExtendedMasterSecret => 23
    case SessionTicket(_) => 35
    case PreSharedKey(_, _) => PRE_SHARED_KEY
    case EarlyData => 42
    case SupportedVersions(_) => 43
    case Cookie(_) => 44
    case PskModes(_) => 45
    case SignatureAlgorithmsCert(_) => 50
    case KeyShare(_) => 51
    case QuicTransportParameters(_) => 57
    case RenegotiationInfo(_) => 0xff01
    case Unknown(id, _) => id
  }

  predicate Known(id: u16) {
    id in {0, 5, 10, 11, 13, 16, 18, 23, 35, 41, 42, 43, 44, 45, 50, 51, 57, 0xff01}
  }

  // At most one host name, which does not end in a dot; names of other types do not matter.
  predicate HostNames(names: seq<Item>) {
    && (forall j, k :: 0 <= j < k < |names| && IsHost(names[j]) ==> !IsHost(names[k]))
    && (forall k :: 0 <= k < |names| && IsHost(names[k]) ==> !EndsInDot(names[k].body))
  }

  predicate IsHost(x: Item) { x.head == [0] }

  predicate EndsInDot(s: seq<byte>) { s != [] && s[|s| - 1] == 0x2e }

  predicate ListOf(sh: Shape, xs: seq<Item>) {
    AllFit(sh, xs) && |Items(sh, xs)| < 0x1_0000
  }

  predicate WellFormedBody(e: Extension) {
    match e
    case ServerName(names) => ListOf(NAME, names) && names != [] && HostNames(names)
    case StatusRequest(kind, responders, requests) => |responders| < 0x1_0000 && |requests| < 0x1_0000
    case SupportedCurves(curves) => 0 < 2 * |curves| < 0x1_0000
    case SupportedPoints(points) => 0 < |points| < 0x100
    case SignatureAlgorithms(algorithms) => 0 < 2 * |algorithms| < 0x1_0000
    case Alpn(protocols) => ListOf(PROTOCOL, protocols) && protocols != []
    case PreSharedKey(identities, binders) =>
      ListOf(IDENTITY, identities) && identities != [] && ListOf(BINDER, binders) && binders != []
    case SupportedVersions(versions) => 0 < 2 * |versions| < 0x100
    case Cookie(cookie) => 0 < |cookie| < 0x1_0000
    case PskModes(modes) => |modes| < 0x100
    case SignatureAlgorithmsCert(algorithms) => 0 < 2 * |algorithms| < 0x1_0000
    case KeyShare(shares) => ListOf(SHARE, shares)
    case RenegotiationInfo(info) => |info| < 0x100
    case Unknown(id, data) => !Known(id)
    case _ => true
  }

  function Body(e: Extension): seq<byte>
    requires WellFormedBody(e)
  {
    match e
    case ServerName(names) => Vec(2, Items(NAME, names))
    case StatusRequest(kind, responders, requests) => [kind] + Vec(2, responders) + Vec(2, requests)
    case SupportedCurves(curves) => Vec(2, U16s(curves))
    case SupportedPoints(points) => Vec(1, points)
    case SignatureAlgorithms(algorithms) => Vec(2, U16s(algorithms))
    case Alpn(protocols) => Vec(2, Items(PROTOCOL, protocols))
    case Sct => []
    case ExtendedMasterSecret => []
    case SessionTicket(ticket) => ticket
    case PreSharedKey(identities, binders) => Vec(2, Items(IDENTITY, identities)) + Vec(2, Items(BINDER, binders))
    case EarlyData => []
    case SupportedVersions(versions) => Vec(1, U16s(versions))
    case Cookie(cookie) => Vec(2, cookie)
    case PskModes(modes) => Vec(1, modes)
    case SignatureAlgorithmsCert(algorithms) => Vec(2, U16s(algorithms))
    case KeyShare(shares) => Vec(2, Items(SHARE, shares))
    case QuicTransportParameters(parameters) => parameters
    case RenegotiationInfo(info) => Vec(1, info)
    case Unknown(id, data) => data
  }

  predicate WellFormedExtension(e: Extension) {
    WellFormedBody(e) && |Body(e)| < 0x1_0000
  }

  function ExtensionBytes(e: Extension): seq<byte>
    requires WellFormedExtension(e)
  {
    U16Bytes(Id(e)) + Vec(2, Body(e))
  }

  // Each extension at most once, and none of the ids in `seen`; pre_shared_key only at the end.
  predicate WellFormedList(es: seq<Extension>, seen: set<u16>) {
    && (forall k :: 0 <= k < |es| ==> WellFormedExtension(es[k]) && Id(es[k]) !in seen)
    && (forall j, k :: 0 <= j < k < |es| ==> Id(es[j]) != Id(es[k]))
    && (forall k :: 0 <= k < |es| - 1 ==> Id(es[k]) != PRE_SHARED_KEY)
  }

  function Extensions(es: seq<Extension>): seq<byte>
    requires forall k :: 0 <= k < |es| ==> WellFormedExtension(es[k])
  {
    if es == [] then [] else ExtensionBytes(es[0]) + Extensions(es[1..])
  }

  datatype Hello = Hello(
    header: seq<byte>,        // handshake type and length, which the code skips
    version: u16,
    random: seq<byte>,
    sessionId: seq<byte>,
    cipherSuites: seq<u16>,
    compressionMethods: seq<byte>,
    extensions: seq<Extension>
  )

  predicate WellFormed(h: Hello) {
    && |h.header| == 4 && |h.random| == 32 && |h.sessionId| < 0x100
    && 2 * |h.cipherSuites| < 0x1_0000 && |h.compressionMethods| < 0x100
    && WellFormedList(h.extensions, {}) && |Extensions(h.extensions)| < 0x1_0000
  }

  // The four vectors that end the message.
  datatype Parts = Parts(sessionId: seq<byte>, suites: seq<byte>, methods: seq<byte>, extensions: seq<byte>)

  predicate PartsFit(p: Parts) {
    |p.sessionId| < 0x100 && |p.suites| < 0x1_0000 && |p.methods| < 0x100 && |p.extensions| < 0x1_0000
  }

  function Join(p: Parts): seq<byte>
    requires PartsFit(p)
  {
    Vec(1, p.sessionId) + (Vec(2, p.suites) + (Vec(1, p.methods) + Vec(2, p.extensions)))
  }

  function Encode(h: Hello): seq<byte>
    requires WellFormed(h)
  {
    h.header + U16Bytes(h.version) + h.random
    + Join(Parts(h.sessionId, U16s(h.cipherSuites), h.compressionMethods, Extensions(h.extensions)))
  }
}

/** The encoding byte by byte, with every width and number written out. */
module HelloLayout {
  import opened Bytes
  import opened HelloGrammar

  lemma VecLayout(x: seq<byte>)
    ensures |x| < 0x100 ==> Vec(1, x) == [|x|] + x
    ensures |x| < 0x1_0000 ==> Vec(2, x) == [|x| / 256, |x| % 256] + x
  {
  }

  lemma {:induction false} U16sLayout(xs: seq<u16>, k: nat)
    requires k < |xs|
    ensures U16s(xs)[2 * k] == xs[k] / 256 && U16s(xs)[2 * k + 1] == xs[k] % 256
  {
    if k != 0 {
      U16sLayout(xs[1..], k - 1);
    }
  }

  // Server names: a type, and a name behind two bytes; protocols and PSK binders behind one; a key
  // share's group of two bytes, and its key behind two; a PSK identity behind two, and its age.
  lemma ItemLayout(x: Item)
    ensures Fits(NAME, x) ==> |x.head| == 1 && ItemBytes(NAME, x) == x.head + [|x.body| / 256, |x.body| % 256] + x.body
    ensures Fits(PROTOCOL, x) ==> ItemBytes(PROTOCOL, x) == [|x.body|] + x.body
    ensures Fits(BINDER, x) ==> ItemBytes(BINDER, x) == [|x.body|] + x.body
    ensures Fits(SHARE, x) ==>
      |x.head| == 2 && ItemBytes(SHARE, x) == x.head + [|x.body| / 256, |x.body| % 256] + x.body
    ensures Fits(IDENTITY, x) ==>
      |x.tail| == 4 && ItemBytes(IDENTITY, x) == [|x.body| / 256, |x.body| % 256] + x.body + x.tail
  {
  }

  lemma Grouped(a: seq<byte>, b: seq<byte>, c: seq<byte>)
    ensures a + (b + c) == a + b + c
  {
  }

  // Lists are written one item after the other.
  lemma {:induction false} ItemsLayout(sh: Shape, xs: seq<Item>, x: Item)
    requires AllFit(sh, xs) && Fits(sh, x)
    ensures AllFit(sh, xs + [x]) && Items(sh, xs + [x]) == Items(sh, xs) + ItemBytes(sh, x)
  {
    if xs == [] {
      assert [] + [x] == [x] && [x][1..] == [];
    } else {
      ItemsLayout(sh, xs[1..], x);
      assert (xs + [x])[1..] == xs[1..] + [x] && (xs + [x])[0] == xs[0];
      Grouped(ItemBytes(sh, xs[0]), Items(sh, xs[1..]), ItemBytes(sh, x));
    }
  }

  lemma {:induction false} ExtensionsLayout(es: seq<Extension>, e: Extension)
    requires forall k :: 0 <= k < |es| ==> WellFormedExtension(es[k])
    requires WellFormedExtension(e)
    ensures Extensions(es + [e]) == Extensions(es) + ExtensionBytes(e)
  {
    if es == [] {
      assert [] + [e] == [e] && [e][1..] == [];
    } else {
      var rest := es[1..];
      ExtensionsLayout(rest, e);
      assert (es + [e])[1..] == rest + [e] && (es + [e])[0] == es[0];
      Grouped(ExtensionBytes(es[0]), Extensions(rest), ExtensionBytes(e));
    }
  }

  function Long(x: seq<byte>): seq<byte>
    requires |x| < 0x1_0000
  {
    [|x| / 256, |x| % 256] + x
  }

  // The ids, and what stands in each extension's data.
  lemma BodyLayout(e: Extension)
    requires WellFormedBody(e)
    ensures e.ServerName? ==> Id(e) == 0 && Body(e) == Long(Items(NAME, e.names))
    ensures e.StatusRequest? ==> Id(e) == 5 && Body(e) == [e.kind] + Long(e.responders) + Long(e.requests)
    ensures e.SupportedCurves? ==> Id(e) == 10 && Body(e) == Long(U16s(e.curves))
    ensures e.SupportedPoints? ==> Id(e) == 11 && Body(e) == [|e.points|] + e.points
    ensures e.SignatureAlgorithms? ==> Id(e) == 13 && Body(e) == Long(U16s(e.algorithms))
    ensures e.Alpn? ==> Id(e) == 16 && Body(e) == Long(Items(PROTOCOL, e.protocols))
    ensures e.Sct? ==> Id(e) == 18 && Body(e) == []
    ensures e.ExtendedMasterSecret? ==> Id(e) == 23 && Body(e) == []
    ensures e.SessionTicket? ==> Id(e) == 35 && Body(e) == e.ticket
    ensures e.PreSharedKey? ==>
      Id(e) == 41 && Body(e) == Long(Items(IDENTITY, e.identities)) + Long(Items(BINDER, e.binders))
    ensures e.EarlyData? ==> Id(e) == 42 && Body(e) == []
    ensures e.SupportedVersions? ==> Id(e) == 43 && Body(e) == [2 * |e.versions|] + U16s(e.versions)
    ensures e.Cookie? ==> Id(e) == 44 && Body(e) == Long(e.cookie)
    ensures e.PskModes? ==> Id(e) == 45 && Body(e) == [|e.modes|] + e.modes
    ensures e.SignatureAlgorithmsCert? ==> Id(e) == 50 && Body(e) == Long(U16s(e.algorithms))
    ensures e.KeyShare? ==> Id(e) == 51 && Body(e) == Long(Items(SHARE, e.shares))
    ensures e.QuicTransportParameters? ==> Id(e) == 57 && Body(e) == e.parameters
    ensures e.RenegotiationInfo? ==> Id(e) == 0xff01 && Body(e) == [|e.info|] + e.info
    ensures e.Unknown? ==> Id(e) == e.id && Body(e) == e.data
  {
  }

  lemma ExtensionLayout(e: Extension)
    requires WellFormedExtension(e)
    ensures ExtensionBytes(e) == [Id(e) / 256, Id(e) % 256] + Long(Body(e))
  {
  }

  // The whole message: four bytes, the version, 32 random bytes, and the four vectors.
  lemma MessageLayout(h: Hello)
    requires WellFormed(h)
    ensures |h.header| == 4 && |h.random| == 32 && |U16s(h.cipherSuites)| < 0x1_0000
    ensures Encode(h) == h.header + [h.version / 256, h.version % 256] + h.random
      + ([|h.sessionId|] + h.sessionId + (Long(U16s(h.cipherSuites))
         + ([|h.compressionMethods|] + h.compressionMethods + Long(Extensions(h.extensions)))))
  {
  }
}

/** The inverse of the encoder, one layer at a time. */
module HelloDecoding {
  import opened Bytes
  import opened Wrappers
  import opened HelloGrammar

  datatype Split = Split(x: seq<byte>, rest: seq<byte>)

  function U16(s: seq<byte>): u16
    requires |s| == 2
  {
    s[0] as int * 256 + s[1]
  }

  function ParseVec(n: nat, s: seq<byte>): (r: Option<Split>)
    requires Width(n)
    ensures r.Some? ==> |r.value.rest| < |s|
  {
    if |s| < n then None
    else
      var l: int := if n == 1 then s[0] else U16(s[..2]);
      if |s| < n + l then None else Some(Split(s[n..n + l], s[n + l..]))
  }

  lemma VecSound(n: nat, s: seq<byte>)
    requires Width(n) && ParseVec(n, s).Some?
    ensures var v := ParseVec(n, s).value;
      |v.x| < Limit(n) && s == Vec(n, v.x) + v.rest
  {
  }

  lemma VecComplete(n: nat, x: seq<byte>, rest: seq<byte>)
    requires Width(n) && |x| < Limit(n)
    ensures ParseVec(n, Vec(n, x) + rest) == Some(Split(x, rest))
  {
    var s := Vec(n, x) + rest;
    assert s[n..n + |x|] == x && s[n + |x|..] == rest;
    if n == 2 {
      assert s[..2] == U16Bytes(|x|);
    }
  }

  // A vector is found again when more bytes follow.
  lemma VecExtends(n: nat, s: seq<byte>, more: seq<byte>)
    requires Width(n) && ParseVec(n, s).Some?
    ensures var v := ParseVec(n, s).value;
      ParseVec(n, s + more) == Some(Split(v.x, v.rest + more))
  {
    VecSound(n, s);
    var v := ParseVec(n, s).value;
    assert s + more == Vec(n, v.x) + (v.rest + more);
    VecComplete(n, v.x, v.rest + more);
  }

  function ParseU16s(s: seq<byte>): Option<seq<u16>> {
    if s == [] then Some([])
    else if |s| == 1 then None
    else
      var tail := ParseU16s(s[2..]);
      if tail.None? then None else Some([U16(s[..2])] + tail.value)
  }

  lemma {:induction false} U16sSound(s: seq<byte>)
    requires ParseU16s(s).Some?
    ensures U16s(ParseU16s(s).value) == s
  {
    if s != [] {
      U16sSound(s[2..]);
      var xs := ParseU16s(s).value;
      assert xs[1..] == ParseU16s(s[2..]).value;
      assert s == U16Bytes(xs[0]) + s[2..];
    }
  }

  lemma {:induction false} U16sComplete(xs: seq<u16>)
    ensures ParseU16s(U16s(xs)) == Some(xs)
  {
    if xs != [] {
      U16sComplete(xs[1..]);
      assert U16s(xs)[2..] == U16s(xs[1..]);
      assert U16s(xs)[..2] == U16Bytes(xs[0]);
      assert [xs[0]] + xs[1..] == xs;
    }
  }

  datatype ItemSplit = ItemSplit(x: Item, rest: seq<byte>)

  function ParseItem(sh: Shape, s: seq<byte>): (r: Option<ItemSplit>)
    requires Width(sh.width)
    ensures r.Some? ==> |r.value.rest| < |s|
  {
    if |s| < sh.head then None
    else
      var v := ParseVec(sh.width, s[sh.head..]);
      if v.None? || v.value.x == [] || |v.value.rest| < sh.tail then None
      else Some(ItemSplit(Item(s[..sh.head], v.value.x, v.value.rest[..sh.tail]), v.value.rest[sh.tail..]))
  }

  lemma Regroup(a: seq<byte>, b: seq<byte>, c: seq<byte>, d: seq<byte>)
    ensures a + (b + (c + d)) == a + b + c + d
  {
  }

  lemma Rejoin(s: seq<byte>, n: nat)
    requires n <= |s|
    ensures s == s[..n] + s[n..]
  {
  }

  lemma ItemSound(sh: Shape, s: seq<byte>)
    requires Width(sh.width) && ParseItem(sh, s).Some?
    ensures var v := ParseItem(sh, s).value;
      Fits(sh, v.x) && s == ItemBytes(sh, v.x) + v.rest
  {
    VecSound(sh.width, s[sh.head..]);
    var v := ParseVec(sh.width, s[sh.head..]).value;
    var tail, rest := v.rest[..sh.tail], v.rest[sh.tail..];
    Rejoin(v.rest, sh.tail);
    Rejoin(s, sh.head);
    Regroup(s[..sh.head], Vec(sh.width, v.x), tail, rest);
  }

  lemma ItemComplete(sh: Shape, x: Item, rest: seq<byte>)
    requires Fits(sh, x)
    ensures ParseItem(sh, ItemBytes(sh, x) + rest) == Some(ItemSplit(x, rest))
  {
    var s := ItemBytes(sh, x) + rest;
    assert s[..sh.head] == x.head;
    assert s[sh.head..] == Vec(sh.width, x.body) + (x.tail + rest);
    VecComplete(sh.width, x.body, x.tail + rest);
    assert (x.tail + rest)[..sh.tail] == x.tail && (x.tail + rest)[sh.tail..] == rest;
  }

  function ParseItems(sh: Shape, s: seq<byte>): Option<seq<Item>>
    requires Width(sh.width)
    decreases |s|
  {
    if s == [] then Some([])
    else
      var v := ParseItem(sh, s);
      if v.None? then None
      else
        var tail := ParseItems(sh, v.value.rest);
        if tail.None? then None else Some([v.value.x] + tail.value)
  }

  lemma {:induction false} ItemsSound(sh: Shape, s: seq<byte>)
    requires Width(sh.width) && ParseItems(sh, s).Some?
    ensures AllFit(sh, ParseItems(sh, s).value) && Items(sh, ParseItems(sh, s).value) == s
    decreases |s|
  {
    if s != [] {
      ItemSound(sh, s);
      ItemsSound(sh, ParseItem(sh, s).value.rest);
      var xs := ParseItems(sh, s).value;
      assert xs[1..] == ParseItems(sh, ParseItem(sh, s).value.rest).value;
    }
  }

  lemma ItemsNotEmpty(sh: Shape, xs: seq<Item>)
    requires AllFit(sh, xs) && xs != []
    ensures Items(sh, xs) != []
  {
    assert |ItemBytes(sh, xs[0])| >= |xs[0].body|;
  }

  lemma {:induction false} ItemsComplete(sh: Shape, xs: seq<Item>)
    requires AllFit(sh, xs)
    ensures ParseItems(sh, Items(sh, xs)) == Some(xs)
  {
    if xs != [] {
      ItemsComplete(sh, xs[1..]);
      ItemComplete(sh, xs[0], Items(sh, xs[1..]));
      ItemsNotEmpty(sh, xs);
      assert [xs[0]] + xs[1..] == xs;
    }
  }

  // A vector and nothing after it

  function WholeVec(n: nat, data: seq<byte>): Option<seq<byte>>
    requires Width(n)
  {
    var v := ParseVec(n, data);
    if v.None? || v.value.rest != [] then None else Some(v.value.x)
  }

  lemma WholeVecSound(n: nat, data: seq<byte>)
    requires Width(n) && WholeVec(n, data).Some?
    ensures |WholeVec(n, data).value| < Limit(n) && Vec(n, WholeVec(n, data).value) == data
  {
    VecSound(n, data);
    var x := WholeVec(n, data).value;
    assert Vec(n, x) + [] == Vec(n, x);
  }

  lemma WholeVecComplete(n: nat, x: seq<byte>)
    requires Width(n) && |x| < Limit(n)
    ensures WholeVec(n, Vec(n, x)) == Some(x)
  {
    VecComplete(n, x, []);
    assert Vec(n, x) + [] == Vec(n, x);
  }

  function WholeU16s(n: nat, data: seq<byte>): Option<seq<u16>>
    requires Width(n)
  {
    var v := WholeVec(n, data);
    if v.None? then None else ParseU16s(v.value)
  }

  lemma WholeU16sSound(n: nat, data: seq<byte>)
    requires Width(n) && WholeU16s(n, data).Some?
    ensures 2 * |WholeU16s(n, data).value| < Limit(n) && Vec(n, U16s(WholeU16s(n, data).value)) == data
  {
    WholeVecSound(n, data);
    U16sSound(WholeVec(n, data).value);
  }

  lemma WholeU16sComplete(n: nat, xs: seq<u16>)
    requires Width(n) && 2 * |xs| < Limit(n)
    ensures WholeU16s(n, Vec(n, U16s(xs))) == Some(xs)
  {
    WholeVecComplete(n, U16s(xs));
    U16sComplete(xs);
  }

  function WholeItems(sh: Shape, data: seq<byte>): Option<seq<Item>>
    requires Width(sh.width)
  {
    var v := WholeVec(2, data);
    if v.None? then None else ParseItems(sh, v.value)
  }

  lemma WholeItemsSound(sh: Shape, data: seq<byte>)
    requires Width(sh.width) && WholeItems(sh, data).Some?
    ensures var xs := WholeItems(sh, data).value; ListOf(sh, xs) && Vec(2, Items(sh, xs)) == data
  {
    WholeVecSound(2, data);
    ItemsSound(sh, WholeVec(2, data).value);
  }

  lemma WholeItemsComplete(sh: Shape, xs: seq<Item>)
    requires ListOf(sh, xs)
    ensures WholeItems(sh, Vec(2, Items(sh, xs))) == Some(xs)
  {
    WholeVecComplete(2, Items(sh, xs));
    ItemsComplete(sh, xs);
  }

  // Extension bodies

  function NonEmpty<T(==)>(xs: Option<seq<T>>): Option<seq<T>> {
    if xs == Some([]) then None else xs
  }

  function ParseStatusRequest(data: seq<byte>): Option<Extension> {
    if data == [] then None
    else
      var responders := ParseVec(2, data[1..]);
      if responders.None? then None
      else
        var requests := WholeVec(2, responders.value.rest);
        if requests.None? then None else Some(StatusRequest(data[0], responders.value.x, requests.value))
  }

  function ParsePreSharedKey(data: seq<byte>): Option<Extension> {
    var v := ParseVec(2, data);
    if v.None? then None
    else
      var identities := NonEmpty(ParseItems(IDENTITY, v.value.x));
      var binders := NonEmpty(WholeItems(BINDER, v.value.rest));
      if identities.None? || binders.None? then None else Some(PreSharedKey(identities.value, binders.value))
  }

  // Lists of 16-bit numbers: curves, signature algorithms, versions.
  function ParseNumbers(id: u16, data: seq<byte>): Option<Extension> {
    var xs := NonEmpty(WholeU16s(if id == 43 then 1 else 2, data));
    if xs.None? then None
    else Some(if id == 10 then SupportedCurves(xs.value)
              else if id == 13 then SignatureAlgorithms(xs.value)
              else if id == 43 then SupportedVersions(xs.value)
              else SignatureAlgorithmsCert(xs.value))
  }

  // One vector of bytes; two of the four may be empty.
  function ParseOpaque(id: u16, data: seq<byte>): Option<Extension> {
    var x := WholeVec(if id == 44 then 2 else 1, data);
    if x.None? || (x.value == [] && (id == 11 || id == 44)) then None
    else Some(if id == 11 then SupportedPoints(x.value)
              else if id == 44 then Cookie(x.value)
              else if id == 45 then PskModes(x.value)
              else RenegotiationInfo(x.value))
  }

  // Lists of items; only the key shares may be empty.
  function ParseList(id: u16, data: seq<byte>): Option<Extension> {
    var xs := WholeItems(if id == 0 then NAME else if id == 16 then PROTOCOL else SHARE, data);
    if xs.None? || (xs.value == [] && id != 51) || (id == 0 && !HostNames(xs.value)) then None
    else Some(if id == 0 then ServerName(xs.value) else if id == 16 then Alpn(xs.value) else KeyShare(xs.value))
  }

  // Extensions that must be empty.
  function ParseFlag(id: u16, data: seq<byte>): Option<Extension> {
    if data != [] then None
    else Some(if id == 18 then Sct else if id == 23 then ExtendedMasterSecret else EarlyData)
  }

  function ParseBody(id: u16, data: seq<byte>): Option<Extension> {
    if id in {10, 13, 43, 50} then ParseNumbers(id, data)
    else if id in {11, 44, 45, 0xff01} then ParseOpaque(id, data)
    else if id in {0, 16, 51} then ParseList(id, data)
    else if id in {18, 23, 42} then ParseFlag(id, data)
    else if id == 5 then ParseStatusRequest(data)
    else if id == PRE_SHARED_KEY then ParsePreSharedKey(data)
    else if id == 35 then Some(SessionTicket(data))
    else if id == 57 then Some(QuicTransportParameters(data))
    else Some(Unknown(id, data))
  }

  // `e` is what the body `data` of an extension `id` encodes.
  ghost predicate Reads(id: u16, data: seq<byte>, e: Extension) {
    Id(e) == id && WellFormedBody(e) && Body(e) == data
  }

  lemma Behind(data: seq<byte>, a: seq<byte>, b: seq<byte>)
    requires data != [] && data[1..] == a + b
    ensures data == [data[0]] + a + b
  {
  }

  lemma InFront(kind: byte, a: seq<byte>, b: seq<byte>)
    ensures ([kind] + a + b)[1..] == a + b && ([kind] + a + b)[0] == kind
  {
  }

  lemma StatusRequestSound(data: seq<byte>)
    requires ParseStatusRequest(data).Some?
    ensures Reads(5, data, ParseStatusRequest(data).value)
  {
    var v := ParseVec(2, data[1..]).value;
    VecSound(2, data[1..]);
    WholeVecSound(2, v.rest);
    Behind(data, Vec(2, v.x), v.rest);
  }

  lemma StatusRequestComplete(e: Extension)
    requires e.StatusRequest? && WellFormedBody(e)
    ensures ParseStatusRequest(Body(e)) == Some(e)
  {
    InFront(e.kind, Vec(2, e.responders), Vec(2, e.requests));
    VecComplete(2, e.responders, Vec(2, e.requests));
    WholeVecComplete(2, e.requests);
  }

  lemma PreSharedKeySound(data: seq<byte>)
    requires ParsePreSharedKey(data).Some?
    ensures Reads(PRE_SHARED_KEY, data, ParsePreSharedKey(data).value)
  {
    var v := ParseVec(2, data).value;
    VecSound(2, data);
    ItemsSound(IDENTITY, v.x);
    WholeItemsSound(BINDER, v.rest);
    PreSharedKeyReads(ParseItems(IDENTITY, v.x).value, WholeItems(BINDER, v.rest).value);
  }

  lemma PreSharedKeyReads(xs: seq<Item>, ys: seq<Item>)
    requires ListOf(IDENTITY, xs) && xs != [] && ListOf(BINDER, ys) && ys != []
    ensures Reads(PRE_SHARED_KEY, Vec(2, Items(IDENTITY, xs)) + Vec(2, Items(BINDER, ys)), PreSharedKey(xs, ys))
  {
  }

  lemma PreSharedKeyComplete(e: Extension)
    requires e.PreSharedKey? && WellFormedBody(e)
    ensures ParsePreSharedKey(Body(e)) == Some(e)
  {
    VecComplete(2, Items(IDENTITY, e.identities), Vec(2, Items(BINDER, e.binders)));
    ItemsComplete(IDENTITY, e.identities);
    WholeItemsComplete(BINDER, e.binders);
  }

  lemma NumbersSound(id: u16, data: seq<byte>)
    requires id in {10, 13, 43, 50} && ParseNumbers(id, data).Some?
    ensures Reads(id, data, ParseNumbers(id, data).value)
  {
    WholeU16sSound(if id == 43 then 1 else 2, data);
  }

  lemma NumbersComplete(e: Extension)
    requires WellFormedBody(e) && Id(e) in {10, 13, 43, 50}
    ensures ParseNumbers(Id(e), Body(e)) == Some(e)
  {
    match e
    case SupportedCurves(xs) => WholeU16sComplete(2, xs);
    case SignatureAlgorithms(xs) => WholeU16sComplete(2, xs);
    case SignatureAlgorithmsCert(xs) => WholeU16sComplete(2, xs);
    case SupportedVersions(xs) => WholeU16sComplete(1, xs);
  }

  lemma OpaqueSound(id: u16, data: seq<byte>)
    requires id in {11, 44, 45, 0xff01} && ParseOpaque(id, data).Some?
    ensures Reads(id, data, ParseOpaque(id, data).value)
  {
    WholeVecSound(if id == 44 then 2 else 1, data);
  }

  lemma OpaqueComplete(e: Extension)
    requires WellFormedBody(e) && Id(e) in {11, 44, 45, 0xff01}
    ensures ParseOpaque(Id(e), Body(e)) == Some(e)
  {
    match e
    case SupportedPoints(x) => WholeVecComplete(1, x);
    case Cookie(x) => WholeVecComplete(2, x);
    case PskModes(x) => WholeVecComplete(1, x);
    case RenegotiationInfo(x) => WholeVecComplete(1, x);
  }

  lemma ListSound(id: u16, data: seq<byte>)
    requires id in {0, 16, 51} && ParseList(id, data).Some?
    ensures Reads(id, data, ParseList(id, data).value)
  {
    if id == 0 {
      WholeItemsSound(NAME, data);
      assert ParseList(id, data).value == ServerName(WholeItems(NAME, data).value);
    } else if id == 16 {
      WholeItemsSound(PROTOCOL, data);
      assert ParseList(id, data).value == Alpn(WholeItems(PROTOCOL, data).value);
    } else {
      WholeItemsSound(SHARE, data);
      assert ParseList(id, data).value == KeyShare(WholeItems(SHARE, data).value);
    }
  }

  lemma ListComplete(e: Extension)
    requires WellFormedBody(e) && Id(e) in {0, 16, 51}
    ensures ParseList(Id(e), Body(e)) == Some(e)
  {
    match e
    case ServerName(xs) => WholeItemsComplete(NAME, xs);
    case Alpn(xs) => WholeItemsComplete(PROTOCOL, xs);
    case KeyShare(xs) => WholeItemsComplete(SHARE, xs);
  }

  lemma BodySound(id: u16, data: seq<byte>)
    requires ParseBody(id, data).Some?
    ensures Reads(id, data, ParseBody(id, data).value)
  {
    if id in {10, 13, 43, 50} {
      NumbersSound(id, data);
    } else if id in {11, 44, 45, 0xff01} {
      OpaqueSound(id, data);
    } else if id in {0, 16, 51} {
      ListSound(id, data);
    } else if id == 5 {
      StatusRequestSound(data);
    } else if id == PRE_SHARED_KEY {
      PreSharedKeySound(data);
    }
  }

  lemma BodyComplete(e: Extension)
    requires WellFormedBody(e)
    ensures ParseBody(Id(e), Body(e)) == Some(e)
  {
    if Id(e) in {10, 13, 43, 50} {
      NumbersComplete(e);
    } else if Id(e) in {11, 44, 45, 0xff01} {
      OpaqueComplete(e);
    } else if Id(e) in {0, 16, 51} {
      ListComplete(e);
    } else if e.StatusRequest? {
      StatusRequestComplete(e);
    } else if e.PreSharedKey? {
      PreSharedKeyComplete(e);
    }
  }

  // The extension list

  datatype ExtensionSplit = ExtensionSplit(e: Extension, rest: seq<byte>)

  function ParseExtension(s: seq<byte>): (r: Option<ExtensionSplit>)
    ensures r.Some? ==> |r.value.rest| < |s|
  {
    if |s| < 2 then None
    else
      var v := ParseVec(2, s[2..]);
      if v.None? then None
      else
        var e := ParseBody(U16(s[..2]), v.value.x);
        if e.None? then None else Some(ExtensionSplit(e.value, v.value.rest))
  }

  lemma ExtensionSound(s: seq<byte>)
    requires ParseExtension(s).Some?
    ensures var v := ParseExtension(s).value;
      WellFormedExtension(v.e) && Id(v.e) == U16(s[..2]) && s == ExtensionBytes(v.e) + v.rest
  {
    VecSound(2, s[2..]);
    BodySound(U16(s[..2]), ParseVec(2, s[2..]).value.x);
    assert s == U16Bytes(U16(s[..2])) + s[2..];
  }

  lemma FrameComplete(id: u16, data: seq<byte>, rest: seq<byte>)
    requires |data| < 0x1_0000
    ensures var e := ParseBody(id, data);
      ParseExtension(U16Bytes(id) + Vec(2, data) + rest)
        == if e.None? then None else Some(ExtensionSplit(e.value, rest))
  {
    var s := U16Bytes(id) + Vec(2, data) + rest;
    assert s[..2] == U16Bytes(id) && s[2..] == Vec(2, data) + rest;
    VecComplete(2, data, rest);
  }

  lemma ExtensionComplete(e: Extension, rest: seq<byte>)
    requires WellFormedExtension(e)
    ensures ParseExtension(ExtensionBytes(e) + rest) == Some(ExtensionSplit(e, rest))
  {
    FrameComplete(Id(e), Body(e), rest);
    BodyComplete(e);
  }

  function ParseExtensions(s: seq<byte>, seen: set<u16>): Option<seq<Extension>>
    decreases |s|
  {
    if s == [] then Some([])
    else
      var v := ParseExtension(s);
      if v.None? || Id(v.value.e) in seen || (Id(v.value.e) == PRE_SHARED_KEY && v.value.rest != []) then None
      else
        var tail := ParseExtensions(v.value.rest, seen + {Id(v.value.e)});
        if tail.None? then None else Some([v.value.e] + tail.value)
  }

  lemma {:induction false} ExtensionsSound(s: seq<byte>, seen: set<u16>)
    requires ParseExtensions(s, seen).Some?
    ensures var es := ParseExtensions(s, seen).value; WellFormedList(es, seen) && Extensions(es) == s
    decreases |s|
  {
    if s != [] {
      ExtensionSound(s);
      var v := ParseExtension(s).value;
      var rest := ParseExtensions(v.rest, seen + {Id(v.e)}).value;
      ExtensionsSound(v.rest, seen + {Id(v.e)});
      ListGrows(v.e, rest, seen);
      assert ([v.e] + rest)[1..] == rest;
    }
  }

  lemma Apart(e: Extension, rest: seq<Extension>)
    requires forall k :: 0 <= k < |rest| ==> Id(rest[k]) != Id(e)
    requires forall j, k :: 0 <= j < k < |rest| ==> Id(rest[j]) != Id(rest[k])
    ensures var es := [e] + rest; forall j, k :: 0 <= j < k < |es| ==> Id(es[j]) != Id(es[k])
  {
    var es := [e] + rest;
    forall j, k | 0 <= j < k < |es|
      ensures Id(es[j]) != Id(es[k])
    {
      assert es[k] == rest[k - 1];
      if j != 0 {
        assert es[j] == rest[j - 1];
      }
    }
  }

  lemma ListGrows(e: Extension, rest: seq<Extension>, seen: set<u16>)
    requires WellFormedExtension(e) && Id(e) !in seen && WellFormedList(rest, seen + {Id(e)})
    requires Id(e) == PRE_SHARED_KEY ==> rest == []
    ensures WellFormedList([e] + rest, seen)
  {
    var es := [e] + rest;
    forall k | 0 <= k < |rest|
      ensures Id(rest[k]) != Id(e) && Id(rest[k]) !in seen
    {
      assert Id(rest[k]) !in seen + {Id(e)};
    }
    Apart(e, rest);
    forall k | 0 <= k < |es|
      ensures WellFormedExtension(es[k]) && Id(es[k]) !in seen
      ensures k < |es| - 1 ==> Id(es[k]) != PRE_SHARED_KEY
    {
      if k != 0 {
        assert es[k] == rest[k - 1];
      }
    }
  }

  lemma {:induction false} ExtensionsComplete(es: seq<Extension>, seen: set<u16>)
    requires WellFormedList(es, seen)
    ensures ParseExtensions(Extensions(es), seen) == Some(es)
  {
    if es != [] {
      var e, rest := es[0], es[1..];
      assert forall k :: 0 <= k < |rest| ==> rest[k] == es[k + 1];
      ExtensionsComplete(rest, seen + {Id(e)});
      ExtensionComplete(e, Extensions(rest));
      assert Extensions(es) != [];
      assert [e] + rest == es;
      if Id(e) == PRE_SHARED_KEY {
        assert rest == [];
      }
    }
  }

  // The whole message

  function Cut(s: seq<byte>): Option<Parts> {
    var sessionId := ParseVec(1, s);
    if sessionId.None? then None
    else
      var suites := ParseVec(2, sessionId.value.rest);
      if suites.None? then None
      else
        var methods := ParseVec(1, suites.value.rest);
        if methods.None? then None
        else
          var extensions := WholeVec(2, methods.value.rest);
          if extensions.None? then None
          else Some(Parts(sessionId.value.x, suites.value.x, methods.value.x, extensions.value))
  }

  lemma CutSound(s: seq<byte>)
    requires Cut(s).Some?
    ensures PartsFit(Cut(s).value) && Join(Cut(s).value) == s
  {
    VecSound(1, s);
    var t := ParseVec(1, s).value.rest;
    VecSound(2, t);
    var u := ParseVec(2, t).value.rest;
    VecSound(1, u);
    WholeVecSound(2, ParseVec(1, u).value.rest);
  }

  lemma CutComplete(p: Parts)
    requires PartsFit(p)
    ensures Cut(Join(p)) == Some(p)
  {
    var u := Vec(1, p.methods) + Vec(2, p.extensions);
    var t := Vec(2, p.suites) + u;
    VecComplete(1, p.sessionId, t);
    VecComplete(2, p.suites, u);
    VecComplete(1, p.methods, Vec(2, p.extensions));
    WholeVecComplete(2, p.extensions);
  }

  lemma CutPrefixFree(s: seq<byte>, more: seq<byte>)
    requires Cut(s).Some? && Cut(s + more).Some?
    ensures more == []
  {
    VecExtends(1, s, more);
    var t := ParseVec(1, s).value.rest;
    VecExtends(2, t, more);
    var u := ParseVec(2, t).value.rest;
    VecExtends(1, u, more);
    VecExtends(2, ParseVec(1, u).value.rest, more);
  }

  function Parse(data: seq<byte>): Option<Hello> {
    if |data| < 38 then None
    else
      var p := Cut(data[38..]);
      if p.None? then None
      else
        var suites := ParseU16s(p.value.suites);
        var extensions := ParseExtensions(p.value.extensions, {});
        if suites.None? || extensions.None? then None
        else Some(Hello(data[..4], U16(data[4..6]), data[6..38], p.value.sessionId, suites.value,
                        p.value.methods, extensions.value))
  }

  // Everything accepted is the encoding of the well-formed hello that it is read as ...
  lemma ParseSound(data: seq<byte>)
    requires Parse(data).Some?
    ensures WellFormed(Parse(data).value) && Encode(Parse(data).value) == data
  {
    CutSound(data[38..]);
    var p := Cut(data[38..]).value;
    U16sSound(p.suites);
    ExtensionsSound(p.extensions, {});
    FixedPart(data);
  }

  lemma FixedPart(data: seq<byte>)
    requires 38 <= |data|
    ensures data[..4] + U16Bytes(U16(data[4..6])) + data[6..38] + data[38..] == data
  {
    assert U16Bytes(U16(data[4..6])) == data[4..6];
  }

  // ... and every well-formed hello is accepted and read as itself.
  lemma ParseComplete(h: Hello)
    requires WellFormed(h)
    ensures Parse(Encode(h)) == Some(h)
  {
    var p := Parts(h.sessionId, U16s(h.cipherSuites), h.compressionMethods, Extensions(h.extensions));
    FixedComplete(h.header, h.version, h.random, Join(p));
    CutComplete(p);
    U16sComplete(h.cipherSuites);
    ExtensionsComplete(h.extensions, {});
  }

  lemma FixedComplete(header: seq<byte>, version: u16, random: seq<byte>, rest: seq<byte>)
    requires |header| == 4 && |random| == 32
    ensures var data := header + U16Bytes(version) + random + rest;
      data[..4] == header && U16(data[4..6]) == version && data[6..38] == random && data[38..] == rest
  {
    var data := header + U16Bytes(version) + random + rest;
    assert data[4..6] == U16Bytes(version);
  }

  lemma ParseCuts(data: seq<byte>)
    requires Parse(data).Some?
    ensures 38 <= |data| && Cut(data[38..]).Some?
  {
  }

  // The accepted language is prefix-free: accepted data followed by anything more is rejected.
  lemma PrefixFree(data: seq<byte>, more: seq<byte>)
    requires Parse(data).Some? && Parse(data + more).Some?
    ensures more == []
  {
    ParseCuts(data);
    ParseCuts(data + more);
    assert (data + more)[38..] == data[38..] + more;
    CutPrefixFree(data[38..], more);
  }

  // The conditions on what is accepted, spelled out: each id once, pre_shared_key at the end, the
  // lists and vectors that may not be empty, and at most one host name, which does not end in a dot.
  lemma AcceptedShape(data: seq<byte>)
    requires Parse(data).Some?
    ensures var es := Parse(data).value.extensions;
      && (forall j, k :: 0 <= j < k < |es| ==> Id(es[j]) != Id(es[k]))
      && (forall k :: 0 <= k < |es| && Id(es[k]) == 41 ==> k == |es| - 1)
      && (forall k :: 0 <= k < |es| ==> Demanded(es[k]))
  {
    ParseSound(data);
    var es := Parse(data).value.extensions;
    forall k | 0 <= k < |es|
      ensures Demanded(es[k])
    {
      assert WellFormedBody(es[k]);
      BodyDemands(es[k]);
    }
  }

  ghost predicate NoneEmpty(xs: seq<Item>) { xs != [] && forall k :: 0 <= k < |xs| ==> xs[k].body != [] }

  ghost predicate Demanded(e: Extension) {
    && (e.ServerName? ==>
          && NoneEmpty(e.names)
          && (forall j, k :: 0 <= j < k < |e.names| && e.names[j].head == [0] ==> e.names[k].head != [0])
          && (forall k :: 0 <= k < |e.names| && e.names[k].head == [0] ==>
                e.names[k].body[|e.names[k].body| - 1] != 0x2e))
    && (e.SupportedCurves? ==> e.curves != [])
    && (e.SupportedPoints? ==> e.points != [])
    && ((e.SignatureAlgorithms? || e.SignatureAlgorithmsCert?) ==> e.algorithms != [])
    && (e.Alpn? ==> NoneEmpty(e.protocols))
    && (e.SupportedVersions? ==> e.versions != [])
    && (e.Cookie? ==> e.cookie != [])
    && (e.KeyShare? ==> forall k :: 0 <= k < |e.shares| ==> e.shares[k].body != [])
    && (e.PreSharedKey? ==> NoneEmpty(e.identities) && NoneEmpty(e.binders))
  }

  lemma BodyDemands(e: Extension)
    requires WellFormedBody(e)
    ensures Demanded(e)
  {
    if e.ServerName? {
      assert forall k :: 0 <= k < |e.names| ==> Fits(NAME, e.names[k]);
    } else if e.Alpn? {
      assert forall k :: 0 <= k < |e.protocols| ==> Fits(PROTOCOL, e.protocols[k]);
    } else if e.KeyShare? {
      assert forall k :: 0 <= k < |e.shares| ==> Fits(SHARE, e.shares[k]);
    } else if e.PreSharedKey? {
      assert forall k :: 0 <= k < |e.identities| ==> Fits(IDENTITY, e.identities[k]);
      assert forall k :: 0 <= k < |e.binders| ==> Fits(BINDER, e.binders[k]);
    }
  }

  // And what is accepted empty all the same, or whatever it holds.
  lemma AcceptedBodies(id: u16, data: seq<byte>)
    ensures ParseBody(51, [0, 0]) == Some(KeyShare([])) && ParseBody(45, [0]) == Some(PskModes([]))
    ensures ParseBody(0xff01, [0]) == Some(RenegotiationInfo([]))
    ensures id == 35 ==> ParseBody(id, data) == Some(SessionTicket(data))
    ensures id == 57 ==> ParseBody(id, data) == Some(QuicTransportParameters(data))
    ensures id !in {0, 5, 10, 11, 13, 16, 18, 23, 35, 41, 42, 43, 44, 45, 50, 51, 57, 0xff01} ==>
      ParseBody(id, data) == Some(Unknown(id, data))
  {
    assert Items(SHARE, []) == [];
    assert Body(KeyShare([])) == [0, 0] && Body(PskModes([])) == [0] && Body(RenegotiationInfo([])) == [0];
    BodyComplete(KeyShare([]));
    BodyComplete(PskModes([]));
    BodyComplete(RenegotiationInfo([]));
  }
}
