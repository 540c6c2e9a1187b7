/** server/sniffing/tls/client_hello.go: the parser, loop by loop, proved to accept exactly the
    grammar's language and to fill in exactly the fields of the hello it accepts. */
module ClientHello {
  import opened Bytes
  import opened Wrappers
  import opened HelloGrammar
  import opened HelloDecoding

  const SCSV_RENEGOTIATION: u16 := 0x00ff
  const STATUS_TYPE_OCSP: byte := 1

  datatype Share = Share(group: u16, data: seq<byte>)

  datatype PskIdentity = PskIdentity(identity: seq<byte>, age: int)

  // The fields that unmarshal ever sets.
  datatype Message = Message(
    vers: u16,
    random: seq<byte>,
    sessionId: seq<byte>,
    cipherSuites: seq<u16>,
    compressionMethods: seq<byte>,
    serverName: seq<byte>,
    ocspStapling: bool,
    supportedCurves: seq<u16>,
    supportedPoints: seq<byte>,
    ticketSupported: bool,
    sessionTicket: seq<byte>,
    signatureAlgorithms: seq<u16>,
    signatureAlgorithmsCert: seq<u16>,
    secureRenegotiationSupported: bool,
    secureRenegotiation: seq<byte>,
    extendedMasterSecret: bool,
    alpnProtocols: seq<seq<byte>>,
    scts: bool,
    supportedVersions: seq<u16>,
    cookie: seq<byte>,
    keyShares: seq<Share>,
    earlyData: bool,
    pskModes: seq<byte>,
    pskIdentities: seq<PskIdentity>,
    pskBinders: seq<seq<byte>>,
    quicTransportParameters: seq<byte>
  )

  const Blank := Message(0, [], [], [], [], [], false, [], [], false, [], [], [], false, [], false, [],
                         false, [], [], [], false, [], [], [], [])

  // What a hello says, field by field

  function Lookup(es: seq<Extension>, id: u16): Option<Extension> {
    if es == [] then None
    else if Id(es[|es| - 1]) == id then Some(es[|es| - 1])
    else Lookup(es[..|es| - 1], id)
  }

  // The host name among server names.
  function HostOf(names: seq<Item>): seq<byte> {
    if names == [] then []
    else if IsHost(names[|names| - 1]) then names[|names| - 1].body
    else HostOf(names[..|names| - 1])
  }

  function Bodies(xs: seq<Item>): seq<seq<byte>> {
    seq(|xs|, k requires 0 <= k < |xs| => xs[k].body)
  }

  function ShareOf(x: Item): Share {
    Share(if |x.head| == 2 then U16(x.head) else 0, x.body)
  }

  function Shares(xs: seq<Item>): seq<Share> {
    seq(|xs|, k requires 0 <= k < |xs| => ShareOf(xs[k]))
  }

  function IdentityOf(x: Item): PskIdentity {
    PskIdentity(x.body, if |x.tail| == 4 then U16(x.tail[..2]) as int * 0x1_0000 + U16(x.tail[2..]) else 0)
  }

  function Identities(xs: seq<Item>): seq<PskIdentity> {
    seq(|xs|, k requires 0 <= k < |xs| => IdentityOf(xs[k]))
  }

  // The payloads of an extension, nothing where there is none.

  function NumbersIn(o: Option<Extension>): seq<u16> {
    if o.None? then []
    else match o.value
      case SupportedCurves(xs) => xs
      case SignatureAlgorithms(xs) => xs
      case SignatureAlgorithmsCert(xs) => xs
      case SupportedVersions(xs) => xs
      case _ => []
  }

  function BytesIn(o: Option<Extension>): seq<byte> {
    if o.None? then []
    else match o.value
      case SupportedPoints(x) => x
      case SessionTicket(x) => x
      case Cookie(x) => x
      case PskModes(x) => x
      case QuicTransportParameters(x) => x
      case RenegotiationInfo(x) => x
      case _ => []
  }

  function ItemsIn(o: Option<Extension>): seq<Item> {
    if o.None? then []
    else match o.value
      case ServerName(xs) => xs
      case Alpn(xs) => xs
      case KeyShare(xs) => xs
      case PreSharedKey(xs, _) => xs
      case _ => []
  }

  function BindersIn(o: Option<Extension>): seq<Item> {
    if o.Some? && o.value.PreSharedKey? then o.value.binders else []
  }

  function OcspIn(o: Option<Extension>): bool {
    o.Some? && o.value.StatusRequest? && o.value.kind == STATUS_TYPE_OCSP
  }

  // The fields that come from extensions, one look-up each.
  ghost predicate Reflects(m: Message, es: seq<Extension>) {
    ReflectsLists(m, es) && ReflectsNumbers(m, es) && ReflectsBytes(m, es) && ReflectsFlags(m, es)
  }

  ghost predicate ReflectsLists(m: Message, es: seq<Extension>) {
    && m.serverName == HostOf(ItemsIn(Lookup(es, 0)))
    && m.alpnProtocols == Bodies(ItemsIn(Lookup(es, 16)))
    && m.keyShares == Shares(ItemsIn(Lookup(es, 51)))
    && m.pskIdentities == Identities(ItemsIn(Lookup(es, 41)))
    && m.pskBinders == Bodies(BindersIn(Lookup(es, 41)))
  }

  ghost predicate ReflectsNumbers(m: Message, es: seq<Extension>) {
    && m.supportedCurves == NumbersIn(Lookup(es, 10))
    && m.signatureAlgorithms == NumbersIn(Lookup(es, 13))
    && m.signatureAlgorithmsCert == NumbersIn(Lookup(es, 50))
    && m.supportedVersions == NumbersIn(Lookup(es, 43))
  }

  ghost predicate ReflectsBytes(m: Message, es: seq<Extension>) {
    && m.supportedPoints == BytesIn(Lookup(es, 11))
    && m.sessionTicket == BytesIn(Lookup(es, 35))
    && m.cookie == BytesIn(Lookup(es, 44))
    && m.pskModes == BytesIn(Lookup(es, 45))
    && m.quicTransportParameters == BytesIn(Lookup(es, 57))
    && m.secureRenegotiation == BytesIn(Lookup(es, 0xff01))
  }

  ghost predicate ReflectsFlags(m: Message, es: seq<Extension>) {
    && m.ocspStapling == OcspIn(Lookup(es, 5))
    && m.scts == Lookup(es, 18).Some?
    && m.extendedMasterSecret == Lookup(es, 23).Some?
    && m.ticketSupported == Lookup(es, 35).Some?
    && m.earlyData == Lookup(es, 42).Some?
  }

  ghost predicate SaysHello(m: Message, h: Hello) {
    && m.vers == h.version && m.random == h.random && m.sessionId == h.sessionId
    && m.cipherSuites == h.cipherSuites && m.compressionMethods == h.compressionMethods
    && m.secureRenegotiationSupported == (SCSV_RENEGOTIATION in h.cipherSuites || Lookup(h.extensions, 0xff01).Some?)
    && Reflects(m, h.extensions)
  }

  // cryptobyte.String: reading takes bytes off the front, or fails and takes none that matter.

  method ReadBytes(s: seq<byte>, n: nat) returns (ok: bool, x: seq<byte>, rest: seq<byte>)
    ensures ok == (n <= |s|)
    ensures ok ==> x == s[..n] && rest == s[n..]
  {
    if |s| < n {
      return false, [], s;
    }
    return true, s[..n], s[n..];
  }

  method ReadUint16(s: seq<byte>) returns (ok: bool, x: u16, rest: seq<byte>)
    ensures ok == (2 <= |s|)
    ensures ok ==> x == U16(s[..2]) && rest == s[2..]
  {
    if |s| < 2 {
      return false, 0, s;
    }
    return true, s[0] as int * 256 + s[1], s[2..];
  }

  // ReadUint8LengthPrefixed and ReadUint16LengthPrefixed
  method ReadLengthPrefixed(s: seq<byte>, n: nat) returns (ok: bool, x: seq<byte>, rest: seq<byte>)
    requires Width(n)
    ensures ok == ParseVec(n, s).Some?
    ensures ok ==> ParseVec(n, s) == Some(Split(x, rest))
  {
    if |s| < n {
      return false, [], s;
    }
    var length: int := if n == 1 then s[0] else s[0] as int * 256 + s[1];
    ok, x, rest := ReadBytes(s[n..], length);
    assert ok ==> s[n..][..length] == s[n..n + length] && s[n..][length..] == s[n + length..];
  }

  // a loop that reads 16-bit numbers to the end
  method ReadUint16s(s: seq<byte>) returns (ok: bool, xs: seq<u16>)
    ensures ok == ParseU16s(s).Some?
    ensures ok ==> ParseU16s(s) == Some(xs)
  {
    var rest := s;
    xs := [];
    while rest != []
      invariant ParseU16s(s).Some? == ParseU16s(rest).Some?
      invariant ParseU16s(rest).Some? ==> ParseU16s(s).value == xs + ParseU16s(rest).value
      decreases |rest|
    {
      ghost var before := rest;
      var x;
      ok, x, rest := ReadUint16(rest);
      if !ok {
        return false, xs;
      }
      xs := xs + [x];
      assert ParseU16s(rest).Some? ==> ParseU16s(before).value == [x] + ParseU16s(rest).value;
    }
    ok := true;
    assert xs + [] == xs;
  }

  // one server name, protocol, key share, identity or binder
  method ReadItem(sh: Shape, s: seq<byte>) returns (ok: bool, x: Item, rest: seq<byte>)
    requires Width(sh.width)
    ensures ok == ParseItem(sh, s).Some?
    ensures ok ==> ParseItem(sh, s) == Some(ItemSplit(x, rest))
  {
    x, rest := Item([], [], []), s;
    var head, body, tail;
    ok, head, rest := ReadBytes(s, sh.head);
    if !ok {
      return;
    }
    ok, body, rest := ReadLengthPrefixed(rest, sh.width);
    if !ok {
      return;
    }
    ok, tail, rest := ReadBytes(rest, sh.tail);
    if !ok {
      return;
    }
    ok := |body| != 0;
    x := Item(head, body, tail);
  }

  method ReadItems(sh: Shape, s: seq<byte>) returns (ok: bool, xs: seq<Item>)
    requires Width(sh.width)
    ensures ok == ParseItems(sh, s).Some?
    ensures ok ==> ParseItems(sh, s) == Some(xs)
  {
    var rest := s;
    xs := [];
    while rest != []
      invariant ParseItems(sh, s).Some? == ParseItems(sh, rest).Some?
      invariant ParseItems(sh, rest).Some? ==> ParseItems(sh, s).value == xs + ParseItems(sh, rest).value
      decreases |rest|
    {
      ghost var before := rest;
      var x;
      ok, x, rest := ReadItem(sh, rest);
      if !ok {
        return false, xs;
      }
      xs := xs + [x];
      assert ParseItems(sh, rest).Some? ==> ParseItems(sh, before).value == [x] + ParseItems(sh, rest).value;
    }
    ok := true;
    assert xs + [] == xs;
  }

  // Server names: what one more name means for the host name found so far.

  lemma {:induction false} HostIndex(names: seq<Item>) returns (k: nat)
    requires HostOf(names) != []
    ensures k < |names| && IsHost(names[k])
  {
    k := |names| - 1;
    if !IsHost(names[k]) {
      k := HostIndex(names[..k]);
    }
  }

  lemma {:induction false} NoHost(names: seq<Item>)
    requires AllFit(NAME, names) && HostOf(names) == []
    ensures forall k :: 0 <= k < |names| ==> !IsHost(names[k])
  {
    if names != [] {
      NoHost(names[..|names| - 1]);
    }
  }

  lemma SecondHost(names: seq<Item>, x: Item, more: seq<Item>)
    requires IsHost(x) && (HostOf(names) != [] || EndsInDot(x.body))
    ensures !HostNames(names + [x] + more)
  {
    var all := names + [x] + more;
    assert all[|names|] == x;
    if HostOf(names) != [] {
      var k := HostIndex(names);
      assert all[k] == names[k];
    }
  }

  lemma OneMoreName(names: seq<Item>, x: Item)
    requires AllFit(NAME, names) && HostNames(names)
    requires IsHost(x) ==> HostOf(names) == [] && !EndsInDot(x.body)
    ensures HostNames(names + [x])
    ensures HostOf(names + [x]) == if IsHost(x) then x.body else HostOf(names)
  {
    var all := names + [x];
    assert all[..|names|] == names;
    if HostOf(names) == [] {
      NoHost(names);
    }
  }

  // The loop over a server name list, with the host name found before as its state.
  function ScanNames(s: seq<byte>, host: seq<byte>): Option<seq<byte>>
    decreases |s|
  {
    if s == [] then Some(host)
    else
      var v := ParseItem(NAME, s);
      if v.None? then None
      else if !IsHost(v.value.x) then ScanNames(v.value.rest, host)
      else if host != [] || EndsInDot(v.value.x.body) then None
      else ScanNames(v.value.rest, v.value.x.body)
  }

  // What the loop yields after `names`: the host name of the whole list, if the list is in order.
  function HostOfRest(names: seq<Item>, rest: Option<seq<Item>>): Option<seq<byte>> {
    if rest.Some? && HostNames(names + rest.value) then Some(HostOf(names + rest.value)) else None
  }

  lemma {:induction false} ScanMeansHost(s: seq<byte>, names: seq<Item>)
    requires AllFit(NAME, names) && HostNames(names)
    ensures ScanNames(s, HostOf(names)) == HostOfRest(names, ParseItems(NAME, s))
    decreases |s|
  {
    if s == [] {
      assert names + [] == names;
    } else if ParseItem(NAME, s).Some? {
      var v := ParseItem(NAME, s).value;
      ItemSound(NAME, s);
      var more := ParseItems(NAME, v.rest);
      assert more.Some? ==> names + ([v.x] + more.value) == names + [v.x] + more.value;
      if IsHost(v.x) && (HostOf(names) != [] || EndsInDot(v.x.body)) {
        if more.Some? {
          SecondHost(names, v.x, more.value);
        }
      } else {
        OneMoreName(names, v.x);
        ScanMeansHost(v.rest, names + [v.x]);
      }
    }
  }

  lemma NameFits(s: seq<byte>)
    requires ParseItem(NAME, s).Some?
    ensures var x := ParseItem(NAME, s).value.x; |x.head| == 1 && x.body != []
  {
  }

  method ReadNames(nameList: seq<byte>, serverName: seq<byte>) returns (ok: bool, host: seq<byte>)
    ensures ScanNames(nameList, serverName) == if ok then Some(host) else None
  {
    var rest := nameList;
    host := serverName;
    while rest != []
      invariant ScanNames(nameList, serverName) == ScanNames(rest, host)
      decreases |rest|
    {
      ghost var before := rest;
      var x;
      ok, x, rest := ReadItem(NAME, rest);
      if !ok {
        return;
      }
      NameFits(before);
      if x.head[0] != 0 {
        continue;
      }
      if |host| != 0 {
        return false, host;
      }
      host := x.body;
      if host[|host| - 1] == 0x2e {
        return false, host;
      }
    }
    ok := true;
  }

  // Each extension's share of the fields

  // m with the fields of e set.
  function With(m: Message, e: Extension): Message {
    match e
    case ServerName(names) => m.(serverName := HostOf(names))
    case StatusRequest(kind, _, _) => m.(ocspStapling := kind == STATUS_TYPE_OCSP)
    case SupportedCurves(xs) => m.(supportedCurves := xs)
    case SupportedPoints(x) => m.(supportedPoints := x)
    case SignatureAlgorithms(xs) => m.(signatureAlgorithms := xs)
    case Alpn(xs) => m.(alpnProtocols := Bodies(xs))
    case Sct => m.(scts := true)
    case ExtendedMasterSecret => m.(extendedMasterSecret := true)
    case SessionTicket(x) => m.(ticketSupported := true, sessionTicket := x)
    case PreSharedKey(xs, ys) => m.(pskIdentities := Identities(xs), pskBinders := Bodies(ys))
    case EarlyData => m.(earlyData := true)
    case SupportedVersions(xs) => m.(supportedVersions := xs)
    case Cookie(x) => m.(cookie := x)
    case PskModes(x) => m.(pskModes := x)
    case SignatureAlgorithmsCert(xs) => m.(signatureAlgorithmsCert := xs)
    case KeyShare(xs) => m.(keyShares := Shares(xs))
    case QuicTransportParameters(x) => m.(quicTransportParameters := x)
    case RenegotiationInfo(x) => m.(secureRenegotiation := x, secureRenegotiationSupported := true)
    case Unknown(_, _) => m
  }

  lemma LookupGrows(es: seq<Extension>, e: Extension, id: u16)
    ensures Lookup(es + [e], id) == if Id(e) == id then Some(e) else Lookup(es, id)
  {
    assert (es + [e])[..|es|] == es;
  }

  lemma ListsOneMore(m: Message, es: seq<Extension>, e: Extension)
    requires ReflectsLists(m, es) && WellFormedBody(e)
    ensures ReflectsLists(With(m, e), es + [e])
  {
    LookupGrows(es, e, 0);
    LookupGrows(es, e, 16);
    LookupGrows(es, e, 51);
    LookupGrows(es, e, 41);
  }

  lemma NumbersOneMore(m: Message, es: seq<Extension>, e: Extension)
    requires ReflectsNumbers(m, es) && WellFormedBody(e)
    ensures ReflectsNumbers(With(m, e), es + [e])
  {
    LookupGrows(es, e, 10);
    LookupGrows(es, e, 13);
    LookupGrows(es, e, 50);
    LookupGrows(es, e, 43);
  }

  lemma BytesOneMore(m: Message, es: seq<Extension>, e: Extension)
    requires ReflectsBytes(m, es) && WellFormedBody(e)
    ensures ReflectsBytes(With(m, e), es + [e])
  {
    LookupGrows(es, e, 11);
    LookupGrows(es, e, 35);
    LookupGrows(es, e, 44);
    LookupGrows(es, e, 45);
    LookupGrows(es, e, 57);
    LookupGrows(es, e, 0xff01);
  }

  lemma FlagIds(e: Extension)
    requires WellFormedBody(e)
    ensures (Id(e) == 5 <==> e.StatusRequest?) && (Id(e) == 18 <==> e.Sct?)
    ensures (Id(e) == 23 <==> e.ExtendedMasterSecret?) && (Id(e) == 35 <==> e.SessionTicket?)
    ensures Id(e) == 42 <==> e.EarlyData?
  {
    if e.Unknown? {
      assert !Known(e.id);
    }
  }

  predicate SameFlags(m: Message, n: Message) {
    && n.scts == m.scts && n.extendedMasterSecret == m.extendedMasterSecret && n.earlyData == m.earlyData
    && n.ticketSupported == m.ticketSupported && n.ocspStapling == m.ocspStapling
  }

  predicate CarriesList(e: Extension) {
    || e.ServerName? || e.Alpn? || e.KeyShare? || e.PreSharedKey? || e.SupportedCurves?
    || e.SignatureAlgorithms? || e.SignatureAlgorithmsCert? || e.SupportedVersions?
    || e.SupportedPoints? || e.PskModes?
  }

  predicate SetsFlag(e: Extension) {
    e.Sct? || e.ExtendedMasterSecret? || e.SessionTicket? || e.EarlyData? || e.StatusRequest?
  }

  lemma FlagsSet(m: Message, e: Extension)
    ensures e.Sct? ==> With(m, e) == m.(scts := true)
    ensures e.ExtendedMasterSecret? ==> With(m, e) == m.(extendedMasterSecret := true)
    ensures e.SessionTicket? ==> With(m, e) == m.(ticketSupported := true, sessionTicket := e.ticket)
    ensures e.EarlyData? ==> With(m, e) == m.(earlyData := true)
    ensures e.StatusRequest? ==> With(m, e) == m.(ocspStapling := OcspIn(Some(e)))
  {
  }

  lemma ListKeepsFlags(m: Message, e: Extension)
    requires CarriesList(e)
    ensures SameFlags(m, With(m, e))
  {
  }

  lemma OtherKeepsFlags(m: Message, e: Extension)
    requires !CarriesList(e) && !SetsFlag(e)
    ensures SameFlags(m, With(m, e))
  {
  }

  lemma FlagsOneMore(m: Message, es: seq<Extension>, e: Extension)
    requires ReflectsFlags(m, es) && WellFormedBody(e)
    ensures ReflectsFlags(With(m, e), es + [e])
  {
    FlagIds(e);
    FlagsSet(m, e);
    if CarriesList(e) {
      ListKeepsFlags(m, e);
    } else if !SetsFlag(e) {
      OtherKeepsFlags(m, e);
    }
    LookupGrows(es, e, 5);
    LookupGrows(es, e, 18);
    LookupGrows(es, e, 23);
    LookupGrows(es, e, 35);
    LookupGrows(es, e, 42);
  }

  // The cases of the switch.  Each reads its part of the extension's data, and the data must be
  // used up; `m` comes back with the fields of that extension set.

  // a non-empty list of 16-bit numbers, and nothing after it
  method ReadNumbers(extData: seq<byte>, n: nat) returns (ok: bool, xs: seq<u16>)
    requires Width(n)
    ensures NonEmpty(WholeU16s(n, extData)) == if ok then Some(xs) else None
  {
    var list, rest;
    xs := [];
    ok, list, rest := ReadLengthPrefixed(extData, n);
    if !ok || list == [] {
      return false, xs;
    }
    ok, xs := ReadUint16s(list);
    ok := ok && rest == [];
  }

  // supported curves, signature algorithms, supported versions
  method UnmarshalNumbers(m: Message, id: u16, extData: seq<byte>) returns (ok: bool, r: Message)
    requires id in {10, 13, 43, 50}
    requires m.supportedCurves == [] || id != 10
    requires m.signatureAlgorithms == [] || id != 13
    requires m.supportedVersions == [] || id != 43
    requires m.signatureAlgorithmsCert == [] || id != 50
    ensures ok == ParseNumbers(id, extData).Some?
    ensures ok ==> r == With(m, ParseNumbers(id, extData).value)
  {
    var xs;
    ok, xs := ReadNumbers(extData, if id == 43 then 1 else 2);
    if id == 10 {
      r := m.(supportedCurves := m.supportedCurves + xs);
    } else if id == 13 {
      r := m.(signatureAlgorithms := m.signatureAlgorithms + xs);
    } else if id == 43 {
      r := m.(supportedVersions := m.supportedVersions + xs);
    } else {
      r := m.(signatureAlgorithmsCert := m.signatureAlgorithmsCert + xs);
    }
  }

  // supported points, cookie, PSK modes, renegotiation info
  method UnmarshalOpaque(m: Message, id: u16, extData: seq<byte>) returns (ok: bool, r: Message)
    requires id in {11, 44, 45, 0xff01}
    ensures ok == ParseOpaque(id, extData).Some?
    ensures ok ==> r == With(m, ParseOpaque(id, extData).value)
  {
    r := m;
    var x, rest;
    ok, x, rest := ReadLengthPrefixed(extData, if id == 44 then 2 else 1);
    if !ok {
      return;
    }
    if id == 11 {
      r := m.(supportedPoints := x);
      ok := |x| != 0;
    } else if id == 44 {
      r := m.(cookie := x);
      ok := |x| != 0;
    } else if id == 45 {
      r := m.(pskModes := x);
    } else {
      r := m.(secureRenegotiation := x, secureRenegotiationSupported := true);
    }
    ok := ok && rest == [];
  }

  // a list of items, and nothing after it
  method ReadItemList(sh: Shape, extData: seq<byte>) returns (ok: bool, xs: seq<Item>)
    requires Width(sh.width)
    ensures WholeItems(sh, extData) == if ok then Some(xs) else None
  {
    var list, rest;
    xs := [];
    ok, list, rest := ReadLengthPrefixed(extData, 2);
    if ok {
      ok, xs := ReadItems(sh, list);
      ok := ok && rest == [];
    }
  }

  // the host name in a list of server names
  method ReadHost(nameList: seq<byte>) returns (ok: bool, host: seq<byte>)
    ensures var names := ParseItems(NAME, nameList);
      && ok == (names.Some? && HostNames(names.value))
      && (ok ==> host == HostOf(names.value))
  {
    ok, host := ReadNames(nameList, []);
    ScanMeansHost(nameList, []);
    var names := ParseItems(NAME, nameList);
    assert names.Some? ==> [] + names.value == names.value;
  }

  // server names
  method UnmarshalServerName(m: Message, extData: seq<byte>) returns (ok: bool, r: Message)
    requires m.serverName == []
    ensures ok == ParseList(0, extData).Some?
    ensures ok ==> r == With(m, ParseList(0, extData).value)
  {
    r := m;
    var nameList, rest, host;
    ok, nameList, rest := ReadLengthPrefixed(extData, 2);
    if !ok || nameList == [] {
      return false, r;
    }
    ok, host := ReadHost(nameList);
    r := m.(serverName := host);
    ok := ok && rest == [];
  }

  // ALPN protocols, key shares
  method UnmarshalList(m: Message, id: u16, extData: seq<byte>) returns (ok: bool, r: Message)
    requires id in {16, 51}
    requires m.alpnProtocols == [] || id != 16
    requires m.keyShares == [] || id != 51
    ensures ok == ParseList(id, extData).Some?
    ensures ok ==> r == With(m, ParseList(id, extData).value)
  {
    var xs;
    if id == 16 {
      ok, xs := ReadItemList(PROTOCOL, extData);
      ok := ok && xs != [];
      r := m.(alpnProtocols := m.alpnProtocols + Bodies(xs));
    } else {
      ok, xs := ReadItemList(SHARE, extData);
      r := m.(keyShares := m.keyShares + Shares(xs));
    }
  }

  // identities, binders, and nothing after them
  method ReadPreSharedKey(extData: seq<byte>) returns (ok: bool, xs: seq<Item>, ys: seq<Item>)
    ensures ParsePreSharedKey(extData) == if ok then Some(PreSharedKey(xs, ys)) else None
  {
    var identities, rest;
    xs, ys := [], [];
    ok, identities, rest := ReadLengthPrefixed(extData, 2);
    if !ok || identities == [] {
      return false, xs, ys;
    }
    ok, xs := ReadItems(IDENTITY, identities);
    if !ok {
      return;
    }
    ok, ys := ReadItemList(BINDER, rest);
    ok := ok && ys != [];
  }

  // SCT, extended master secret, early data
  method UnmarshalFlag(m: Message, id: u16, extData: seq<byte>) returns (ok: bool, r: Message)
    requires id in {18, 23, 42}
    ensures ok == ParseFlag(id, extData).Some?
    ensures ok ==> r == With(m, ParseFlag(id, extData).value)
  {
    if id == 18 {
      r := m.(scts := true);
    } else if id == 23 {
      r := m.(extendedMasterSecret := true);
    } else {
      r := m.(earlyData := true);
    }
    ok := extData == [];
  }

  method UnmarshalStatusRequest(m: Message, extData: seq<byte>) returns (ok: bool, r: Message)
    ensures ok == ParseStatusRequest(extData).Some?
    ensures ok ==> r == With(m, ParseStatusRequest(extData).value)
  {
    r := m;
    var kind, ignored, rest;
    ok, kind, rest := ReadBytes(extData, 1);
    if !ok {
      return;
    }
    ok, ignored, rest := ReadLengthPrefixed(rest, 2);
    if !ok {
      return;
    }
    ok, ignored, rest := ReadLengthPrefixed(rest, 2);
    if !ok {
      return;
    }
    r := m.(ocspStapling := kind[0] == STATUS_TYPE_OCSP);
    ok := rest == [];
  }

  method UnmarshalPreSharedKey(m: Message, extData: seq<byte>) returns (ok: bool, r: Message)
    requires m.pskIdentities == [] && m.pskBinders == []
    ensures ok == ParsePreSharedKey(extData).Some?
    ensures ok ==> r == With(m, ParsePreSharedKey(extData).value)
  {
    var xs, ys;
    ok, xs, ys := ReadPreSharedKey(extData);
    r := m.(pskIdentities := m.pskIdentities + Identities(xs), pskBinders := m.pskBinders + Bodies(ys));
  }

  // The switch over the extension's id; `es` are the extensions read before.
  method UnmarshalExtension(m: Message, id: u16, extData: seq<byte>, ghost es: seq<Extension>)
    returns (ok: bool, r: Message)
    requires Reflects(m, es) && Lookup(es, id).None?
    ensures ok == ParseBody(id, extData).Some?
    ensures ok ==> r == With(m, ParseBody(id, extData).value)
  {
    if id in {10, 13, 43, 50} {
      ok, r := UnmarshalNumbers(m, id, extData);
    } else if id in {11, 44, 45, 0xff01} {
      ok, r := UnmarshalOpaque(m, id, extData);
    } else if id == 0 {
      ok, r := UnmarshalServerName(m, extData);
    } else if id in {16, 51} {
      ok, r := UnmarshalList(m, id, extData);
    } else if id in {18, 23, 42} {
      ok, r := UnmarshalFlag(m, id, extData);
    } else if id == 5 {
      ok, r := UnmarshalStatusRequest(m, extData);
    } else if id == PRE_SHARED_KEY {
      ok, r := UnmarshalPreSharedKey(m, extData);
    } else if id == 35 {
      ok, r := true, m.(ticketSupported := true, sessionTicket := extData);
    } else if id == 57 {
      ok, r := true, m.(quicTransportParameters := extData);
    } else {
      ok, r := true, m;
    }
  }

  // The fields that no extension but renegotiation_info touches.
  predicate SameBase(m: Message, n: Message) {
    && n.vers == m.vers && n.random == m.random && n.sessionId == m.sessionId
    && n.cipherSuites == m.cipherSuites && n.compressionMethods == m.compressionMethods
  }

  lemma {:induction false} LookupMisses(es: seq<Extension>, id: u16)
    requires forall k :: 0 <= k < |es| ==> Id(es[k]) != id
    ensures Lookup(es, id).None?
  {
    if es != [] {
      LookupMisses(es[..|es| - 1], id);
    }
  }

  // `seen` holds the ids of `es`.
  ghost predicate SeenIds(es: seq<Extension>, seen: set<u16>) {
    forall id :: id in seen <==> exists k :: 0 <= k < |es| && Id(es[k]) == id
  }

  // The fields an extension leaves alone, and the one it shares with the cipher suites.
  ghost predicate KeepsBase(base: Message, m: Message, es: seq<Extension>) {
    && SameBase(base, m)
    && m.secureRenegotiationSupported == (base.secureRenegotiationSupported || Lookup(es, 0xff01).Some?)
  }

  // The state of the loop over the extensions: `es` have been read, `m` reflects them.
  ghost predicate ReadSoFar(base: Message, m: Message, es: seq<Extension>, seen: set<u16>) {
    Reflects(m, es) && KeepsBase(base, m, es) && SeenIds(es, seen)
  }

  lemma SeenOneMore(es: seq<Extension>, seen: set<u16>, e: Extension)
    requires SeenIds(es, seen)
    ensures SeenIds(es + [e], seen + {Id(e)})
  {
    forall id | id in seen + {Id(e)}
      ensures exists k :: 0 <= k < |es + [e]| && Id((es + [e])[k]) == id
    {
      if id == Id(e) {
        assert Id((es + [e])[|es|]) == id;
      } else {
        var k :| 0 <= k < |es| && Id(es[k]) == id;
        assert Id((es + [e])[k]) == id;
      }
    }
  }

  lemma BaseOneMore(base: Message, m: Message, es: seq<Extension>, e: Extension)
    requires KeepsBase(base, m, es) && WellFormedBody(e)
    ensures KeepsBase(base, With(m, e), es + [e])
  {
    LookupGrows(es, e, 0xff01);
  }

  lemma ReadOneMore(base: Message, m: Message, es: seq<Extension>, seen: set<u16>, e: Extension)
    requires ReadSoFar(base, m, es, seen) && WellFormedBody(e)
    ensures ReadSoFar(base, With(m, e), es + [e], seen + {Id(e)})
  {
    ListsOneMore(m, es, e);
    NumbersOneMore(m, es, e);
    BytesOneMore(m, es, e);
    FlagsOneMore(m, es, e);
    BaseOneMore(base, m, es, e);
    SeenOneMore(es, seen, e);
  }

  // one extension off the front of the list
  method ReadExtension(s: seq<byte>) returns (ok: bool, id: u16, data: seq<byte>, rest: seq<byte>)
    ensures ok ==>
      var e := ParseBody(id, data);
      ParseExtension(s) == if e.None? then None else Some(ExtensionSplit(e.value, rest))
    ensures ok ==> |rest| < |s|
    ensures !ok ==> ParseExtension(s).None?
  {
    data := [];
    ok, id, rest := ReadUint16(s);
    if ok {
      ok, data, rest := ReadLengthPrefixed(rest, 2);
    }
  }

  // the switch, as it moves the loop's state on
  method UnmarshalNext(ghost base: Message, m: Message, id: u16, extData: seq<byte>,
                       ghost es: seq<Extension>, ghost seen: set<u16>) returns (ok: bool, r: Message)
    requires ReadSoFar(base, m, es, seen) && id !in seen
    ensures ok == ParseBody(id, extData).Some?
    ensures ok ==> ReadSoFar(base, r, es + [ParseBody(id, extData).value], seen + {id})
  {
    LookupMisses(es, id);
    ok, r := UnmarshalExtension(m, id, extData, es);
    if ok {
      BodySound(id, extData);
      ReadOneMore(base, m, es, seen, ParseBody(id, extData).value);
    }
  }

  // the loop over the extensions
  method UnmarshalExtensions(base: Message, all: seq<byte>) returns (ok: bool, m: Message)
    requires Reflects(base, [])
    ensures ok == ParseExtensions(all, {}).Some?
    ensures ok ==> exists seen :: ReadSoFar(base, m, ParseExtensions(all, {}).value, seen)
  {
    m := base;
    var extensions := all;
    var seenExts: set<u16> := {};
    ghost var es: seq<Extension> := [];
    assert ParseExtensions(all, {}).Some? ==> es + ParseExtensions(all, {}).value == ParseExtensions(all, {}).value;
    while extensions != []
      invariant ReadSoFar(base, m, es, seenExts)
      invariant Continues(all, es, extensions, seenExts)
      decreases |extensions|
    {
      ghost var before := extensions;
      var extension, extData;
      ok, extension, extData, extensions := ReadExtension(extensions);
      if !ok {
        return;
      }
      BodyId(extension, extData);
      if extension in seenExts {
        return false, m;
      }
      if extension == PRE_SHARED_KEY && extensions != [] {
        return false, m;
      }
      ok, m := UnmarshalNext(base, m, extension, extData, es, seenExts);
      if !ok {
        return;
      }
      ghost var e := ParseBody(extension, extData).value;
      OneExtension(all, es, before, seenExts);
      seenExts := seenExts + {extension};
      es := es + [e];
    }
    assert es + [] == es;
    ok := true;
  }

  // Parsing all of it comes down to parsing the rest, after `es`.
  ghost predicate Continues(all: seq<byte>, es: seq<Extension>, rest: seq<byte>, seen: set<u16>) {
    ParseExtensions(all, {}) ==
      if ParseExtensions(rest, seen).None? then None else Some(es + ParseExtensions(rest, seen).value)
  }

  lemma OneExtension(all: seq<byte>, es: seq<Extension>, s: seq<byte>, seen: set<u16>)
    requires Continues(all, es, s, seen) && s != [] && ParseExtension(s).Some?
    requires var v := ParseExtension(s).value; Id(v.e) !in seen && (Id(v.e) == PRE_SHARED_KEY ==> v.rest == [])
    ensures var v := ParseExtension(s).value; Continues(all, es + [v.e], v.rest, seen + {Id(v.e)})
  {
    var v := ParseExtension(s).value;
    var tail := ParseExtensions(v.rest, seen + {Id(v.e)});
    assert tail.Some? ==> es + ([v.e] + tail.value) == es + [v.e] + tail.value;
  }

  lemma BodyId(id: u16, data: seq<byte>)
    ensures ParseBody(id, data).Some? ==> Id(ParseBody(id, data).value) == id
  {
    if ParseBody(id, data).Some? {
      BodySound(id, data);
    }
  }

  // the loop over the cipher suites, as it looks for the signalling suite
  method FindScsv(suites: seq<u16>) returns (found: bool)
    ensures found == (SCSV_RENEGOTIATION in suites)
  {
    found := false;
    for i := 0 to |suites|
      invariant found == (SCSV_RENEGOTIATION in suites[..i])
    {
      if suites[i] == SCSV_RENEGOTIATION {
        found := true;
      }
    }
  }

  // The four vectors at the end of the message, the last of them to its end.
  method ReadParts(s: seq<byte>) returns (ok: bool, p: Parts)
    ensures Cut(s) == if ok then Some(p) else None
  {
    var sessionId, suites, methods, extensions;
    var rest := s;
    p := Parts([], [], [], []);
    ok, sessionId, rest := ReadLengthPrefixed(rest, 1);
    if !ok {
      return;
    }
    ok, suites, rest := ReadLengthPrefixed(rest, 2);
    if !ok {
      return;
    }
    ok, methods, rest := ReadLengthPrefixed(rest, 1);
    if !ok {
      return;
    }
    if rest == [] {
      return false, p;
    }
    ok, extensions, rest := ReadLengthPrefixed(rest, 2);
    ok := ok && rest == [];
    p := Parts(sessionId, suites, methods, extensions);
  }

  method Parsed(data: seq<byte>) returns (ok: bool, m: Message)
    ensures ok == Parse(data).Some?
    ensures ok ==> SaysHello(m, Parse(data).value)
  {
    m := Blank;
    if |data| < 38 {
      return false, m;
    }
    var p, suites;
    ok, p := ReadParts(data[38..]);
    if !ok {
      return;
    }
    ok, suites := ReadUint16s(p.suites);
    if !ok {
      return;
    }
    var scsv := FindScsv(suites);
    m := Blank.(vers := data[4] as int * 256 + data[5], random := data[6..38], sessionId := p.sessionId,
                cipherSuites := suites, compressionMethods := p.methods, secureRenegotiationSupported := scsv);
    ok, m := UnmarshalExtensions(m, p.extensions);
  }

  // unmarshal: it accepts exactly the encodings of well-formed hellos, and what it fills in is
  // what the hello says.
  method Unmarshal(data: seq<byte>) returns (ok: bool, m: Message)
    ensures ok <==> exists h :: WellFormed(h) && Encode(h) == data
    ensures ok ==> forall h :: WellFormed(h) && Encode(h) == data ==> SaysHello(m, h)
  {
    ok, m := Parsed(data);
    if ok {
      ParseSound(data);
    }
    forall h | WellFormed(h) && Encode(h) == data
      ensures Parse(data) == Some(h)
    {
      ParseComplete(h);
    }
  }

  // UnmarshalByByte, which skips the five bytes of the record header without looking for them.
  method UnmarshalByByte(buf: seq<byte>) returns (ok: bool, m: Message)
    requires buf != [] && buf[0] == 0x16 ==> 5 <= |buf|
    ensures ok <==> buf != [] && buf[0] == 0x16 && exists h :: WellFormed(h) && Encode(h) == buf[5..]
    ensures ok ==> forall h :: WellFormed(h) && Encode(h) == buf[5..] ==> SaysHello(m, h)
  {
    m := Blank;
    if |buf| == 0 {
      return false, m;
    }
    if buf[0] != 0x16 {
      return false, m;
    }
    ok, m := Unmarshal(buf[5..]);
  }

  // The server name of an accepted hello is there exactly when extension 0 carries a name of type
  // 0, is that name, and does not end in a dot.
  lemma ServerNameMeaning(m: Message, h: Hello)
    requires WellFormed(h) && SaysHello(m, h)
    ensures m.serverName != [] <==> exists e, x :: NamesHost(h.extensions, e, x)
    ensures forall e, x :: NamesHost(h.extensions, e, x) ==> m.serverName == x.body
    ensures m.serverName != [] ==> m.serverName[|m.serverName| - 1] != 0x2e
  {
    var es := h.extensions;
    assert m.serverName == HostOf(ItemsIn(Lookup(es, 0)));
    HostIsNamed(es);
    forall e, x | NamesHost(es, e, x)
      ensures m.serverName == x.body != []
    {
      NamedIsHost(es, e, x);
    }
  }

  ghost predicate NamesHost(es: seq<Extension>, e: Extension, x: Item) {
    e in es && e.ServerName? && x in e.names && x.head == [0]
  }

  lemma HostIsNamed(es: seq<Extension>)
    requires forall k :: 0 <= k < |es| ==> WellFormedBody(es[k])
    ensures var host := HostOf(ItemsIn(Lookup(es, 0)));
      !EndsInDot(host) && (host != [] ==> exists e, x :: NamesHost(es, e, x))
  {
    if Lookup(es, 0).Some? {
      var k := LookupIndex(es, 0);
      assert es[k].ServerName?;
      HostNameFound(es[k].names);
      if HostOf(es[k].names) != [] {
        var x :| x in es[k].names && IsHost(x);
        assert NamesHost(es, es[k], x);
      }
    }
  }

  lemma NamedIsHost(es: seq<Extension>, e: Extension, x: Item)
    requires NamesHost(es, e, x) && WellFormedBody(e)
    requires forall i, j :: 0 <= i < j < |es| ==> Id(es[i]) != Id(es[j])
    ensures HostOf(ItemsIn(Lookup(es, 0))) == x.body != []
  {
    var k :| 0 <= k < |es| && es[k] == e;
    LookupFinds(es, k);
    HostNameFound(e.names);
  }

  lemma {:induction false} LookupIndex(es: seq<Extension>, id: u16) returns (k: nat)
    requires Lookup(es, id).Some?
    ensures k < |es| && Lookup(es, id) == Some(es[k]) && Id(es[k]) == id
  {
    k := |es| - 1;
    if Id(es[k]) != id {
      k := LookupIndex(es[..k], id);
    }
  }

  lemma {:induction false} LookupFinds(es: seq<Extension>, k: nat)
    requires k < |es| && forall i, j :: 0 <= i < j < |es| ==> Id(es[i]) != Id(es[j])
    ensures Lookup(es, Id(es[k])) == Some(es[k])
  {
    var last := |es| - 1;
    if k < last {
      assert Id(es[k]) != Id(es[last]);
      LookupFinds(es[..last], k);
    }
  }

  lemma {:induction false} HostNameFound(names: seq<Item>)
    requires AllFit(NAME, names) && HostNames(names)
    ensures HostOf(names) != [] <==> exists x :: x in names && IsHost(x)
    ensures forall x :: x in names && IsHost(x) ==> HostOf(names) == x.body
    ensures !EndsInDot(HostOf(names))
  {
    if names != [] {
      var last := |names| - 1;
      HostNameFound(names[..last]);
      assert names == names[..last] + [names[last]];
    }
  }

  // What every other field says, in the order in which the hello says it

  // The fields of an extension that the hello carries.
  ghost predicate Says(m: Message, e: Extension) {
    match e
    case ServerName(names) => true   // ServerNameMeaning
    case StatusRequest(kind, responders, requests) => m.ocspStapling == (kind == 1)
    case SupportedCurves(xs) => m.supportedCurves == xs
    case SupportedPoints(x) => m.supportedPoints == x
    case SignatureAlgorithms(xs) => m.signatureAlgorithms == xs
    case Alpn(xs) => BodiesInOrder(m.alpnProtocols, xs)
    case Sct => m.scts
    case ExtendedMasterSecret => m.extendedMasterSecret
    case SessionTicket(x) => m.ticketSupported && m.sessionTicket == x
    case PreSharedKey(xs, ys) => IdentitiesInOrder(m.pskIdentities, xs) && BodiesInOrder(m.pskBinders, ys)
    case EarlyData => m.earlyData
    case SupportedVersions(xs) => m.supportedVersions == xs
    case Cookie(x) => m.cookie == x
    case PskModes(x) => m.pskModes == x
    case SignatureAlgorithmsCert(xs) => m.signatureAlgorithmsCert == xs
    case KeyShare(xs) => SharesInOrder(m.keyShares, xs)
    case QuicTransportParameters(x) => m.quicTransportParameters == x
    case RenegotiationInfo(x) => m.secureRenegotiation == x && m.secureRenegotiationSupported
    case Unknown(id, data) => true
  }

  ghost predicate BodiesInOrder(bodies: seq<seq<byte>>, xs: seq<Item>) {
    |bodies| == |xs| && forall k :: 0 <= k < |xs| ==> bodies[k] == xs[k].body
  }

  ghost predicate SharesInOrder(shares: seq<Share>, xs: seq<Item>) {
    && |shares| == |xs|
    && forall k :: 0 <= k < |xs| ==>
         && |xs[k].head| == 2
         && shares[k].group == xs[k].head[0] as int * 256 + xs[k].head[1] && shares[k].data == xs[k].body
  }

  ghost predicate IdentitiesInOrder(identities: seq<PskIdentity>, xs: seq<Item>) {
    && |identities| == |xs|
    && forall k :: 0 <= k < |xs| ==>
         && |xs[k].tail| == 4 && identities[k].identity == xs[k].body
         && identities[k].age == xs[k].tail[0] as int * 0x100_0000 + xs[k].tail[1] as int * 0x1_0000
                                 + xs[k].tail[2] as int * 0x100 + xs[k].tail[3]
  }

  lemma SharesMean(xs: seq<Item>)
    requires AllFit(SHARE, xs)
    ensures SharesInOrder(Shares(xs), xs)
  {
    forall k | 0 <= k < |xs|
      ensures |xs[k].head| == 2 && Shares(xs)[k].group == xs[k].head[0] as int * 256 + xs[k].head[1]
    {
      assert Fits(SHARE, xs[k]);
    }
  }

  lemma IdentitiesMean(xs: seq<Item>)
    requires AllFit(IDENTITY, xs)
    ensures IdentitiesInOrder(Identities(xs), xs)
  {
    forall k | 0 <= k < |xs|
      ensures |xs[k].tail| == 4
      ensures Identities(xs)[k].age == xs[k].tail[0] as int * 0x100_0000 + xs[k].tail[1] as int * 0x1_0000
                                       + xs[k].tail[2] as int * 0x100 + xs[k].tail[3]
    {
      assert Fits(IDENTITY, xs[k]);
      var t := xs[k].tail;
      assert U16(t[..2]) == t[0] as int * 256 + t[1] && U16(t[2..]) == t[2] as int * 256 + t[3];
    }
  }

  // The same by the look-ups that SaysHello goes by.
  lemma ListSays(m: Message, es: seq<Extension>, e: Extension)
    requires WellFormedBody(e) && ReflectsLists(m, es) && Lookup(es, Id(e)) == Some(e)
    requires e.Alpn? || e.KeyShare? || e.PreSharedKey?
    ensures Says(m, e)
  {
    if e.KeyShare? {
      SharesMean(e.shares);
    } else if e.PreSharedKey? {
      IdentitiesMean(e.identities);
    }
  }

  lemma NumbersSay(m: Message, es: seq<Extension>, e: Extension)
    requires WellFormedBody(e) && ReflectsNumbers(m, es) && Lookup(es, Id(e)) == Some(e)
    requires e.SupportedCurves? || e.SignatureAlgorithms? || e.SignatureAlgorithmsCert? || e.SupportedVersions?
    ensures Says(m, e)
  {
  }

  // The fields of every extension in an accepted hello are what it carries, element by element.
  lemma ExtensionMeaning(m: Message, h: Hello, e: Extension)
    requires WellFormed(h) && SaysHello(m, h) && e in h.extensions
    ensures Says(m, e)
  {
    var k :| 0 <= k < |h.extensions| && h.extensions[k] == e;
    LookupFinds(h.extensions, k);
    assert WellFormedBody(e) && Lookup(h.extensions, Id(e)) == Some(e);
    if e.Alpn? || e.KeyShare? || e.PreSharedKey? {
      ListSays(m, h.extensions, e);
    } else if e.SupportedCurves? || e.SignatureAlgorithms? || e.SignatureAlgorithmsCert? || e.SupportedVersions? {
      NumbersSay(m, h.extensions, e);
    } else {
      OtherSays(m, h, e);
    }
  }

  lemma OtherSays(m: Message, h: Hello, e: Extension)
    requires WellFormedBody(e) && SaysHello(m, h) && Lookup(h.extensions, Id(e)) == Some(e)
    requires !e.Alpn? && !e.KeyShare? && !e.PreSharedKey?
    requires !e.SupportedCurves? && !e.SignatureAlgorithms? && !e.SignatureAlgorithmsCert? && !e.SupportedVersions?
    ensures Says(m, e)
  {
  }

  ghost predicate Has(es: seq<Extension>, id: u16) { exists k :: 0 <= k < |es| && Id(es[k]) == id }

  // And without the extension they are empty, or false.
  lemma AbsentMeaning(m: Message, h: Hello, id: u16)
    requires WellFormed(h) && SaysHello(m, h) && !Has(h.extensions, id)
    ensures id == 5 ==> !m.ocspStapling
    ensures id == 10 ==> m.supportedCurves == []
    ensures id == 11 ==> m.supportedPoints == []
    ensures id == 13 ==> m.signatureAlgorithms == []
    ensures id == 16 ==> m.alpnProtocols == []
    ensures id == 18 ==> !m.scts
    ensures id == 23 ==> !m.extendedMasterSecret
    ensures id == 35 ==> !m.ticketSupported && m.sessionTicket == []
    ensures id == 41 ==> m.pskIdentities == [] && m.pskBinders == []
    ensures id == 42 ==> !m.earlyData
    ensures id == 43 ==> m.supportedVersions == []
    ensures id == 44 ==> m.cookie == []
    ensures id == 45 ==> m.pskModes == []
    ensures id == 50 ==> m.signatureAlgorithmsCert == []
    ensures id == 51 ==> m.keyShares == []
    ensures id == 57 ==> m.quicTransportParameters == []
    ensures id == 0xff01 ==> m.secureRenegotiation == []
  {
    LookupMisses(h.extensions, id);
  }

  // The fields before the extensions, straight from the bytes, and the flag that a cipher suite can
  // set as well.
  lemma PlainMeaning(m: Message, h: Hello)
    requires WellFormed(h) && SaysHello(m, h)
    ensures var data := Encode(h);
      && 38 <= |data| && m.vers == data[4] as int * 256 + data[5] && m.random == data[6..38]
    ensures m.sessionId == h.sessionId && m.cipherSuites == h.cipherSuites
    ensures m.compressionMethods == h.compressionMethods
    ensures m.secureRenegotiationSupported <==> 0x00ff in h.cipherSuites || Has(h.extensions, 0xff01)
  {
    FixedComplete(h.header, h.version, h.random,
      Join(Parts(h.sessionId, U16s(h.cipherSuites), h.compressionMethods, Extensions(h.extensions))));
    assert U16(Encode(h)[4..6]) == Encode(h)[4] as int * 256 + Encode(h)[5];
    if Has(h.extensions, 0xff01) {
      var k :| 0 <= k < |h.extensions| && Id(h.extensions[k]) == 0xff01;
      LookupFinds(h.extensions, k);
    } else {
      LookupMisses(h.extensions, 0xff01);
    }
  }
}
