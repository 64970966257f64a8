// What an import yields: a body's lines, its JSON objects and its nested base64,
// and of each link or object the name, protocol, address and port.
module Bodies {
  import opened Wrappers
  import opened Json
  import opened Text
  import opened Environment
  import opened Subscription
  import opened Imports

  // ---------- splitting ----------

  // The first place of a character.
  predicate FirstAt(s: string, c: char, k: nat) { k < |s| && s[k] == c && c !in s[..k] }

  lemma FirstIsFirst(s: string, c: char, k: nat)
    requires FirstAt(s, c, k)
    ensures IndexOf1(s, c) == k
  {
    assert forall i :: 0 <= i < k ==> s[i] == s[..k][i] && s[i] in s[..k];
    var j := IndexOf1(s, c);
    assert forall i :: 0 <= i < j ==> s[i] == s[..j][i] && s[i] in s[..j];
  }

  lemma Associates<T>(a: seq<T>, b: seq<T>, c: seq<T>)
    ensures (a + b) + c == a + (b + c)
  {}

  // How the first separator of a joined text splits it.
  lemma SplitsAt(a: string, c: char, b: string)
    ensures var all := a + [c] + b;
      if c in a
      then var k := IndexOf1(a, c);
        FirstAt(all, c, k) && all[..k] == a[..k] && all[k + 1..] == a[k + 1..] + [c] + b
      else FirstAt(all, c, |a|) && all[..|a|] == a && all[|a| + 1..] == b
  {
    var all := a + [c] + b;
    if c in a {
      assert all[..IndexOf1(a, c)] == a[..IndexOf1(a, c)];
    } else {
      assert all[..|a|] == a;
    }
  }

  // A comma-separated value is read item by item: each trimmed, the empty ones dropped.
  lemma OneCommaItem(value: string)
    requires ',' !in value
    ensures CommaItems(value) == if TrimSpace(value) == "" then [] else [TrimSpace(value)]
  {
    assert value[..|value|] == value;
  }

  lemma FirstCommaItem(value: string, k: nat)
    requires FirstAt(value, ',', k)
    ensures CommaItems(value) == CommaItems(value[..k]) + CommaItems(value[k + 1..])
  {
    FirstIsFirst(value, ',', k);
    OneCommaItem(value[..k]);
  }

  lemma {:induction false} CommaItemsJoin(a: string, b: string)
    ensures CommaItems(a + "," + b) == CommaItems(a) + CommaItems(b)
    decreases |a|
  {
    SplitsAt(a, ',', b);
    if ',' in a {
      var k := IndexOf1(a, ',');
      FirstCommaItem(a + "," + b, k);
      FirstCommaItem(a, k);
      CommaItemsJoin(a[k + 1..], b);
      Associates(CommaItems(a[..k]), CommaItems(a[k + 1..]), CommaItems(b));
    } else {
      FirstCommaItem(a + "," + b, |a|);
    }
  }

  // A body is split at its line ends.
  lemma OneLineOnly(line: string)
    requires '\n' !in line
    ensures Lines(line) == [line]
  {}

  lemma FirstLine(text: string, k: nat)
    requires FirstAt(text, '\n', k)
    ensures Lines(text) == Lines(text[..k]) + Lines(text[k + 1..])
  {
    FirstIsFirst(text, '\n', k);
    OneLineOnly(text[..k]);
  }

  lemma LaterLines(all: string, a: string, b: string, k: nat)
    requires FirstAt(all, '\n', k) && FirstAt(a, '\n', k) && all[..k] == a[..k]
    requires Lines(all[k + 1..]) == Lines(a[k + 1..]) + Lines(b)
    ensures Lines(all) == Lines(a) + Lines(b)
  {
    FirstLine(all, k);
    FirstLine(a, k);
    Associates(Lines(a[..k]), Lines(a[k + 1..]), Lines(b));
  }

  lemma {:induction false} LinesJoin(a: string, b: string)
    ensures Lines(a + "\n" + b) == Lines(a) + Lines(b)
    decreases |a|
  {
    SplitsAt(a, '\n', b);
    if '\n' in a {
      LinesJoin(a[IndexOf1(a, '\n') + 1..], b);
      LaterLines(a + "\n" + b, a, b, IndexOf1(a, '\n'));
    } else {
      FirstLine(a + "\n" + b, |a|);
    }
  }

  // What stands behind the last '@', and everything when there is none.
  lemma {:induction false} BehindLast(a: string, b: string)
    requires '@' !in b
    ensures AfterLast(b, '@') == b && AfterLast(a + "@" + b, '@') == b
    decreases |a|
  {
    SplitsAt(a, '@', b);
    if '@' in a {
      FirstIsFirst(a + "@" + b, '@', IndexOf1(a, '@'));
      BehindLast(a[IndexOf1(a, '@') + 1..], b);
    } else {
      FirstIsFirst(a + "@" + b, '@', |a|);
    }
  }

  // ---------- lines ----------

  // What one line gives: nothing when it is blank or a comment, or no link.
  predicate IsComment(line: string) {
    line == "" || (|line| >= 1 && line[0] == '#') || (|line| >= 2 && line[0] == '/' && line[1] == '/')
  }

  lemma LastLine(env: Env, lines: seq<string>, line: string)
    ensures ServersInLines(env, lines + [line]) == ServersInLines(env, lines) + ServersInLines(env, [line])
  {
    assert (lines + [line])[..|lines|] == lines && [line][..0] == [];
  }

  lemma {:induction false} LineServers(env: Env, lines: seq<string>, more: seq<string>)
    ensures ServersInLines(env, lines + more) == ServersInLines(env, lines) + ServersInLines(env, more)
    decreases |more|
  {
    if more == [] {
      assert lines + more == lines;
    } else {
      var most, last := more[..|more| - 1], more[|more| - 1];
      assert lines + more == (lines + most) + [last] && more == most + [last];
      LineServers(env, lines, most);
      LastLine(env, lines + most, last);
      LastLine(env, most, last);
      Associates(ServersInLines(env, lines), ServersInLines(env, most), ServersInLines(env, [last]));
    }
  }

  lemma OneLine(env: Env, line: string)
    ensures ServersInLines(env, [line]) ==
      if IsComment(TrimSpace(line)) || ParseLink(env, TrimSpace(line)).None? then []
      else [ParseLink(env, TrimSpace(line)).value]
  {
    assert [line][..0] == [];
    assert Skipped(TrimSpace(line)) <==> IsComment(TrimSpace(line));
  }

  // ---------- JSON bodies ----------

  lemma {:induction false} ObjectsJoin(values: seq<Json>, more: seq<Json>)
    ensures ObjectsIn(values + more) == ObjectsIn(values) + ObjectsIn(more)
    decreases |more|
  {
    if more == [] {
      assert values + more == values;
    } else {
      assert (values + more)[..|values + more| - 1] == values + more[..|more| - 1];
      ObjectsJoin(values, more[..|more| - 1]);
    }
  }

  lemma OneValue(value: Json)
    ensures ObjectsIn([value]) == if value.Object? then [value.fields] else []
  {
    assert [value][..0] == [];
  }

  lemma LastServer(env: Env, objects: seq<Fields>, o: Fields)
    ensures ServersOf(env, objects + [o]) == ServersOf(env, objects) + ServersOf(env, [o])
  {
    assert (objects + [o])[..|objects|] == objects && [o][..0] == [];
  }

  lemma {:induction false} ServersJoin(env: Env, objects: seq<Fields>, more: seq<Fields>)
    ensures ServersOf(env, objects + more) == ServersOf(env, objects) + ServersOf(env, more)
    decreases |more|
  {
    if more == [] {
      assert objects + more == objects;
    } else {
      var most, last := more[..|more| - 1], more[|more| - 1];
      assert objects + more == (objects + most) + [last] && more == most + [last];
      ServersJoin(env, objects, most);
      LastServer(env, objects + most, last);
      LastServer(env, most, last);
      Associates(ServersOf(env, objects), ServersOf(env, most), ServersOf(env, [last]));
    }
  }

  lemma OneObject(env: Env, o: Fields)
    ensures ServersOf(env, [o]) == if ServerFromObject(env, o).None? then [] else [ServerFromObject(env, o).value]
  {
    assert [o][..0] == [];
  }

  // ---------- objects ----------

  // The protocols of sing-box and Xray that are no servers.
  predicate NoServer(kind: string) {
    || kind == "" || kind == "direct" || kind == "block" || kind == "dns" || kind == "selector" || kind == "urltest"
    || kind == "freedom" || kind == "blackhole" || kind == "loopback"
  }

  // The name under which a protocol is stored: in lower case, and one name for all its aliases.
  predicate StoredAs(protocol: string, stored: string) {
    var name := ToLower(protocol);
    && (name == "hy2" ==> stored == "hysteria2") && (name == "ss" ==> stored == "shadowsocks")
    && (name == "socks4" || name == "socks4a" || name == "socks5" ==> stored == "socks")
    && (name == "https" ==> stored == "http") && (name == "mierus" ==> stored == "mieru")
    && (name == "tt" ==> stored == "trusttunnel") && (name == "wg" ==> stored == "wireguard")
    && (name == "hy2" || name == "ss" || name == "socks4" || name == "socks4a" || name == "socks5" || name == "https"
        || name == "mierus" || name == "tt" || name == "wg" || stored == name)
  }

  lemma NormalizedIsStored(protocol: string)
    ensures StoredAs(protocol, Normalize(protocol))
  {}

  lemma InternalIsNoServer(protocol: string)
    ensures IsInternal(protocol) <==> NoServer(ToLower(protocol))
  {}

  function ProtocolOf(env: Env, o: Fields): string {
    if TextAt(env, o, "type") != "" then TextAt(env, o, "type") else TextAt(env, o, "protocol")
  }

  // The object that gives address and port: the first of settings.vnext for a
  // VLESS object without a server of its own.
  predicate InVnext(env: Env, o: Fields) {
    && ProtocolOf(env, o) == "vless" && TextAt(env, o, "server") == ""
    && |Items(Part(o, "settings"), "vnext")| > 0 && Items(Part(o, "settings"), "vnext")[0].Object?
  }

  function AddressOf(env: Env, o: Fields): string {
    if InVnext(env, o) then TextAt(env, Items(Part(o, "settings"), "vnext")[0].fields, "address")
    else TextAt(env, o, "server")
  }

  function PortOf(env: Env, o: Fields): int {
    if InVnext(env, o) then NumberAt(env, Items(Part(o, "settings"), "vnext")[0].fields, "port")
    else NumberAt(env, o, "server_port")
  }

  lemma PortIsPort(env: Env, text: string)
    ensures PortNumber(env, text) == PortIn(env, text)
  {}

  lemma VnextRead(o: Fields)
    ensures VnextOf(o) ==
      var vnext := Items(Part(o, "settings"), "vnext");
      if |vnext| > 0 && vnext[0].Object? then Some(vnext[0].fields) else None
  {}

  lemma EndpointRead(env: Env, o: Fields)
    ensures ObjectProtocol(env, o) == ProtocolOf(env, o)
    ensures InVnext(env, o) <==>
      ObjectProtocol(env, o) == "vless" && StringValue(env, Get(o, "server")) == "" && VnextOf(o).Some?
    ensures InVnext(env, o) ==>
      AddressOf(env, o) == StringValue(env, Get(VnextOf(o).value, "address"))
      && PortOf(env, o) == IntValue(env, Get(VnextOf(o).value, "port"))
    ensures !InVnext(env, o) ==>
      AddressOf(env, o) == StringValue(env, Get(o, "server")) && PortOf(env, o) == IntValue(env, Get(o, "server_port"))
  {
    VnextRead(o);
    ItemIsText(env, o, "type");
    ItemIsText(env, o, "protocol");
    ItemIsText(env, o, "server");
    ItemIsText(env, o, "server_port");
    if InVnext(env, o) {
      ItemIsText(env, VnextOf(o).value, "address");
      ItemIsText(env, VnextOf(o).value, "port");
    }
  }

  // The server an object gives, field by field; none exactly for the protocols
  // that are no servers.
  lemma ObjectSays(env: Env, o: Fields)
    ensures ServerFromObject(env, o).None? <==> NoServer(ToLower(ProtocolOf(env, o)))
    ensures ServerFromObject(env, o).Some? ==>
      var c := ServerFromObject(env, o).value;
      && c.source == "" && c.outbound == Some(Object(o)) && StoredAs(ProtocolOf(env, o), c.protocol)
      && c.address == AddressOf(env, o) && c.port == PortOf(env, o)
      && c.name == (if TextAt(env, o, "tag") != "" then TextAt(env, o, "tag")
                    else if TextAt(env, o, "remarks") != "" then TextAt(env, o, "remarks")
                    else env.display(ProtocolOf(env, o), c.address, c.port))
  {
    EndpointRead(env, o);
    InternalIsNoServer(ProtocolOf(env, o));
    NormalizedIsStored(ProtocolOf(env, o));
    ItemIsText(env, o, "tag");
    ItemIsText(env, o, "remarks");
  }

  // ---------- links ----------

  // Without a colon before it, the first "://" ends the scheme.
  lemma SchemeIsLead(lead: string, rest: string)
    requires ':' !in lead
    ensures SchemeOf(lead + "://" + rest) == ToLower(lead)
  {
    var link := lead + "://" + rest;
    var k := IndexOf(link, "://");
    assert link[|lead|..][..3] == "://";
    forall j | 0 <= j < |lead| ensures !HasPrefix(link[j..], "://") {
      assert link[j..][0] == lead[j] && lead[j] in lead;
    }
    assert k == |lead| && link[..k] == lead;
  }

  // No "://", or nothing before it: no scheme, and the line is no link.
  lemma NoScheme(env: Env, link: string)
    requires forall k :: 0 < k < |link| ==> !HasPrefix(link[k..], "://")
    ensures ParseLink(env, link).None?
  {
    assert !HasPrefix(link[|link|..], "://");
    assert SchemeOf(link) == "";
  }

  predicate KnownScheme(scheme: string) {
    || scheme == "socks" || scheme == "socks4" || scheme == "socks4a" || scheme == "socks5" || scheme == "http"
    || scheme == "https" || scheme == "ss" || scheme == "vless" || scheme == "trojan" || scheme == "anytls"
    || scheme == "mieru" || scheme == "mierus" || scheme == "hysteria" || scheme == "hysteria2" || scheme == "hy2"
    || scheme == "tuic" || scheme == "juicity" || scheme == "tt" || scheme == "shadowtls" || scheme == "wg"
    || scheme == "ssh" || scheme == "naive+https" || scheme == "naive+quic"
  }

  // Where an `ss` link without a host name keeps address and port: in base64,
  // behind the last '@', up to and after the first colon.
  ghost predicate InCipherHost(env: Env, u: Url, address: string, port: int) {
    match env.base64(if u.host == "" then u.opaqueText else u.host)
    case None => address == "" && port == 0
    case Some(text) =>
      && (forall lead, place :: text == lead + "@" + place && '@' !in place ==> SplitAtColon(env, place, address, port))
      && ('@' !in text ==> SplitAtColon(env, text, address, port))
  }

  ghost predicate SplitAtColon(env: Env, place: string, address: string, port: int) {
    && (':' !in place ==> address == "" && port == 0)
    && (forall k: nat :: FirstColon(place, k) ==> address == place[..k] && port == PortIn(env, place[k + 1..]))
  }

  lemma EncodedHostSays(env: Env, u: Url)
    ensures InCipherHost(env, u, EncodedHost(env, u).0, EncodedHost(env, u).1)
  {
    var encoded := if u.host == "" then u.opaqueText else u.host;
    if env.base64(encoded).Some? {
      var text := env.base64(encoded).value;
      var place := AfterLast(text, '@');
      ColonFound(place);
      forall k: nat | FirstColon(place, k) ensures k == IndexOf(place, ":") {
        if IndexOf(place, ":") >= 0 { OneFirstColon(place, k, IndexOf(place, ":")); }
      }
      assert SplitAtColon(env, place, EncodedHost(env, u).0, EncodedHost(env, u).1);
      forall lead, p | text == lead + "@" + p && '@' !in p ensures p == place { BehindLast(lead, p); }
      if '@' !in text { BehindLast("", text); }
    }
  }

  ghost predicate LinkEndpoint(env: Env, u: Url, scheme: string, address: string, port: int) {
    if scheme == "ss" && u.hostname == "" then InCipherHost(env, u, address, port)
    else address == u.hostname && port == PortIn(env, u.port)
  }

  lemma LinkPlaceSays(env: Env, u: Url, scheme: string)
    ensures LinkEndpoint(env, u, scheme, LinkPlace(env, scheme, u).0, LinkPlace(env, scheme, u).1)
  {
    PortIsPort(env, u.port);
    EncodedHostSays(env, u);
  }

  lemma SupportedIsKnown(scheme: string)
    ensures SupportedScheme(scheme) <==> KnownScheme(scheme)
  {}

  lemma LinkIsParsed(env: Env, link: string)
    requires SchemeOf(link) != "vmess" && SchemeOf(link) != "json"
    ensures ParseLink(env, link) ==
      if KnownScheme(SchemeOf(link)) && env.url(link).Some?
      then ParseUrl(env, link, SchemeOf(link), env.url(link).value) else None
  {
    SupportedIsKnown(SchemeOf(link));
  }

  // The server of a URL link, field by field; none exactly when the scheme is
  // unknown, the URL is malformed or no address is found.
  lemma LinkSays(env: Env, link: string)
    requires SchemeOf(link) != "vmess" && SchemeOf(link) != "json"
    ensures ParseLink(env, link).Some? ==>
      KnownScheme(SchemeOf(link)) && env.url(link).Some?
      && var u, c := env.url(link).value, ParseLink(env, link).value;
        && c.source == link && StoredAs(SchemeOf(link), c.protocol) && c.address != ""
        && LinkEndpoint(env, u, SchemeOf(link), c.address, c.port)
        && c.name == (if u.fragment != "" then u.fragment else env.display(SchemeOf(link), c.address, c.port))
        && c.outbound == OutboundFromUrl(env, u, c.protocol)
    ensures ParseLink(env, link).None? && KnownScheme(SchemeOf(link)) && env.url(link).Some? ==>
      exists port :: LinkEndpoint(env, env.url(link).value, SchemeOf(link), "", port)
  {
    LinkIsParsed(env, link);
    NormalizedIsStored(SchemeOf(link));
    if env.url(link).Some? { LinkPlaceSays(env, env.url(link).value, SchemeOf(link)); }
  }

  // The object a vmess link carries in base64, and the empty one when there is none.
  function VmessFields(env: Env, link: string): Fields {
    var text := env.base64(if |link| >= 8 && link[..8] == "vmess://" then link[8..] else link);
    var value := if text.Some? then env.decode(text.value) else None;
    if value.Some? && value.value.Object? then value.value.fields else map[]
  }

  lemma VmessObjectRead(env: Env, link: string)
    ensures VmessObject(env, link).Some? ==> VmessObject(env, link).value == VmessFields(env, link)
    ensures VmessObject(env, link).None? ==> VmessFields(env, link) == map[]
  {}

  lemma VmessCandidateSays(env: Env, link: string, o: Fields)
    ensures if TextAt(env, o, "add") == "" then VmessCandidate(env, link, o).None?
      else VmessCandidate(env, link, o) == Some(Candidate(
        if TextAt(env, o, "ps") != "" then TextAt(env, o, "ps")
        else env.display("vmess", TextAt(env, o, "add"), NumberAt(env, o, "port")),
        "vmess", TextAt(env, o, "add"), NumberAt(env, o, "port"), link, VmessOutbound(env, o)))
  {
    ItemIsText(env, o, "add");
    ItemIsText(env, o, "ps");
    ItemIsText(env, o, "port");
  }

  // The server of a vmess link, field by field; none exactly without an address.
  lemma VmessLinkSays(env: Env, link: string)
    requires SchemeOf(link) == "vmess"
    ensures ParseLink(env, link).None? <==> TextAt(env, VmessFields(env, link), "add") == ""
    ensures ParseLink(env, link).Some? ==>
      var o, c := VmessFields(env, link), ParseLink(env, link).value;
      && c.protocol == "vmess" && c.source == link
      && c.address == TextAt(env, o, "add") && c.port == NumberAt(env, o, "port")
      && c.name == (if TextAt(env, o, "ps") != "" then TextAt(env, o, "ps")
                    else env.display("vmess", c.address, c.port))
      && c.outbound == VmessOutbound(env, o)
  {
    VmessObjectRead(env, link);
    VmessCandidateSays(env, link, VmessFields(env, link));
  }

  // A JSON link carries exactly one server in base64.
  lemma JsonLinkSays(env: Env, link: string)
    requires SchemeOf(link) == "json" && ParseLink(env, link).Some?
    ensures env.url(link).Some? && env.base64(env.url(link).value.fragment).Some?
    ensures var found := FromJson(env, env.base64(env.url(link).value.fragment).value);
      found.Found? && |found.servers| == 1 && ParseLink(env, link) == Some(found.servers[0].(source := link))
  {}

  // When a URL link's server is ready to connect: exactly for the generated
  // protocols, with a host name, and with a user for VLESS.
  lemma LinkReadiness(env: Env, link: string)
    requires ParseLink(env, link).Some? && SchemeOf(link) != "vmess" && SchemeOf(link) != "json"
    ensures var u := env.url(link).value; var c := ParseLink(env, link).value;
      c.outbound.Some? <==>
        u.hostname != "" && Generates(c.protocol) && (c.protocol == "vless" ==> NameOf(u) != "")
  {
    LinkSays(env, link);
    OutboundSays(env, env.url(link).value, ParseLink(env, link).value.protocol);
  }

  // The outbound of an imported link says what the link says: the whole way from
  // the line to the keys of the document.
  lemma LinkOutboundSays(env: Env, link: string)
    requires ParseLink(env, link).Some? && ParseLink(env, link).value.outbound.Some?
    requires SchemeOf(link) != "vmess" && SchemeOf(link) != "json"
    ensures env.url(link).Some?
    ensures var c := ParseLink(env, link).value;
      c.outbound.value.Object? && Says(env, c.outbound.value.fields, env.url(link).value, c.protocol)
  {
    LinkSays(env, link);
    OutboundSays(env, env.url(link).value, ParseLink(env, link).value.protocol);
  }

  // ---------- whole bodies ----------

  function OrNone(servers: seq<Candidate>): Option<seq<Candidate>> {
    if |servers| == 0 then None else Some(servers)
  }

  // The objects of a JSON body: its outbounds, else its endpoints, else itself; of
  // a list its own; and every other JSON value is refused.
  predicate Holds(value: Json, objects: seq<Fields>) {
    if value.Array? then objects == ObjectsIn(value.items)
    else
      && value.Object?
      && if "outbounds" in value.fields && value.fields["outbounds"].Array?
         then objects == ObjectsIn(value.fields["outbounds"].items)
         else if "endpoints" in value.fields && value.fields["endpoints"].Array?
         then objects == ObjectsIn(value.fields["endpoints"].items)
         else ("type" in value.fields || "protocol" in value.fields) && objects == [value.fields]
  }

  lemma ListedHolds(value: Json)
    ensures Listed(value).Some? ==> Holds(value, Listed(value).value)
    ensures Listed(value).None? ==> forall objects :: !Holds(value, objects)
  {}

  lemma JsonAt(env: Env, input: string, value: Json, depth: nat)
    requires input != "" && depth <= 2 && env.decode(input) == Some(value)
    ensures forall objects :: Holds(value, objects) ==> ParseAt(env, input, depth) == OrNone(ServersOf(env, objects))
    ensures (forall objects :: !Holds(value, objects)) ==> ParseAt(env, input, depth).None?
  {
    ListedHolds(value);
  }

  lemma PlainAt(env: Env, input: string, depth: nat)
    requires input != "" && depth <= 2 && env.decode(input).None?
    requires env.base64(input).Some? ==> ParseAt(env, env.base64(input).value, depth + 1).None?
    ensures ParseAt(env, input, depth) == OrNone(ServersInLines(env, Lines(input)))
  {}

  // A JSON body gives the servers of its objects, and nothing when there are none.
  lemma JsonBodySays(env: Env, input: string, value: Json)
    requires TrimSpace(input) != "" && env.decode(TrimSpace(input)) == Some(value)
    ensures forall objects :: Holds(value, objects) ==> Parse(env, input) == OrNone(ServersOf(env, objects))
    ensures (forall objects :: !Holds(value, objects)) ==> Parse(env, input).None?
  {
    JsonAt(env, TrimSpace(input), value, 0);
  }

  // A body that is neither JSON nor base64 gives the servers of its lines.
  lemma PlainBodySays(env: Env, input: string)
    requires env.decode(TrimSpace(input)).None? && env.base64(TrimSpace(input)).None? && TrimSpace(input) != ""
    ensures Parse(env, input) == OrNone(ServersInLines(env, Lines(TrimSpace(input))))
  {
    PlainAt(env, TrimSpace(input), 0);
  }

  // ---------- base64 ----------

  // A body that is not JSON and decodes is read from what it decodes to.
  predicate Wraps(env: Env, outer: string, inner: string) {
    outer != "" && env.decode(outer).None? && env.base64(outer) == Some(inner)
  }

  lemma Unwrapped(env: Env, outer: string, inner: string, depth: nat)
    requires Wraps(env, outer, inner) && depth <= 2 && ParseAt(env, inner, depth + 1).Some?
    ensures ParseAt(env, outer, depth) == ParseAt(env, inner, depth + 1)
  {}

  lemma ObjectAt(env: Env, input: string, o: Fields, depth: nat)
    requires input != "" && depth <= 2 && env.decode(input) == Some(Object(o))
    requires "type" in o && "outbounds" !in o && "endpoints" !in o && !NoServer(ToLower(ProtocolOf(env, o)))
    ensures ServerFromObject(env, o).Some? && ParseAt(env, input, depth) == Some([ServerFromObject(env, o).value])
  {
    ObjectSays(env, o);
    OneObject(env, o);
    assert Holds(Object(o), [o]);
    JsonAt(env, input, Object(o), depth);
  }

  lemma TwiceUnwrapped(env: Env, outer: string, middle: string, inner: string, depth: nat)
    requires Wraps(env, outer, middle) && Wraps(env, middle, inner) && depth + 1 <= 2
    requires ParseAt(env, inner, depth + 2).Some?
    ensures ParseAt(env, outer, depth) == ParseAt(env, inner, depth + 2)
  {
    Unwrapped(env, middle, inner, depth + 1);
    Unwrapped(env, outer, middle, depth);
  }

  // Base64 is taken off up to twice ...
  lemma TwiceWrapped(env: Env, input: string, middle: string, inner: string, o: Fields)
    requires Wraps(env, TrimSpace(input), middle) && Wraps(env, middle, inner)
    requires inner != "" && env.decode(inner) == Some(Object(o))
    requires "type" in o && "outbounds" !in o && "endpoints" !in o && !NoServer(ToLower(ProtocolOf(env, o)))
    ensures ServerFromObject(env, o).Some? && Parse(env, input) == Some([ServerFromObject(env, o).value])
  {
    ObjectAt(env, inner, o, 2);
    TwiceUnwrapped(env, TrimSpace(input), middle, inner, 0);
  }

  // ... and no further: what stands deeper is not read, so a body of which the
  // three outer texts hold no link gives nothing.
  lemma ThriceWrapped(env: Env, input: string, middle: string, inner: string, deepest: string)
    requires Wraps(env, TrimSpace(input), middle) && Wraps(env, middle, inner) && Wraps(env, inner, deepest)
    requires ServersInLines(env, Lines(TrimSpace(input))) == [] && ServersInLines(env, Lines(middle)) == []
    requires ServersInLines(env, Lines(inner)) == []
    ensures Parse(env, input).None?
  {
    PlainAt(env, inner, 2);
    PlainAt(env, middle, 1);
    PlainAt(env, TrimSpace(input), 0);
  }
}
