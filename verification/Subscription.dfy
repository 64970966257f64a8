// internal/subscription: turning a subscription body into candidate servers.
module Subscription {
  import opened Wrappers
  import opened Json
  import opened Text
  import opened Environment

  // subscription.Server; None is an empty Outbound.
  datatype Candidate = Candidate(
    name: string, protocol: string, address: string, port: int, source: string, outbound: Option<Json>)

  // ---------- subscription.go ----------

  function StringValue(env: Env, v: Json): string {
    match v
    case String(s) => s
    case Number(w, f) => env.formatNumber(w, f)
    case _ => ""
  }

  function PortNumber(env: Env, text: string): int {
    var n := env.atoi(text);
    if n.None? || n.value < 1 || n.value > 65535 then 0 else n.value
  }

  function IntValue(env: Env, v: Json): int {
    match v
    case Number(w, _) => w
    case String(s) => PortNumber(env, s)
    case _ => 0
  }

  predicate IsInternal(protocol: string) {
    var p := ToLower(protocol);
    || p == "" || p == "direct" || p == "block" || p == "dns" || p == "selector" || p == "urltest" || p == "freedom"
    || p == "blackhole" || p == "loopback"
  }

  function Normalize(protocol: string): string {
    var p := ToLower(protocol);
    if p == "hy2" then "hysteria2"
    else if p == "ss" then "shadowsocks"
    else if p == "socks4" || p == "socks4a" || p == "socks5" then "socks"
    else if p == "https" then "http"
    else if p == "mierus" then "mieru"
    else if p == "tt" then "trusttunnel"
    else if p == "wg" then "wireguard"
    else p
  }

  predicate SupportedScheme(scheme: string) {
    || scheme == "socks" || scheme == "socks4" || scheme == "socks4a" || scheme == "socks5" || scheme == "http"
    || scheme == "https" || scheme == "ss" || scheme == "vless" || scheme == "trojan" || scheme == "anytls"
    || scheme == "mieru" || scheme == "mierus" || scheme == "hysteria" || scheme == "hysteria2" || scheme == "hy2"
    || scheme == "tuic" || scheme == "juicity" || scheme == "tt" || scheme == "shadowtls" || scheme == "wg"
    || scheme == "ssh" || scheme == "naive+https" || scheme == "naive+quic"
  }

  function ObjectProtocol(env: Env, o: Fields): string {
    var t := StringValue(env, Get(o, "type"));
    if t == "" then StringValue(env, Get(o, "protocol")) else t
  }

  // The Xray form of a VLESS endpoint: settings.vnext[0].
  function VnextOf(o: Fields): Option<Fields> {
    var settings := Get(o, "settings");
    var vnext := if settings.Object? then Get(settings.fields, "vnext") else Null;
    if vnext.Array? && |vnext.items| > 0 && vnext.items[0].Object? then Some(vnext.items[0].fields) else None
  }

  function ServerFromObject(env: Env, o: Fields): Option<Candidate> {
    var protocol := ObjectProtocol(env, o);
    if IsInternal(protocol) then None else
    var tag := StringValue(env, Get(o, "tag"));
    var name := if tag == "" then StringValue(env, Get(o, "remarks")) else tag;
    var direct := (StringValue(env, Get(o, "server")), IntValue(env, Get(o, "server_port")));
    var endpoint :=
      if protocol == "vless" && direct.0 == "" && VnextOf(o).Some? then
        var first := VnextOf(o).value;
        (StringValue(env, Get(first, "address")), IntValue(env, Get(first, "port")))
      else direct;
    var shown := if name == "" then env.display(protocol, endpoint.0, endpoint.1) else name;
    Some(Candidate(shown, Normalize(protocol), endpoint.0, endpoint.1, "", Some(Object(o))))
  }

  datatype JsonServers = NotJson | Unusable | Found(servers: seq<Candidate>)

  function ObjectsIn(values: seq<Json>): seq<Fields> {
    if values == [] then []
    else
      var last := values[|values| - 1];
      ObjectsIn(values[..|values| - 1]) + (if last.Object? then [last.fields] else [])
  }

  // The objects parseJSON looks at, or None when it reports an error.
  function Listed(value: Json): Option<seq<Fields>> {
    match value
    case Object(o) =>
      if Get(o, "outbounds").Array? then Some(ObjectsIn(Get(o, "outbounds").items))
      else if Get(o, "endpoints").Array? then Some(ObjectsIn(Get(o, "endpoints").items))
      else if "type" in o || "protocol" in o then Some([o])
      else None
    case Array(items) => Some(ObjectsIn(items))
    case _ => None
  }

  function ServersOf(env: Env, objects: seq<Fields>): seq<Candidate> {
    if objects == [] then [] else
    var last := ServerFromObject(env, objects[|objects| - 1]);
    ServersOf(env, objects[..|objects| - 1]) + (if last.Some? then [last.value] else [])
  }

  function FromJson(env: Env, input: string): JsonServers {
    var value := env.decode(input);
    if value.None? then NotJson
    else if Listed(value.value).None? then Unusable
    else Found(ServersOf(env, Listed(value.value).value))
  }

  // strings.Index
  function IndexOf(s: string, pattern: string): (k: int)
    ensures -1 <= k < |s| + 1
    ensures k >= 0 ==> HasPrefix(s[k..], pattern)
    ensures forall j :: 0 <= j < |s| && (k < 0 || j < k) ==> !HasPrefix(s[j..], pattern)
  {
    if HasPrefix(s, pattern) then 0
    else if s == [] then -1
    else
      var k := IndexOf(s[1..], pattern);
      assert forall j :: 0 < j < |s| ==> s[j..] == s[1..][j - 1..];
      if k < 0 then -1 else k + 1
  }

  function SchemeOf(link: string): string {
    var end := IndexOf(link, "://");
    if end < 1 then "" else ToLower(link[..end])
  }

  function ParseLink(env: Env, link: string): Option<Candidate> {
    var scheme := SchemeOf(link);
    if scheme == "vmess" then ParseVmess(env, link)
    else if scheme == "json" then ParseJsonLink(env, link)
    else if SupportedScheme(scheme) && env.url(link).Some? then ParseUrl(env, link, scheme, env.url(link).value)
    else None
  }

  function LinkPlace(env: Env, scheme: string, parsed: Url): (string, int) {
    if scheme == "ss" && parsed.hostname == "" then EncodedHost(env, parsed)
    else (parsed.hostname, PortNumber(env, parsed.port))
  }

  function ParseUrl(env: Env, link: string, scheme: string, parsed: Url): Option<Candidate> {
    var (address, port) := LinkPlace(env, scheme, parsed);
    if address == "" then None else
    var name := if parsed.fragment == "" then env.display(scheme, address, port) else parsed.fragment;
    Some(Candidate(name, Normalize(scheme), address, port, link, OutboundFromUrl(env, parsed, Normalize(scheme))))
  }

  function VmessObject(env: Env, link: string): Option<Fields> {
    var decoded := env.base64(if HasPrefix(link, "vmess://") then link[8..] else link);
    var value := if decoded.Some? then env.decode(decoded.value) else None;
    if value.Some? then AsMap(value.value) else None
  }

  function VmessCandidate(env: Env, link: string, o: Fields): Option<Candidate> {
    var address := StringValue(env, Get(o, "add"));
    var port := IntValue(env, Get(o, "port"));
    if address == "" then None else
    var ps := StringValue(env, Get(o, "ps"));
    var name := if ps == "" then env.display("vmess", address, port) else ps;
    Some(Candidate(name, "vmess", address, port, link, VmessOutbound(env, o)))
  }

  function ParseVmess(env: Env, link: string): Option<Candidate> {
    var o := VmessObject(env, link);
    if o.None? then None else VmessCandidate(env, link, o.value)
  }

  function ParseJsonLink(env: Env, link: string): Option<Candidate> {
    var parsed := env.url(link);
    var decoded := if parsed.Some? then env.base64(parsed.value.fragment) else None;
    if decoded.None? then None else
    var found := FromJson(env, decoded.value);
    if found.Found? && |found.servers| == 1 then Some(found.servers[0].(source := link)) else None
  }

  function EncodedHost(env: Env, parsed: Url): (string, int) {
    var decoded := env.base64(if parsed.host == "" then parsed.opaqueText else parsed.host);
    if decoded.None? then ("", 0) else
    var value := AfterLast(decoded.value, '@');
    var colon := IndexOf(value, ":");
    if colon < 0 then ("", 0) else (value[..colon], PortNumber(env, value[colon + 1..]))
  }

  function AfterLast(s: string, c: char): string {
    if c !in s then s else AfterLast(s[IndexOf1(s, c) + 1..], c)
  }

  function IndexOf1(s: string, c: char): (k: nat)
    requires c in s
    ensures k < |s| && s[k] == c && c !in s[..k]
  {
    if s[0] == c then 0
    else
      var k := IndexOf1(s[1..], c);
      assert s[..k + 1] == [s[0]] + s[1..][..k];
      k + 1
  }

  // strings.Split(input, "\n"). Rewriting "\r\n" first only drops a '\r' that
  // trimming each line drops as well.
  function Lines(input: string): (lines: seq<string>)
    decreases |input|
  {
    if '\n' !in input then [input]
    else
      var k := IndexOf1(input, '\n');
      [input[..k]] + Lines(input[k + 1..])
  }

  predicate Skipped(line: string) {
    line == "" || HasPrefix(line, "#") || HasPrefix(line, "//")
  }

  function ServersInLines(env: Env, lines: seq<string>): seq<Candidate> {
    if lines == [] then [] else
    var line := TrimSpace(lines[|lines| - 1]);
    var server := if Skipped(line) then None else ParseLink(env, line);
    ServersInLines(env, lines[..|lines| - 1]) + (if server.Some? then [server.value] else [])
  }

  function NonEmpty(servers: seq<Candidate>): Option<seq<Candidate>> {
    if servers == [] then None else Some(servers)
  }

  // parse: None stands for every error.
  function ParseAt(env: Env, input: string, depth: nat): Option<seq<Candidate>>
    decreases 3 - depth
  {
    if input == "" || depth > 2 then None else
    var json := FromJson(env, input);
    if json.Unusable? then None
    else if json.Found? then NonEmpty(json.servers)
    else
      var decoded := env.base64(input);
      var nested := if decoded.Some? then ParseAt(env, decoded.value, depth + 1) else None;
      if nested.Some? then nested else NonEmpty(ServersInLines(env, Lines(input)))
  }

  function Parse(env: Env, input: string): Option<seq<Candidate>> {
    ParseAt(env, TrimSpace(input), 0)
  }

  // The loops of objectList, parseJSON and parse.

  method ObjectList(values: seq<Json>) returns (objects: seq<Fields>)
    ensures objects == ObjectsIn(values)
  {
    objects := [];
    for i := 0 to |values|
      invariant objects == ObjectsIn(values[..i])
    {
      assert values[..i + 1][..i] == values[..i];
      if values[i].Object? {
        objects := objects + [values[i].fields];
      }
    }
    assert values[..|values|] == values;
  }

  method ParseJson(env: Env, input: string) returns (result: JsonServers)
    ensures result == FromJson(env, input)
  {
    var value := env.decode(input);
    if value.None? {
      return NotJson;
    }
    var objects: seq<Fields> := [];
    match value.value {
      case Object(o) =>
        if Get(o, "outbounds").Array? {
          objects := ObjectList(Get(o, "outbounds").items);
        } else if Get(o, "endpoints").Array? {
          objects := ObjectList(Get(o, "endpoints").items);
        } else if "type" in o || "protocol" in o {
          objects := [o];
        } else {
          return Unusable;
        }
      case Array(items) =>
        objects := ObjectList(items);
      case _ =>
        return Unusable;
    }
    var servers := ServersFromObjects(env, objects);
    return Found(servers);
  }

  method ServersFromObjects(env: Env, objects: seq<Fields>) returns (servers: seq<Candidate>)
    ensures servers == ServersOf(env, objects)
  {
    servers := [];
    for i := 0 to |objects|
      invariant servers == ServersOf(env, objects[..i])
    {
      assert objects[..i + 1][..i] == objects[..i];
      var server := ServerFromObject(env, objects[i]);
      if server.Some? {
        servers := servers + [server.value];
      }
    }
    assert objects[..|objects|] == objects;
  }

  method ParseBody(env: Env, input: string, depth: nat) returns (result: Option<seq<Candidate>>)
    ensures result == ParseAt(env, input, depth)
    decreases 3 - depth
  {
    if |input| == 0 || depth > 2 {
      return None;
    }
    var json := ParseJson(env, input);
    if json.Unusable? {
      return None;
    }
    if json.Found? {
      return NonEmpty(json.servers);
    }
    var decoded := env.base64(input);
    if decoded.Some? {
      var nested := ParseBody(env, decoded.value, depth + 1);
      if nested.Some? {
        return nested;
      }
    }
    var servers := ServersFromLines(env, Lines(input));
    return NonEmpty(servers);
  }

  method ServersFromLines(env: Env, lines: seq<string>) returns (servers: seq<Candidate>)
    ensures servers == ServersInLines(env, lines)
  {
    servers := [];
    for i := 0 to |lines|
      invariant servers == ServersInLines(env, lines[..i])
    {
      assert lines[..i + 1][..i] == lines[..i];
      var line := TrimSpace(lines[i]);
      if Skipped(line) {
        continue;
      }
      var server := ParseLink(env, line);
      if server.Some? {
        servers := servers + [server.value];
      }
    }
    assert lines[..|lines|] == lines;
  }

  // ---------- outbound.go ----------

  // url.Values.Get
  function Query(q: map<string, string>, key: string): string {
    if key in q then q[key] else ""
  }

  // m[key] = value, only when the text is not empty.
  function Put(o: Fields, key: string, text: string): Fields {
    if text == "" then o else o[key := String(text)]
  }

  // m[key] = number, only when it is positive.
  function PutNumber(o: Fields, key: string, number: int): Fields {
    if number > 0 then o[key := Int(number)] else o
  }

  function UserName(u: Url): string { if u.user.Some? then u.user.value.name else "" }
  function Password(u: Url): string {
    if u.user.Some? && u.user.value.password.Some? then u.user.value.password.value else ""
  }

  predicate SocksOrHttp(protocol: string) {
    protocol == "socks" || protocol == "socks4" || protocol == "socks4a" || protocol == "socks5"
    || protocol == "http" || protocol == "https"
  }

  // The switch of outboundFromURL: what the protocol adds to type, server and
  // port; None when the protocol is not generated or lacks a required part.
  function Credentials(env: Env, u: Url, protocol: string, base: Fields): Option<Fields> {
    var name, password := UserName(u), Password(u);
    if protocol == "trojan" || protocol == "anytls" || protocol == "hysteria2" then
      Some(base["password" := String(if password != "" then password else name)])
    else if protocol == "vless" then
      if name == "" then None else
      var flowed := Put(base["uuid" := String(name)], "flow", Query(u.query, "flow"));
      var asked := Query(u.query, "packetEncoding");
      var encoding := if asked == "" then "xudp" else asked;
      Some(if encoding == "none" then flowed else flowed["packet_encoding" := String(encoding)])
    else if protocol == "tuic" then
      Some(Put(base["uuid" := String(name)], "password",
               if password != "" then password else Query(u.query, "password")))
    else if SocksOrHttp(protocol) then
      Some(Put(Put(base, "username", name), "password", password))
    else if protocol == "shadowsocks" then
      var credentials := ShadowsocksCredentials(env, u);
      Some(Put(Put(base, "method", credentials.0), "password", credentials.1))
    else None
  }

  function ShadowsocksCredentials(env: Env, u: Url): (string, string) {
    if u.user.None? then ("", "")
    else if u.user.value.password.Some? then (u.user.value.name, u.user.value.password.value)
    else
      var decoded := env.secret(u.user.value.name);
      if decoded.None? then ("", "") else
      var colon := IndexOf(decoded.value, ":");
      if colon < 0 then (decoded.value, "") else (decoded.value[..colon], decoded.value[colon + 1..])
  }

  function BaseOutbound(env: Env, u: Url, protocol: string): Fields {
    PutNumber(map["type" := String(protocol), "server" := String(u.hostname)], "server_port", PortNumber(env, u.port))
  }

  function LinkTls(u: Url, protocol: string): Fields {
    var asked := TlsFromQuery(u.query, u.hostname, protocol);
    if u.scheme == "https" && asked == map[]
    then map["enabled" := Bool(true), "server_name" := String(u.hostname)] else asked
  }

  function OutboundFromUrl(env: Env, u: Url, protocol: string): Option<Json> {
    if u.hostname == "" then None else
    var credited := Credentials(env, u, protocol, BaseOutbound(env, u, protocol));
    if credited.None? then None
    else Some(Object(PutObject(PutObject(credited.value, "tls", LinkTls(u, protocol)),
                               "transport", TransportFromQuery(env, u.query))))
  }

  predicate Truthy(value: string) { value == "1" || ToLower(value) == "true" }

  function Fingerprint(o: Fields, fingerprint: string): Fields {
    if fingerprint == "" then o
    else o["utls" := Object(map["enabled" := Bool(true), "fingerprint" := String(fingerprint)])]
  }

  // splitNonEmpty(value, ",")
  function CommaItems(value: string): seq<string>
    decreases |value|
  {
    var end := if ',' in value then IndexOf1(value, ',') else |value|;
    var item := TrimSpace(value[..end]);
    (if item == "" then [] else [item]) + (if end < |value| then CommaItems(value[end + 1..]) else [])
  }

  // tlsFromQuery, option by option.
  predicate TlsAsked(q: map<string, string>, protocol: string) {
    var security := ToLower(Query(q, "security"));
    security == "tls" || security == "reality" || Query(q, "sni") != "" || Query(q, "peer") != ""
    || protocol == "trojan" || protocol == "hysteria2" || protocol == "tuic" || protocol == "anytls"
  }

  function Named(q: map<string, string>, address: string): Fields {
    var serverName := if Query(q, "sni") != "" then Query(q, "sni")
                      else if Query(q, "peer") != "" then Query(q, "peer") else address;
    Put(map["enabled" := Bool(true)], "server_name", serverName)
  }

  function Unchecked(o: Fields, q: map<string, string>): Fields {
    if Truthy(Query(q, "allowInsecure")) || Truthy(Query(q, "allow_insecure")) || Truthy(Query(q, "insecure"))
    then o["insecure" := Bool(true)] else o
  }

  function Negotiated(o: Fields, q: map<string, string>): Fields {
    var alpn := CommaItems(Query(q, "alpn"));
    if alpn == [] then o else o["alpn" := Strings(alpn)]
  }

  function Reality(o: Fields, q: map<string, string>): Fields {
    var key := Query(q, "pbk");
    if key == "" then o
    else o["reality" := Object(Put(map["enabled" := Bool(true), "public_key" := String(key)],
                                   "short_id", Query(q, "sid")))]
  }

  function TlsFromQuery(q: map<string, string>, address: string, protocol: string): Fields {
    if !TlsAsked(q, protocol) then map[]
    else Reality(Fingerprint(Negotiated(Unchecked(Named(q, address), q), q), Query(q, "fp")), q)
  }

  function HostHeader(o: Fields, kind: string, host: string): Fields {
    if host == "" then o
    else if kind == "ws" then o["headers" := Object(map["Host" := String(host)])]
    else o["host" := String(host)]
  }

  function EarlyData(env: Env, o: Fields, q: map<string, string>): Fields {
    var early := if Query(q, "max_early_data") == "" then None else env.atoi(Query(q, "max_early_data"));
    if early.Some? && early.value > 0 then o["max_early_data" := Int(early.value)] else o
  }

  function TransportKind(q: map<string, string>): string {
    var asked := Query(q, "type");
    if asked == "h2" || (asked == "tcp" && Query(q, "headerType") == "http") then "http" else asked
  }

  function TransportFromQuery(env: Env, q: map<string, string>): Fields {
    var kind := TransportKind(q);
    if kind == "" || kind == "tcp" then map[] else
    var placed := Put(Put(map["type" := String(kind)], "path", Query(q, "path")), "service_name",
        Query(q, "serviceName"));
    var hosted := HostHeader(placed, kind, Query(q, "host"));
    Put(EarlyData(env, hosted, q), "early_data_header_name", Query(q, "early_data_header_name"))
  }

  function Item(env: Env, source: Fields, key: string): string { StringValue(env, Get(source, key)) }

  function VmessUser(env: Env, source: Fields): Fields {
    map["type" := String("vmess"), "server" := String(Item(env, source, "add")),
        "uuid" := String(Item(env, source, "id"))]
  }

  function VmessServer(env: Env, source: Fields): Fields {
    var ported := PutNumber(VmessUser(env, source), "server_port", IntValue(env, Get(source, "port")));
    var security := Item(env, source, "scy");
    PutNumber(Put(ported, "security", if security == "auto" then "" else security),
              "alter_id", IntValue(env, Get(source, "aid")))
  }

  function VmessTls(env: Env, source: Fields): Fields {
    var sni := Item(env, source, "sni");
    if Item(env, source, "tls") != "tls" && sni == "" then map[]
    else Fingerprint(Put(map["enabled" := Bool(true)], "server_name", sni), Item(env, source, "fp"))
  }

  function VmessTransport(env: Env, source: Fields): Fields {
    var net := Item(env, source, "net");
    var kind := if net == "h2" then "http" else net;
    var typed := if kind == "" || kind == "tcp" then map[] else map["type" := String(kind)];
    HostHeader(Put(typed, "path", Item(env, source, "path")), kind, Item(env, source, "host"))
  }

  // outbound[key] = Object(part), only when the part has a field.
  function PutObject(o: Fields, key: string, part: Fields): Fields {
    if part == map[] then o else o[key := Object(part)]
  }

  function VmessOutbound(env: Env, source: Fields): Option<Json> {
    if Item(env, source, "add") == "" || Item(env, source, "id") == "" then None
    else Some(Object(PutObject(PutObject(VmessServer(env, source), "tls", VmessTls(env, source)),
                               "transport", VmessTransport(env, source))))
  }

  // ---------- what an import guarantees ----------

  predicate Reserved(kind: string) { kind == "direct" || kind == "block" || kind == "dns" }

  // No imported outbound is one of the types sing-box reserves for itself.
  predicate Importable(outbound: Option<Json>) {
    outbound.Some? ==>
      outbound.value.Object? && !Reserved(Field(outbound.value.fields, "type"))
  }

  // A candidate is what its identity says: a link's outbound is the one that
  // link generates, a linkless one is a JSON object of its own.
  predicate Genuine(env: Env, source: string, outbound: Option<Json>) {
    if source == "" then outbound.Some? && outbound.value.Object?
    else ParseLink(env, source).Some? && ParseLink(env, source).value.outbound == outbound
  }

  predicate Imported(env: Env, c: Candidate) {
    Importable(c.outbound) && Genuine(env, c.source, c.outbound)
  }

  lemma ReservedIsInternal(kind: string)
    ensures Reserved(kind) ==> IsInternal(kind)
  {}

  lemma FromObjectImported(env: Env, o: Fields)
    requires ServerFromObject(env, o).Some?
    ensures var c := ServerFromObject(env, o).value; c.source == "" && Imported(env, c)
  {
    ReservedIsInternal(Field(o, "type"));
  }

  lemma {:induction false} ServersOfImported(env: Env, objects: seq<Fields>)
    ensures forall c :: c in ServersOf(env, objects) ==> c.source == "" && Imported(env, c)
  {
    if objects != [] {
      var n := |objects| - 1;
      ServersOfImported(env, objects[..n]);
      if ServerFromObject(env, objects[n]).Some? { FromObjectImported(env, objects[n]); }
    }
  }

  lemma PutKeepsType(o: Fields, key: string, text: string)
    requires key != "type"
    ensures Field(Put(o, key, text), "type") == Field(o, "type")
  {}

  lemma CredentialsKeepType(env: Env, u: Url, protocol: string, base: Fields)
    requires Credentials(env, u, protocol, base).Some?
    ensures Field(Credentials(env, u, protocol, base).value, "type") == Field(base, "type")
  {
    forall o: Fields, key, text | key == "flow" || key == "password" || key == "username" || key == "method"
      ensures Field(Put(o, key, text), "type") == Field(o, "type")
    {
      PutKeepsType(o, key, text);
    }
  }

  lemma OutboundTyped(env: Env, u: Url, protocol: string)
    ensures var r := OutboundFromUrl(env, u, protocol);
      r.Some? ==> r.value.Object? && Field(r.value.fields, "type") == protocol
  {
    if OutboundFromUrl(env, u, protocol).Some? {
      CredentialsKeepType(env, u, protocol, BaseOutbound(env, u, protocol));
    }
  }

  lemma VmessTyped(env: Env, source: Fields)
    ensures var r := VmessOutbound(env, source);
      r.Some? ==> r.value.Object? && Field(r.value.fields, "type") == "vmess"
  {
    PutKeepsType(VmessServer(env, source), "security", Item(env, source, "scy"));
    assert Field(VmessServer(env, source), "type") == "vmess";
  }

  // A supported scheme begins with a letter and names no reserved type.
  lemma SchemeShape(scheme: string)
    requires AcceptedScheme(scheme)
    ensures |scheme| > 0 && 'a' <= scheme[0] <= 'z'
    ensures SupportedScheme(scheme) ==> !Reserved(Normalize(scheme))
  {}

  lemma JsonLinkImported(env: Env, link: string)
    requires ParseJsonLink(env, link).Some?
    ensures var c := ParseJsonLink(env, link).value; c.source == link && Importable(c.outbound)
  {
    var text := env.base64(env.url(link).value.fragment).value;
    ServersOfImported(env, Listed(env.decode(text).value).value);
    var servers := FromJson(env, text).servers;
    assert servers[0] in servers;
  }

  lemma LinkImported(env: Env, link: string)
    requires ParseLink(env, link).Some?
    ensures var c := ParseLink(env, link).value; c.source == link != "" && Imported(env, c)
  {
    var scheme := SchemeOf(link);
    assert link != "";
    if scheme == "vmess" {
      VmessTyped(env, VmessObject(env, link).value);
    } else if scheme == "json" {
      JsonLinkImported(env, link);
    } else {
      SchemeShape(scheme);
      OutboundTyped(env, env.url(link).value, Normalize(scheme));
    }
  }

  lemma {:induction false} LinesImported(env: Env, lines: seq<string>)
    ensures forall c :: c in ServersInLines(env, lines) ==> Imported(env, c)
  {
    if lines != [] {
      var n := |lines| - 1;
      LinesImported(env, lines[..n]);
      var line := TrimSpace(lines[n]);
      if !Skipped(line) && ParseLink(env, line).Some? { LinkImported(env, line); }
    }
  }

  // Everything a subscription yields is importable and genuine, at every nesting depth.
  lemma {:induction false} ParseImported(env: Env, input: string, depth: nat)
    requires ParseAt(env, input, depth).Some?
    ensures |ParseAt(env, input, depth).value| > 0
    ensures forall c :: c in ParseAt(env, input, depth).value ==> Imported(env, c)
    decreases 3 - depth
  {
    var json := FromJson(env, input);
    if json.Found? {
      ServersOfImported(env, Listed(env.decode(input).value).value);
    } else {
      LinesImported(env, Lines(input));
      var decoded := env.base64(input);
      if decoded.Some? && ParseAt(env, decoded.value, depth + 1).Some? {
        ParseImported(env, decoded.value, depth + 1);
      }
    }
  }

  predicate AcceptedScheme(scheme: string) { SupportedScheme(scheme) || scheme == "vmess" || scheme == "json" }

  lemma LinkHasScheme(env: Env, link: string)
    requires ParseLink(env, link).Some?
    ensures AcceptedScheme(SchemeOf(link))
  {}

  // A link never reads like a JSON object, so the two kinds of identity cannot meet.
  lemma LinkIsNotAnObject(link: string)
    requires AcceptedScheme(SchemeOf(link))
    ensures !HasPrefix(link, "{")
  {
    SchemeShape(SchemeOf(link));
    assert SchemeOf(link)[0] == LowerChar(link[0]);
  }
}
