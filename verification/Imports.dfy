// What a link's generated outbound says, key by key, in terms of the parts of the
// link.
module Imports {
  import opened Wrappers
  import opened Json
  import opened Text
  import opened Environment
  import opened Subscription

  // ---------- the parts of a link ----------

  function Param(u: Url, key: string): string { if key in u.query then u.query[key] else "" }

  function NameOf(u: Url): string { match u.user case Some(info) => info.name case None => "" }

  function SecretOf(u: Url): string {
    match u.user
    case Some(UserInfo(_, Some(password))) => password
    case _ => ""
  }

  // A key with this text, and no such key for the empty text.
  predicate HasText(o: Fields, key: string, text: string) {
    if text == "" then key !in o else Has(o, key, String(text))
  }

  predicate Same(o: Fields, p: Fields, key: string) {
    (key in o <==> key in p) && (key in o ==> o[key] == p[key])
  }

  // ---------- server and port ----------

  predicate NamesServer(env: Env, o: Fields, u: Url, protocol: string) {
    && Has(o, "type", String(protocol)) && Has(o, "server", String(u.hostname))
    && match env.atoi(u.port)
       case Some(port) => if 1 <= port <= 65535 then Has(o, "server_port", Number(port, 0)) else "server_port" !in o
       case None => "server_port" !in o
  }

  // ---------- credentials ----------

  predicate HasVlessUser(o: Fields, u: Url) {
    && Has(o, "uuid", String(NameOf(u))) && HasText(o, "flow", Param(u, "flow"))
    && (if Param(u, "packetEncoding") == "none" then "packet_encoding" !in o
        else Has(o, "packet_encoding",
                 String(if Param(u, "packetEncoding") == "" then "xudp" else Param(u, "packetEncoding"))))
  }

  predicate FirstColon(text: string, k: nat) { k < |text| && text[k] == ':' && ':' !in text[..k] }

  // Method and password stand in the user part, or together in its decoded text,
  // up to and after the first colon.
  ghost predicate HasCipher(env: Env, o: Fields, u: Url) {
    match u.user
    case None => "method" !in o && "password" !in o
    case Some(UserInfo(name, Some(password))) => HasText(o, "method", name) && HasText(o, "password", password)
    case Some(UserInfo(name, None)) =>
      match env.secret(name)
      case None => "method" !in o && "password" !in o
      case Some(text) =>
        && (':' !in text ==> HasText(o, "method", text) && "password" !in o)
        && (forall k: nat :: FirstColon(text, k) ==>
              HasText(o, "method", text[..k]) && HasText(o, "password", text[k + 1..]))
  }

  // Which part of the link stands under which key, protocol by protocol.
  ghost predicate HasCredentials(env: Env, o: Fields, u: Url, protocol: string) {
    if protocol == "trojan" || protocol == "anytls" || protocol == "hysteria2" then
      Has(o, "password", String(if SecretOf(u) == "" then NameOf(u) else SecretOf(u)))
    else if protocol == "vless" then
      HasVlessUser(o, u)
    else if protocol == "tuic" then
      && Has(o, "uuid", String(NameOf(u)))
      && HasText(o, "password", if SecretOf(u) == "" then Param(u, "password") else SecretOf(u))
    else if protocol == "shadowsocks" then
      HasCipher(env, o, u)
    else
      HasText(o, "username", NameOf(u)) && HasText(o, "password", SecretOf(u))
  }

  predicate CredentialKey(key: string) {
    key == "password" || key == "uuid" || key == "flow" || key == "packet_encoding" || key == "username"
    || key == "method"
  }

  lemma PutReads(o: Fields, key: string, text: string, other: string)
    ensures key !in o ==> HasText(Put(o, key, text), key, text)
    ensures other != key ==> Same(Put(o, key, text), o, other)
  {}

  lemma ColonFound(text: string)
    ensures IndexOf(text, ":") < 0 ==> ':' !in text
    ensures IndexOf(text, ":") >= 0 ==> FirstColon(text, IndexOf(text, ":"))
  {
    var k := IndexOf(text, ":");
    forall j | 0 <= j < |text| && text[j] == ':' ensures HasPrefix(text[j..], ":") {
      assert text[j..][..1] == [text[j]];
    }
    if k >= 0 { assert text[k..][..1] == ":"; }
  }

  lemma OneFirstColon(text: string, j: nat, k: nat)
    requires FirstColon(text, j) && FirstColon(text, k)
    ensures j == k
  {
    assert forall i :: 0 <= i < k ==> text[i] == text[..k][i] && text[i] in text[..k];
    assert forall i :: 0 <= i < j ==> text[i] == text[..j][i] && text[i] in text[..j];
  }

  // ---------- what each protocol puts ----------

  lemma CredentialsLeave(env: Env, u: Url, protocol: string, base: Fields, key: string)
    requires Credentials(env, u, protocol, base).Some? && !CredentialKey(key)
    ensures Same(Credentials(env, u, protocol, base).value, base, key)
  {}

  predicate NoCredentials(base: Fields) { forall key :: key in base ==> !CredentialKey(key) }

  lemma VlessCredentials(env: Env, u: Url, base: Fields)
    requires NoCredentials(base) && Credentials(env, u, "vless", base).Some?
    ensures HasVlessUser(Credentials(env, u, "vless", base).value, u)
  {
    PutReads(base["uuid" := String(NameOf(u))], "flow", Param(u, "flow"), "uuid");
  }

  lemma TuicCredentials(env: Env, u: Url, base: Fields)
    requires NoCredentials(base)
    ensures Credentials(env, u, "tuic", base).Some?
        && HasCredentials(env, Credentials(env, u, "tuic", base).value, u, "tuic")
  {
    var text := if SecretOf(u) != "" then SecretOf(u) else Param(u, "password");
    PutReads(base["uuid" := String(NameOf(u))], "password", text, "uuid");
  }

  lemma TwoTexts(base: Fields, first: string, a: string, second: string, b: string)
    requires first !in base && second !in base && first != second
    ensures var o := Put(Put(base, first, a), second, b); HasText(o, first, a) && HasText(o, second, b)
  {}

  lemma CipherCredentials(env: Env, u: Url, base: Fields)
    requires NoCredentials(base)
    ensures Credentials(env, u, "shadowsocks", base).Some?
        && HasCipher(env, Credentials(env, u, "shadowsocks", base).value, u)
  {
    var (cipher, password) := ShadowsocksCredentials(env, u);
    TwoTexts(base, "method", cipher, "password", password);
    if u.user.Some? && u.user.value.password.None? && env.secret(u.user.value.name).Some? {
      var text := env.secret(u.user.value.name).value;
      ColonFound(text);
      forall k: nat | FirstColon(text, k) ensures k == IndexOf(text, ":") {
        if IndexOf(text, ":") >= 0 { OneFirstColon(text, k, IndexOf(text, ":")); }
      }
    }
  }

  lemma CredentialsAre(env: Env, u: Url, protocol: string, base: Fields)
    requires NoCredentials(base) && Credentials(env, u, protocol, base).Some?
    ensures HasCredentials(env, Credentials(env, u, protocol, base).value, u, protocol)
  {
    if protocol == "vless" {
      VlessCredentials(env, u, base);
    } else if protocol == "tuic" {
      TuicCredentials(env, u, base);
    } else if protocol == "shadowsocks" {
      CipherCredentials(env, u, base);
    } else {
      TwoTexts(base, "username", NameOf(u), "password", SecretOf(u));
    }
  }

  // ---------- TLS ----------

  predicate Yes(text: string) { text == "1" || ToLower(text) == "true" }

  function ServerNameOf(u: Url): string {
    if Param(u, "sni") != "" then Param(u, "sni") else if Param(u, "peer") != "" then Param(u, "peer") else u.hostname
  }

  // The parameters or the protocol ask for TLS.
  predicate AsksTls(u: Url, protocol: string) {
    || ToLower(Param(u, "security")) == "tls" || ToLower(Param(u, "security")) == "reality"
    || Param(u, "sni") != "" || Param(u, "peer") != ""
    || protocol == "trojan" || protocol == "hysteria2" || protocol == "tuic" || protocol == "anytls"
  }

  // Certificates go unchecked exactly when one of the three parameters says so.
  predicate HasInsecure(tls: Fields, u: Url) {
    if Yes(Param(u, "allowInsecure")) || Yes(Param(u, "allow_insecure")) || Yes(Param(u, "insecure"))
    then Has(tls, "insecure", Bool(true)) else "insecure" !in tls
  }

  predicate HasAlpn(tls: Fields, u: Url) {
    if CommaItems(Param(u, "alpn")) == [] then "alpn" !in tls
    else "alpn" in tls && tls["alpn"].Array? && |tls["alpn"].items| == |CommaItems(Param(u, "alpn"))|
         && forall i :: 0 <= i < |tls["alpn"].items| ==> tls["alpn"].items[i] == String(CommaItems(Param(u, "alpn"))[i])
  }

  predicate HasFingerprint(tls: Fields, fingerprint: string) {
    if fingerprint == "" then "utls" !in tls
    else "utls" in tls && |Part(tls, "utls")| == 2 && Has(Part(tls, "utls"), "enabled", Bool(true))
         && Has(Part(tls, "utls"), "fingerprint", String(fingerprint))
  }

  predicate HasReality(tls: Fields, u: Url) {
    if Param(u, "pbk") == "" then "reality" !in tls
    else "reality" in tls && Has(Part(tls, "reality"), "enabled", Bool(true))
         && Has(Part(tls, "reality"), "public_key", String(Param(u, "pbk")))
         && HasText(Part(tls, "reality"), "short_id", Param(u, "sid"))
  }

  // The options of TLS, each from its parameter.
  predicate ReadsTls(tls: Fields, u: Url) {
    && Has(tls, "enabled", Bool(true)) && HasText(tls, "server_name", ServerNameOf(u)) && HasInsecure(tls, u)
    && HasAlpn(tls, u) && HasFingerprint(tls, Param(u, "fp")) && HasReality(tls, u)
  }

  predicate HasTls(o: Fields, u: Url, protocol: string) {
    if AsksTls(u, protocol) then
      "tls" in o && ReadsTls(Part(o, "tls"), u)
    else if u.scheme == "https" then
      && "tls" in o && |Part(o, "tls")| == 2 && Has(Part(o, "tls"), "enabled", Bool(true))
      && Has(Part(o, "tls"), "server_name", String(u.hostname))
    else "tls" !in o
  }

  // ---------- transport ----------

  function KindOf(u: Url): string {
    if Param(u, "type") == "h2" || (Param(u, "type") == "tcp" && Param(u, "headerType") == "http") then "http"
    else Param(u, "type")
  }

  // A host stands in the headers for WebSocket and by itself otherwise.
  predicate HasHost(transport: Fields, kind: string, host: string) {
    if kind == "ws" then
      && "host" !in transport
      && (if host == "" then "headers" !in transport
          else "headers" in transport && |Part(transport, "headers")| == 1
               && Has(Part(transport, "headers"), "Host", String(host)))
    else "headers" !in transport && HasText(transport, "host", host)
  }

  predicate HasEarlyData(env: Env, transport: Fields, u: Url) {
    match if Param(u, "max_early_data") == "" then None else env.atoi(Param(u, "max_early_data"))
    case Some(size) => if size > 0 then Has(transport, "max_early_data", Number(size, 0))
                       else "max_early_data" !in transport
    case None => "max_early_data" !in transport
  }

  predicate ReadsTransport(env: Env, transport: Fields, u: Url) {
    && Has(transport, "type", String(KindOf(u)))
    && HasText(transport, "path", Param(u, "path")) && HasText(transport, "service_name", Param(u, "serviceName"))
    && HasHost(transport, KindOf(u), Param(u, "host")) && HasEarlyData(env, transport, u)
    && HasText(transport, "early_data_header_name", Param(u, "early_data_header_name"))
  }

  predicate HasTransport(env: Env, o: Fields, u: Url) {
    if KindOf(u) == "" || KindOf(u) == "tcp" then "transport" !in o
    else "transport" in o && ReadsTransport(env, Part(o, "transport"), u)
  }

  // ---------- each option adds its own key ----------

  lemma NamedReads(u: Url)
    ensures var o := Named(u.query, u.hostname);
      && Has(o, "enabled", Bool(true)) && HasText(o, "server_name", ServerNameOf(u))
      && "insecure" !in o && "alpn" !in o && "utls" !in o && "reality" !in o
  {
    PutReads(map["enabled" := Bool(true)], "server_name", ServerNameOf(u), "enabled");
  }

  lemma UncheckedReads(o: Fields, u: Url)
    ensures "insecure" !in o ==> HasInsecure(Unchecked(o, u.query), u)
    ensures forall key :: key != "insecure" ==> Same(Unchecked(o, u.query), o, key)
  {}

  lemma NegotiatedReads(o: Fields, u: Url)
    ensures "alpn" !in o ==> HasAlpn(Negotiated(o, u.query), u)
    ensures forall key :: key != "alpn" ==> Same(Negotiated(o, u.query), o, key)
  {}

  lemma FingerprintReads(o: Fields, fingerprint: string)
    ensures "utls" !in o ==> HasFingerprint(Fingerprint(o, fingerprint), fingerprint)
    ensures forall key :: key != "utls" ==> Same(Fingerprint(o, fingerprint), o, key)
  {}

  lemma RealityReads(o: Fields, u: Url)
    ensures "reality" !in o ==> HasReality(Reality(o, u.query), u)
    ensures forall key :: key != "reality" ==> Same(Reality(o, u.query), o, key)
  {
    if Param(u, "pbk") != "" {
      PutReads(map["enabled" := Bool(true), "public_key" := String(Param(u, "pbk"))],
               "short_id", Param(u, "sid"), "enabled");
      PutReads(map["enabled" := Bool(true), "public_key" := String(Param(u, "pbk"))],
               "short_id", Param(u, "sid"), "public_key");
    }
  }

  // An option that is not the one added stays as it was.
  lemma KeepsReads(o: Fields, p: Fields, u: Url)
    ensures Same(p, o, "enabled") && Has(o, "enabled", Bool(true)) ==> Has(p, "enabled", Bool(true))
    ensures Same(p, o, "server_name") && HasText(o, "server_name", ServerNameOf(u)) ==>
      HasText(p, "server_name", ServerNameOf(u))
    ensures Same(p, o, "insecure") && HasInsecure(o, u) ==> HasInsecure(p, u)
    ensures Same(p, o, "alpn") && HasAlpn(o, u) ==> HasAlpn(p, u)
    ensures Same(p, o, "utls") && HasFingerprint(o, Param(u, "fp")) ==> HasFingerprint(p, Param(u, "fp"))
  {}

  lemma FirstOptionsRead(u: Url)
    ensures var o := Negotiated(Unchecked(Named(u.query, u.hostname), u.query), u.query);
      && Has(o, "enabled", Bool(true)) && HasText(o, "server_name", ServerNameOf(u)) && HasInsecure(o, u)
      && HasAlpn(o, u) && "utls" !in o && "reality" !in o
  {
    var a := Named(u.query, u.hostname);
    var b := Unchecked(a, u.query);
    NamedReads(u);
    UncheckedReads(a, u);
    NegotiatedReads(b, u);
    KeepsReads(a, b, u);
    KeepsReads(b, Negotiated(b, u.query), u);
  }

  lemma AskedAsks(u: Url, protocol: string)
    ensures TlsAsked(u.query, protocol) <==> AsksTls(u, protocol)
  {}

  lemma TlsReads(u: Url, protocol: string)
    ensures TlsFromQuery(u.query, u.hostname, protocol) != map[] <==> AsksTls(u, protocol)
    ensures AsksTls(u, protocol) ==> ReadsTls(TlsFromQuery(u.query, u.hostname, protocol), u)
  {
    var c := Negotiated(Unchecked(Named(u.query, u.hostname), u.query), u.query);
    var d := Fingerprint(c, Param(u, "fp"));
    FirstOptionsRead(u);
    FingerprintReads(c, Param(u, "fp"));
    RealityReads(d, u);
    KeepsReads(c, d, u);
    KeepsReads(d, Reality(d, u.query), u);
    AskedAsks(u, protocol);
  }

  lemma PlacedReads(kind: string, path: string, service: string)
    ensures var o := Put(Put(map["type" := String(kind)], "path", path), "service_name", service);
      && Has(o, "type", String(kind)) && HasText(o, "path", path) && HasText(o, "service_name", service)
      && "host" !in o && "headers" !in o && "max_early_data" !in o && "early_data_header_name" !in o
  {}

  lemma HostReads(o: Fields, kind: string, host: string)
    ensures "host" !in o && "headers" !in o ==> HasHost(HostHeader(o, kind, host), kind, host)
    ensures forall key :: key != "host" && key != "headers" ==> Same(HostHeader(o, kind, host), o, key)
  {}

  lemma EarlyReads(env: Env, o: Fields, u: Url)
    ensures "max_early_data" !in o ==> HasEarlyData(env, EarlyData(env, o, u.query), u)
    ensures forall key :: key != "max_early_data" ==> Same(EarlyData(env, o, u.query), o, key)
  {}

  lemma KeepsHost(o: Fields, p: Fields, kind: string, host: string)
    requires Same(p, o, "host") && Same(p, o, "headers") && HasHost(o, kind, host)
    ensures HasHost(p, kind, host)
  {}

  lemma KindIsKind(u: Url)
    ensures TransportKind(u.query) == KindOf(u)
  {}

  lemma HostedReads(u: Url)
    ensures var kind := KindOf(u);
      var placed := Put(Put(map["type" := String(kind)], "path", Param(u, "path")),
        "service_name", Param(u, "serviceName"));
      var o := HostHeader(placed, kind, Param(u, "host"));
      && Has(o, "type", String(kind)) && HasText(o, "path", Param(u, "path"))
      && HasText(o, "service_name", Param(u, "serviceName"))
      && HasHost(o, kind, Param(u, "host")) && "max_early_data" !in o && "early_data_header_name" !in o
  {
    PlacedReads(KindOf(u), Param(u, "path"), Param(u, "serviceName"));
    HostReads(Put(Put(map["type" := String(KindOf(u))], "path", Param(u, "path")),
        "service_name", Param(u, "serviceName")), KindOf(u), Param(u, "host"));
  }

  lemma LastReads(env: Env, o: Fields, u: Url)
    requires Has(o, "type", String(KindOf(u))) && HasText(o, "path", Param(u, "path"))
    requires HasText(o, "service_name", Param(u, "serviceName")) && HasHost(o, KindOf(u), Param(u, "host"))
    requires HasEarlyData(env, o, u) && "early_data_header_name" !in o
    ensures ReadsTransport(env, Put(o, "early_data_header_name", Param(u, "early_data_header_name")), u)
  {
    var p := Put(o, "early_data_header_name", Param(u, "early_data_header_name"));
    KeepsHost(o, p, KindOf(u), Param(u, "host"));
  }

  lemma FinishReads(env: Env, o: Fields, u: Url)
    requires Has(o, "type", String(KindOf(u))) && HasText(o, "path", Param(u, "path"))
    requires HasText(o, "service_name", Param(u, "serviceName")) && HasHost(o, KindOf(u), Param(u, "host"))
    requires "max_early_data" !in o && "early_data_header_name" !in o
    ensures ReadsTransport(env, Put(EarlyData(env, o, u.query), "early_data_header_name",
        Param(u, "early_data_header_name")), u)
  {
    var sized := EarlyData(env, o, u.query);
    EarlyReads(env, o, u);
    KeepsHost(o, sized, KindOf(u), Param(u, "host"));
    LastReads(env, sized, u);
  }

  lemma TransportReads(env: Env, u: Url)
    ensures TransportFromQuery(env, u.query) != map[] <==> KindOf(u) != "" && KindOf(u) != "tcp"
    ensures KindOf(u) != "" && KindOf(u) != "tcp" ==> ReadsTransport(env, TransportFromQuery(env, u.query), u)
  {
    KindIsKind(u);
    HostedReads(u);
    FinishReads(env, HostHeader(Put(Put(map["type" := String(KindOf(u))], "path", Param(u, "path")),
        "service_name", Param(u, "serviceName")), KindOf(u), Param(u, "host")), u);
  }

  // ---------- the whole outbound ----------

  lemma AssembledReads(o: Fields, tls: Fields, transport: Fields)
    requires "tls" !in o && "transport" !in o
    ensures var all := PutObject(PutObject(o, "tls", tls), "transport", transport);
      && (if tls == map[] then "tls" !in all else Has(all, "tls", Object(tls)))
      && (if transport == map[] then "transport" !in all else Has(all, "transport", Object(transport)))
      && forall key :: key != "tls" && key != "transport" ==> Same(all, o, key)
  {}

  // The protocols for which an outbound is generated.
  predicate Generates(protocol: string) {
    || protocol == "trojan" || protocol == "anytls" || protocol == "hysteria2" || protocol == "vless"
    || protocol == "tuic" || protocol == "shadowsocks" || protocol == "socks" || protocol == "socks4"
    || protocol == "socks4a" || protocol == "socks5" || protocol == "http" || protocol == "https"
  }

  // The credential keys of a protocol.
  predicate OwnKey(protocol: string, key: string) {
    if protocol == "vless" then key == "uuid" || key == "flow" || key == "packet_encoding"
    else if protocol == "tuic" then key == "uuid" || key == "password"
    else if protocol == "shadowsocks" then key == "method" || key == "password"
    else if protocol == "trojan" || protocol == "anytls" || protocol == "hysteria2" then key == "password"
    else key == "username" || key == "password"
  }

  predicate KnownKey(protocol: string, key: string) {
    || key == "type" || key == "server" || key == "server_port" || key == "tls" || key == "transport"
    || OwnKey(protocol, key)
  }

  lemma CredentialsAddOwn(env: Env, u: Url, protocol: string, base: Fields, key: string)
    requires Credentials(env, u, protocol, base).Some? && key in Credentials(env, u, protocol, base).value
    ensures key in base || OwnKey(protocol, key)
  {}

  lemma CredentialsExist(env: Env, u: Url, protocol: string, base: Fields)
    ensures Credentials(env, u, protocol, base).Some? <==>
      Generates(protocol) && (protocol == "vless" ==> NameOf(u) != "")
  {}

  lemma BaseReads(env: Env, u: Url, protocol: string)
    ensures var o := BaseOutbound(env, u, protocol);
      && NamesServer(env, o, u, protocol) && NoCredentials(o) && "tls" !in o && "transport" !in o
      && forall key :: key in o ==> key == "type" || key == "server" || key == "server_port"
  {}

  lemma CreditedReads(env: Env, u: Url, protocol: string)
    requires Generates(protocol) && (protocol == "vless" ==> NameOf(u) != "")
    ensures Credentials(env, u, protocol, BaseOutbound(env, u, protocol)).Some?
    ensures var o := Credentials(env, u, protocol, BaseOutbound(env, u, protocol)).value;
      && NamesServer(env, o, u, protocol) && HasCredentials(env, o, u, protocol)
      && "tls" !in o && "transport" !in o
      && forall key :: key in o ==> KnownKey(protocol, key)
  {
    var base := BaseOutbound(env, u, protocol);
    BaseReads(env, u, protocol);
    CredentialsExist(env, u, protocol, base);
    CredentialsAre(env, u, protocol, base);
    CredentialsLeave(env, u, protocol, base, "type");
    CredentialsLeave(env, u, protocol, base, "server");
    CredentialsLeave(env, u, protocol, base, "server_port");
    CredentialsLeave(env, u, protocol, base, "tls");
    CredentialsLeave(env, u, protocol, base, "transport");
    forall key | key in Credentials(env, u, protocol, base).value ensures KnownKey(protocol, key) {
      CredentialsAddOwn(env, u, protocol, base, key);
    }
  }

  predicate SameBut(all: Fields, o: Fields) {
    && Same(all, o, "type") && Same(all, o, "server") && Same(all, o, "server_port") && Same(all, o, "password")
    && Same(all, o, "uuid") && Same(all, o, "flow") && Same(all, o, "packet_encoding")
    && Same(all, o, "username") && Same(all, o, "method")
  }

  lemma CredentialsCarryOver(env: Env, u: Url, protocol: string, o: Fields, all: Fields)
    requires SameBut(all, o) && NamesServer(env, o, u, protocol) && HasCredentials(env, o, u, protocol)
    ensures NamesServer(env, all, u, protocol) && HasCredentials(env, all, u, protocol)
  {}

  lemma LinkTlsReads(u: Url, protocol: string)
    ensures LinkTls(u, protocol) == map[] <==> !AsksTls(u, protocol) && u.scheme != "https"
    ensures AsksTls(u, protocol) ==> ReadsTls(LinkTls(u, protocol), u)
    ensures !AsksTls(u, protocol) && u.scheme == "https" ==>
      |LinkTls(u, protocol)| == 2 && Has(LinkTls(u, protocol), "enabled", Bool(true))
      && Has(LinkTls(u, protocol), "server_name", String(u.hostname))
  {
    TlsReads(u, protocol);
    assert !AsksTls(u, protocol) && u.scheme == "https" ==> "enabled" in LinkTls(u, protocol);
  }

  lemma TlsOfLink(u: Url, protocol: string, all: Fields)
    requires if LinkTls(u, protocol) == map[] then "tls" !in all else Has(all, "tls", Object(LinkTls(u, protocol)))
    ensures HasTls(all, u, protocol)
  {
    LinkTlsReads(u, protocol);
  }

  lemma TransportOfLink(env: Env, u: Url, all: Fields)
    requires var transport := TransportFromQuery(env, u.query);
      if transport == map[] then "transport" !in all else Has(all, "transport", Object(transport))
    ensures HasTransport(env, all, u)
  {
    TransportReads(env, u);
  }

  ghost predicate Says(env: Env, o: Fields, u: Url, protocol: string) {
    && NamesServer(env, o, u, protocol) && HasCredentials(env, o, u, protocol)
    && HasTls(o, u, protocol) && HasTransport(env, o, u)
    && forall key :: key in o ==> KnownKey(protocol, key)
  }

  lemma AssembledKeys(protocol: string, o: Fields, tls: Fields, transport: Fields)
    requires forall key :: key in o ==> KnownKey(protocol, key)
    ensures forall key :: key in PutObject(PutObject(o, "tls", tls), "transport", transport) ==> KnownKey(protocol, key)
  {}

  lemma AssembledCredentials(env: Env, u: Url, protocol: string, o: Fields, tls: Fields, transport: Fields)
    requires NamesServer(env, o, u, protocol) && HasCredentials(env, o, u, protocol)
    requires "tls" !in o && "transport" !in o
    ensures var all := PutObject(PutObject(o, "tls", tls), "transport", transport);
      NamesServer(env, all, u, protocol) && HasCredentials(env, all, u, protocol)
  {
    AssembledReads(o, tls, transport);
    CredentialsCarryOver(env, u, protocol, o, PutObject(PutObject(o, "tls", tls), "transport", transport));
  }

  lemma AssembledOptions(env: Env, u: Url, protocol: string, o: Fields)
    requires "tls" !in o && "transport" !in o
    ensures var all := PutObject(PutObject(o, "tls", LinkTls(u, protocol)),
        "transport", TransportFromQuery(env, u.query));
      HasTls(all, u, protocol) && HasTransport(env, all, u)
  {
    var tls, transport := LinkTls(u, protocol), TransportFromQuery(env, u.query);
    var all := PutObject(PutObject(o, "tls", tls), "transport", transport);
    AssembledReads(o, tls, transport);
    TlsOfLink(u, protocol, all);
    TransportOfLink(env, u, all);
  }

  lemma AssembledSays(env: Env, u: Url, protocol: string, credited: Fields)
    requires NamesServer(env, credited, u, protocol) && HasCredentials(env, credited, u, protocol)
    requires "tls" !in credited && "transport" !in credited && forall key :: key in credited ==> KnownKey(protocol, key)
    ensures Says(env, PutObject(PutObject(credited, "tls", LinkTls(u, protocol)),
                                "transport", TransportFromQuery(env, u.query)), u, protocol)
  {
    var tls, transport := LinkTls(u, protocol), TransportFromQuery(env, u.query);
    AssembledCredentials(env, u, protocol, credited, tls, transport);
    AssembledOptions(env, u, protocol, credited);
    AssembledKeys(protocol, credited, tls, transport);
  }

  // A generated outbound exists exactly for the generated protocols, with a host,
  // and with a user for VLESS; and it says just what the link says.
  lemma OutboundSays(env: Env, u: Url, protocol: string)
    ensures OutboundFromUrl(env, u, protocol).Some? <==>
      u.hostname != "" && Generates(protocol) && (protocol == "vless" ==> NameOf(u) != "")
    ensures OutboundFromUrl(env, u, protocol).Some? ==>
      OutboundFromUrl(env, u, protocol).value.Object?
      && Says(env, OutboundFromUrl(env, u, protocol).value.fields, u, protocol)
  {
    CredentialsExist(env, u, protocol, BaseOutbound(env, u, protocol));
    if OutboundFromUrl(env, u, protocol).Some? {
      CreditedReads(env, u, protocol);
      AssembledSays(env, u, protocol, Credentials(env, u, protocol, BaseOutbound(env, u, protocol)).value);
    }
  }

  // ---------- vmess ----------

  function TextAt(env: Env, o: Fields, key: string): string {
    if key !in o then "" else
    match o[key]
    case String(text) => text
    case Number(whole, fraction) => env.formatNumber(whole, fraction)
    case _ => ""
  }

  function PortIn(env: Env, text: string): int {
    match env.atoi(text)
    case Some(port) => if 1 <= port <= 65535 then port else 0
    case None => 0
  }

  // A number, cut off at the point, or a text that is a port.
  function NumberAt(env: Env, o: Fields, key: string): int {
    if key !in o then 0 else
    match o[key]
    case Number(whole, _) => whole
    case String(text) => PortIn(env, text)
    case _ => 0
  }

  predicate HasPositive(o: Fields, key: string, number: int) {
    if number > 0 then Has(o, key, Number(number, 0)) else key !in o
  }

  predicate VmessSaysServer(env: Env, o: Fields, source: Fields) {
    && Has(o, "type", String("vmess")) && Has(o, "server", String(TextAt(env, source, "add")))
    && Has(o, "uuid", String(TextAt(env, source, "id")))
    && HasPositive(o, "server_port", NumberAt(env, source, "port"))
    && HasPositive(o, "alter_id", NumberAt(env, source, "aid"))
    && HasText(o, "security", if TextAt(env, source, "scy") == "auto" then "" else TextAt(env, source, "scy"))
  }

  predicate VmessSaysTls(env: Env, o: Fields, source: Fields) {
    if TextAt(env, source, "tls") != "tls" && TextAt(env, source, "sni") == "" then "tls" !in o
    else
      && "tls" in o && Has(Part(o, "tls"), "enabled", Bool(true)) && "insecure" !in Part(o, "tls")
      && HasText(Part(o, "tls"), "server_name", TextAt(env, source, "sni"))
      && HasFingerprint(Part(o, "tls"), TextAt(env, source, "fp"))
  }

  function VmessKind(env: Env, source: Fields): string {
    if TextAt(env, source, "net") == "h2" then "http"
    else if TextAt(env, source, "net") == "tcp" then "" else TextAt(env, source, "net")
  }

  predicate VmessSaysTransport(env: Env, o: Fields, source: Fields) {
    var kind, path, host := VmessKind(env, source), TextAt(env, source, "path"), TextAt(env, source, "host");
    if kind == "" && path == "" && host == "" then "transport" !in o
    else
      && "transport" in o && HasText(Part(o, "transport"), "type", kind)
      && HasText(Part(o, "transport"), "path", path) && HasHost(Part(o, "transport"), kind, host)
  }

  lemma ItemIsText(env: Env, o: Fields, key: string)
    ensures Item(env, o, key) == TextAt(env, o, key) == StringValue(env, Get(o, key))
    ensures IntValue(env, Get(o, key)) == NumberAt(env, o, key)
  {}

  lemma PutNumberReads(o: Fields, key: string, number: int)
    ensures key !in o ==> HasPositive(PutNumber(o, key, number), key, number)
    ensures forall other :: other != key ==> Same(PutNumber(o, key, number), o, other)
  {}

  lemma VmessUserReads(env: Env, source: Fields)
    ensures var o := VmessUser(env, source);
      && Has(o, "type", String("vmess")) && Has(o, "server", String(TextAt(env, source, "add")))
      && Has(o, "uuid", String(TextAt(env, source, "id"))) && |o| == 3
      && "server_port" !in o && "security" !in o && "alter_id" !in o && "tls" !in o && "transport" !in o
  {
    ItemIsText(env, source, "add");
    ItemIsText(env, source, "id");
  }

  lemma VmessServerReads(env: Env, source: Fields)
    ensures VmessSaysServer(env, VmessServer(env, source), source)
    ensures "tls" !in VmessServer(env, source) && "transport" !in VmessServer(env, source)
  {
    var user := VmessUser(env, source);
    var ported := PutNumber(user, "server_port", NumberAt(env, source, "port"));
    var security := if TextAt(env, source, "scy") == "auto" then "" else TextAt(env, source, "scy");
    ItemIsText(env, source, "scy");
    ItemIsText(env, source, "port");
    ItemIsText(env, source, "aid");
    VmessUserReads(env, source);
    PutNumberReads(user, "server_port", NumberAt(env, source, "port"));
    PutReads(ported, "security", security, "server");
    PutReads(ported, "security", security, "uuid");
    PutReads(ported, "security", security, "type");
    PutReads(ported, "security", security, "server_port");
    PutReads(ported, "security", security, "alter_id");
    PutReads(ported, "security", security, "tls");
    PutReads(ported, "security", security, "transport");
    PutNumberReads(Put(ported, "security", security), "alter_id", NumberAt(env, source, "aid"));
  }

  lemma VmessTlsReads(env: Env, source: Fields)
    ensures var tls := VmessTls(env, source);
      if TextAt(env, source, "tls") != "tls" && TextAt(env, source, "sni") == "" then tls == map[]
      else
        && tls != map[] && Has(tls, "enabled", Bool(true)) && "insecure" !in tls
        && HasText(tls, "server_name", TextAt(env, source, "sni")) && HasFingerprint(tls, TextAt(env, source, "fp"))
  {
    var sni := TextAt(env, source, "sni");
    ItemIsText(env, source, "tls");
    ItemIsText(env, source, "sni");
    ItemIsText(env, source, "fp");
    var named := Put(map["enabled" := Bool(true)], "server_name", sni);
    FingerprintReads(named, TextAt(env, source, "fp"));
    assert "enabled" in named;
  }

  lemma VmessTransportReads(env: Env, source: Fields)
    ensures var transport := VmessTransport(env, source);
      var kind, path, host := VmessKind(env, source), TextAt(env, source, "path"), TextAt(env, source, "host");
      if kind == "" && path == "" && host == "" then transport == map[]
      else transport != map[] && HasText(transport, "type", kind) && HasText(transport, "path", path)
           && HasHost(transport, kind, host)
  {
    ItemIsText(env, source, "net");
    ItemIsText(env, source, "path");
    ItemIsText(env, source, "host");
    var kind, path, host := VmessKind(env, source), TextAt(env, source, "path"), TextAt(env, source, "host");
    var typed := if kind == "" then map[] else map["type" := String(kind)];
    PutReads(typed, "path", path, "type");
    HostReads(Put(typed, "path", path), kind, host);
  }

  lemma VmessCarriesOver(env: Env, source: Fields, o: Fields, all: Fields)
    requires VmessSaysServer(env, o, source)
    requires forall key :: key != "tls" && key != "transport" ==> Same(all, o, key)
    ensures VmessSaysServer(env, all, source)
  {
    assert Same(all, o, "type") && Same(all, o, "server") && Same(all, o, "uuid") && Same(all, o, "server_port");
    assert Same(all, o, "alter_id") && Same(all, o, "security");
  }

  lemma VmessOptions(env: Env, source: Fields, all: Fields)
    requires var tls := VmessTls(env, source); if tls == map[] then "tls" !in all else Has(all, "tls", Object(tls))
    requires var transport := VmessTransport(env, source);
      if transport == map[] then "transport" !in all else Has(all, "transport", Object(transport))
    ensures VmessSaysTls(env, all, source) && VmessSaysTransport(env, all, source)
  {
    VmessTlsReads(env, source);
    VmessTransportReads(env, source);
  }

  // The outbound of a vmess link says what its JSON object says.
  lemma VmessSays(env: Env, source: Fields)
    ensures VmessOutbound(env, source).Some? <==> TextAt(env, source, "add") != "" && TextAt(env, source, "id") != ""
    ensures VmessOutbound(env, source).Some? ==>
      VmessOutbound(env, source).value.Object?
      && VmessSaysServer(env, VmessOutbound(env, source).value.fields, source)
      && VmessSaysTls(env, VmessOutbound(env, source).value.fields, source)
      && VmessSaysTransport(env, VmessOutbound(env, source).value.fields, source)
  {
    ItemIsText(env, source, "add");
    ItemIsText(env, source, "id");
    var o, tls, transport := VmessServer(env, source), VmessTls(env, source), VmessTransport(env, source);
    var all := PutObject(PutObject(o, "tls", tls), "transport", transport);
    VmessServerReads(env, source);
    AssembledReads(o, tls, transport);
    VmessCarriesOver(env, source, o, all);
    VmessOptions(env, source, all);
  }
}
