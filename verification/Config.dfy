// internal/config/config.go: compiling the stored selection into a sing-box document.
module Config {
  import opened Wrappers
  import opened Json
  import opened State

  datatype NetcheckOptions = NetcheckOptions(
    port: int, directUser: string, directPassword: string, proxyUser: string, proxyPassword: string)
  {
    predicate Enabled() {
      port > 0 && directUser != "" && directPassword != "" && proxyUser != "" && proxyPassword != ""
    }
  }

  const NO_NETCHECK := NetcheckOptions(0, "", "", "", "")

  // ---------- the selection ----------

  // ValidateServer: the outbound decodes to an object with a type.
  predicate Ready(server: Server) {
    && server.outbound.Some?
    && AsMap(server.outbound.value).Some?
    && Field(AsMap(server.outbound.value).value, "type") != ""
  }

  function ActiveServer(s: State): Option<Server> {
    if s.activeServer == "" then None else FindServer(s.profiles, s.activeServer)
  }

  function ActiveRoute(s: State): Option<RouteProfile> {
    if s.activeRoute == "" then None
    else
      var k := RouteIndex(s.routes, s.activeRoute);
      if k < 0 then None else Some(s.routes[k])
  }

  function FinalOf(profile: Option<RouteProfile>): string {
    if profile.Some? then profile.value.defaultOutbound else "proxy"
  }

  function AppsOf(profile: Option<RouteProfile>): seq<AppRule> {
    if profile.Some? then profile.value.apps else []
  }

  predicate IsEndpoint(kind: string) { kind == "wireguard" || kind == "tailscale" }

  // ---------- the route ----------

  function UserRoute(user: string, outbound: string): Json {
    Object(map["inbound" := String("regalia-netcheck"), "auth_user" := String(user),
               "action" := String("route"), "outbound" := String(outbound)])
  }

  function ResolveRule(user: string): Json {
    Object(map["inbound" := String("regalia-netcheck"), "auth_user" := String(user), "action" := String("resolve"),
               "server" := String("dns-remote"), "strategy" := String("prefer_ipv4")])
  }

  function NetcheckRules(n: NetcheckOptions): seq<Json> {
    if n.Enabled()
    then [ResolveRule(n.directUser), UserRoute(n.directUser, "direct"), UserRoute(n.proxyUser, "proxy")]
    else []
  }

  const SNIFF := Object(map["action" := String("sniff")])
  const HIJACK := Object(map["protocol" := String("dns"), "action" := String("hijack-dns")])

  // The paths whose rule names this outbound, in rule order.
  function PathsFor(apps: seq<AppRule>, outbound: string): seq<string> {
    if apps == [] then []
    else PathsFor(apps[..|apps| - 1], outbound)
         + (if apps[|apps| - 1].outbound == outbound then [apps[|apps| - 1].processPath] else [])
  }

  function PathRule(paths: seq<string>, outbound: string): Json {
    Object(map["process_path" := Strings(paths), "action" := String("route"), "outbound" := String(outbound)])
  }

  function AppRules(apps: seq<AppRule>, outbound: string): seq<Json> {
    var paths := PathsFor(apps, outbound);
    if |paths| == 0 then [] else [PathRule(paths, outbound)]
  }

  function Rules(apps: seq<AppRule>, n: NetcheckOptions): seq<Json> {
    NetcheckRules(n) + [SNIFF, HIJACK] + AppRules(apps, "direct") + AppRules(apps, "proxy")
  }

  function RouteObject(rules: seq<Json>, final: string): Json {
    Object(map["rules" := Array(rules), "final" := String(final),
               "find_process" := Bool(true), "auto_detect_interface" := Bool(true),
               "default_domain_resolver" :=
                 Object(map["server" := String("dns-local"), "strategy" := String("prefer_ipv4")])])
  }

  method BuildRoute(profile: Option<RouteProfile>, n: NetcheckOptions) returns (route: Json)
    ensures route == RouteObject(Rules(AppsOf(profile), n), FinalOf(profile))
  {
    var final, apps := "proxy", [];
    if profile.Some? {
      final, apps := profile.value.defaultOutbound, profile.value.apps;
    }
    var rules: seq<Json> := [];
    if n.Enabled() {
      rules := [ResolveRule(n.directUser), UserRoute(n.directUser, "direct"), UserRoute(n.proxyUser, "proxy")];
    }
    rules := rules + [SNIFF, HIJACK];
    ghost var plain := rules;
    var outbounds := ["direct", "proxy"];
    for i := 0 to 2
      invariant rules ==
        plain + (if i > 0 then AppRules(apps, "direct") else []) + (if i > 1 then AppRules(apps, "proxy") else [])
    {
      var paths: seq<string> := [];
      for j := 0 to |apps|
        invariant paths == PathsFor(apps[..j], outbounds[i])
      {
        assert apps[..j + 1][..j] == apps[..j];
        if apps[j].outbound == outbounds[i] {
          paths := paths + [apps[j].processPath];
        }
      }
      assert apps[..|apps|] == apps;
      if |paths| > 0 {
        rules := rules + [PathRule(paths, outbounds[i])];
      }
    }
    route := RouteObject(rules, final);
  }

  // ---------- the document ----------

  const TUN := Object(map[
    "type" := String("tun"), "tag" := String("tun-in"), "interface_name" := String("regalia0"),
    "address" := Strings(["172.19.0.1/30"]), "auto_route" := Bool(true), "auto_redirect" := Bool(true),
    "strict_route" := Bool(true), "stack" := String("system"), "mtu" := Int(9000),
    "route_exclude_address" := Strings(["127.0.0.0/8", "10.0.0.0/8", "172.16.0.0/12", "192.168.0.0/16",
                                        "169.254.0.0/16", "224.0.0.0/4", "255.255.255.255/32"])])

  function Credential(user: string, password: string): Json {
    Object(map["username" := String(user), "password" := String(password)])
  }

  function NetcheckInbound(n: NetcheckOptions): Json {
    Object(map["type" := String("mixed"), "tag" := String("regalia-netcheck"), "listen" := String("127.0.0.1"),
               "listen_port" := Int(n.port),
               "users" := Array([Credential(n.directUser, n.directPassword),
                 Credential(n.proxyUser, n.proxyPassword)])])
  }

  const DIRECT := Object(map["type" := String("direct"), "tag" := String("direct")])

  const DNS := Object(map[
    "servers" := Array([
      Object(map["type" := String("local"), "tag" := String("dns-local")]),
      Object(map["type" := String("https"), "tag" := String("dns-remote"), "server" := String("1.1.1.1"),
                 "server_port" := Int(443), "path" := String("/dns-query"), "detour" := String("proxy"),
                 "domain_resolver" := String("dns-local")])]),
    "rules" := Array([Object(map["action" := String("route"), "server" := String("dns-remote")])])])

  function Inbounds(n: NetcheckOptions): seq<Json> {
    if n.Enabled() then [TUN, NetcheckInbound(n)] else [TUN]
  }

  function Tagged(server: Server): Fields
    requires Ready(server)
  {
    AsMap(server.outbound.value).value["tag" := String("proxy")]
  }

  function Document(proxy: Fields, route: Json, n: NetcheckOptions): Fields {
    var base := map[
      "log" := Object(map["level" := String("info"), "timestamp" := Bool(true)]),
      "certificate" := Object(map["store" := String("system")]),
      "dns" := DNS,
      "inbounds" := Array(Inbounds(n)),
      "outbounds" := Array(if IsEndpoint(Field(proxy, "type")) then [DIRECT] else [Object(proxy), DIRECT]),
      "route" := route];
    if IsEndpoint(Field(proxy, "type")) then base["endpoints" := Array([Object(proxy)])] else base
  }

  // The document for a state, or None when no server can be used.
  function Build(s: State, n: NetcheckOptions): Option<Fields> {
    var server := ActiveServer(s);
    if server.None? || !Ready(server.value) then None
    else Some(Document(Tagged(server.value), RouteObject(Rules(AppsOf(ActiveRoute(s)), n), FinalOf(ActiveRoute(s))), n))
  }

  method BuildWithOptions(snapshot: State, n: NetcheckOptions) returns (document: Option<Fields>)
    ensures document == Build(snapshot, n)
  {
    var server := ActiveServer(snapshot);
    if server.None? {
      return None;
    }
    if !Ready(server.value) {
      return None;
    }
    var proxy := AsMap(server.value.outbound.value).value;
    var proxyType := Field(proxy, "type");
    proxy := proxy["tag" := String("proxy")];
    var outbounds := [DIRECT];
    var endpoints: seq<Json> := [];
    if IsEndpoint(proxyType) {
      endpoints := endpoints + [Object(proxy)];
    } else {
      outbounds := [Object(proxy)] + outbounds;
    }
    var route := BuildRoute(ActiveRoute(snapshot), n);
    var inbounds := [TUN];
    if n.Enabled() {
      inbounds := inbounds + [NetcheckInbound(n)];
    }
    var fields := map[
      "log" := Object(map["level" := String("info"), "timestamp" := Bool(true)]),
      "certificate" := Object(map["store" := String("system")]),
      "dns" := DNS, "inbounds" := Array(inbounds), "outbounds" := Array(outbounds), "route" := route];
    if |endpoints| > 0 {
      fields := fields["endpoints" := Array(endpoints)];
    }
    assert inbounds == Inbounds(n);
    assert IsEndpoint(proxyType) ==> endpoints == [Object(proxy)];
    assert outbounds == if IsEndpoint(proxyType) then [DIRECT] else [Object(proxy), DIRECT];
    document := Some(fields);
  }

  // Only the two selections, the servers and the routes matter to a build.
  lemma BuildReads(s: State, t: State, n: NetcheckOptions)
    requires s.activeServer == t.activeServer && s.activeRoute == t.activeRoute && s.routes == t.routes
    requires FindServer(s.profiles, s.activeServer) == FindServer(t.profiles, s.activeServer)
    ensures Build(s, n) == Build(t, n)
  {}

  // Whether a build succeeds does not depend on the netcheck options.
  lemma BuildableWithAnyOptions(s: State, n: NetcheckOptions, m: NetcheckOptions)
    ensures Build(s, n).Some? == Build(s, m).Some?
  {}

  lemma {:induction false} AppendingAnEmptyProfile(ps: seq<Profile>, p: Profile, id: string)
    requires p.servers == []
    ensures FindServer(ps + [p], id) == FindServer(ps, id)
  {
    if ps != [] {
      assert (ps + [p])[1..] == ps[1..] + [p];
      AppendingAnEmptyProfile(ps[1..], p, id);
    }
  }
}
