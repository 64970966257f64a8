// What stands in a compiled document, read key by key: whose outbound the proxy
// is, who may authenticate on the netcheck inbound, and the fixed parts.
module Documents {
  import opened Wrappers
  import opened Json
  import opened State
  import opened Config
  import opened Routing

  // ---------- the proxy is the selected server ----------

  // The first server, in profile order, whose id is the selected one.
  ghost predicate Selected(s: State, server: Server) {
    && s.activeServer != "" && server.id == s.activeServer
    && exists i: nat, j: nat :: i < |s.profiles| && IsFirst(s, i, j) && s.profiles[i].servers[j] == server
  }

  // At most one place of the profiles is the first of the selected id.
  predicate IsFirst(s: State, i: nat, j: nat)
    requires i < |s.profiles|
  {
    && j < |s.profiles[i].servers| && s.profiles[i].servers[j].id == s.activeServer
    && (forall k :: 0 <= k < j ==> s.profiles[i].servers[k].id != s.activeServer)
    && (forall h, k :: 0 <= h < i && 0 <= k < |s.profiles[h].servers| ==>
          s.profiles[h].servers[k].id != s.activeServer)
  }

  // A stored outbound that can be connected to: an object that names its type.
  predicate Connectable(server: Server) {
    && server.outbound.Some? && server.outbound.value.Object? && "type" in server.outbound.value.fields
    && server.outbound.value.fields["type"].String? && server.outbound.value.fields["type"].s != ""
  }

  // The entry is the server's own outbound, key by key, under the tag of the proxy.
  ghost predicate IsOutboundOf(entry: Json, server: Server)
    requires Connectable(server)
  {
    && entry.Object? && Has(entry.fields, "tag", String("proxy"))
    && forall k :: k != "tag" ==>
         (k in entry.fields <==> k in server.outbound.value.fields)
         && (k in entry.fields ==> entry.fields[k] == server.outbound.value.fields[k])
  }

  predicate IsDirectEntry(entry: Json) {
    && entry.Object? && entry.fields.Keys == {"type", "tag"}
    && Has(entry.fields, "type", String("direct")) && Has(entry.fields, "tag", String("direct"))
  }

  predicate IsEndpointOf(server: Server)
    requires Connectable(server)
  {
    var kind := server.outbound.value.fields["type"];
    kind == String("wireguard") || kind == String("tailscale")
  }

  lemma {:induction false} FoundIsSelected(s: State, from: nat, server: Server)
    requires from <= |s.profiles| && FindServer(s.profiles[from..], s.activeServer) == Some(server)
    requires forall h, k :: 0 <= h < from && 0 <= k < |s.profiles[h].servers| ==>
               s.profiles[h].servers[k].id != s.activeServer
    ensures exists i: nat, j: nat :: i < |s.profiles| && IsFirst(s, i, j) && s.profiles[i].servers[j] == server
    decreases |s.profiles| - from
  {
    var k := ServerIndex(s.profiles[from].servers, s.activeServer);
    if k >= 0 {
      assert IsFirst(s, from, k);
    } else {
      assert s.profiles[from..][1..] == s.profiles[from + 1..];
      FoundIsSelected(s, from + 1, server);
    }
  }

  lemma NothingFound(s: State, server: Server)
    requires FindServer(s.profiles, s.activeServer).None?
    ensures !Selected(s, server)
  {
    forall i: nat, j: nat | i < |s.profiles| && j < |s.profiles[i].servers|
      ensures s.profiles[i].servers[j].id != s.activeServer
    {
      assert s.profiles[i] in s.profiles && s.profiles[i].servers[j] in s.profiles[i].servers;
    }
  }

  lemma ActiveIsSelected(s: State)
    ensures ActiveServer(s).Some? ==> Selected(s, ActiveServer(s).value)
    ensures (exists server :: Selected(s, server)) ==> ActiveServer(s).Some?
  {
    if s.activeServer != "" {
      assert s.profiles[0..] == s.profiles;
      if ActiveServer(s).Some? {
        FoundIsSelected(s, 0, ActiveServer(s).value);
      } else {
        forall server ensures !Selected(s, server) { NothingFound(s, server); }
      }
    }
  }

  // There is no more than one such place.
  lemma OneIsFirst(s: State, i: nat, j: nat, g: nat, h: nat)
    requires i < |s.profiles| && g < |s.profiles| && IsFirst(s, i, j) && IsFirst(s, g, h)
    ensures i == g && j == h
  {}

  lemma SelectedIsUnique(s: State, a: Server, b: Server)
    requires Selected(s, a) && Selected(s, b)
    ensures a == b
  {
    var i: nat, j: nat :| i < |s.profiles| && IsFirst(s, i, j) && s.profiles[i].servers[j] == a;
    var g: nat, h: nat :| g < |s.profiles| && IsFirst(s, g, h) && s.profiles[g].servers[h] == b;
    OneIsFirst(s, i, j, g, h);
  }

  lemma ReadyIsConnectable(server: Server)
    ensures Ready(server) <==> Connectable(server)
  {}

  // A state builds exactly when the selected server is there and can be connected to.
  lemma BuildsExactly(s: State, n: NetcheckOptions)
    ensures Build(s, n).Some? <==> exists server :: Selected(s, server) && Connectable(server)
  {
    ActiveIsSelected(s);
    if ActiveServer(s).Some? {
      ReadyIsConnectable(ActiveServer(s).value);
      if server :| Selected(s, server) { SelectedIsUnique(s, server, ActiveServer(s).value); }
      forall server | Selected(s, server) ensures server == ActiveServer(s).value {
        SelectedIsUnique(s, server, ActiveServer(s).value);
      }
    }
  }

  lemma TaggedIsOutbound(server: Server)
    requires Connectable(server) && Ready(server)
    ensures IsOutboundOf(Object(Tagged(server)), server)
    ensures IsEndpoint(Field(Tagged(server), "type")) <==> IsEndpointOf(server)
  {}

  lemma DocumentOutbounds(proxy: Fields, route: Json, n: NetcheckOptions)
    ensures var d := Document(proxy, route, n);
      Items(d, "outbounds") == if IsEndpoint(Field(proxy, "type")) then [DIRECT] else [Object(proxy), DIRECT]
  {}

  lemma DocumentEndpoints(proxy: Fields, route: Json, n: NetcheckOptions)
    ensures var d := Document(proxy, route, n);
      Items(d, "endpoints") == if IsEndpoint(Field(proxy, "type")) then [Object(proxy)] else []
  {}

  lemma DirectIsDirect()
    ensures IsDirectEntry(DIRECT)
  {}

  // Of a compiled document, the selected server's own outbound is the proxy, an
  // endpoint for the two endpoint types and an outbound for every other, and the
  // only other entry is the direct one.
  lemma SelectedServerIsTheProxy(s: State, n: NetcheckOptions, server: Server)
    requires Build(s, n).Some? && Selected(s, server)
    ensures Connectable(server)
    ensures var d := Build(s, n).value; var outbounds, endpoints := Items(d, "outbounds"), Items(d, "endpoints");
      if IsEndpointOf(server)
      then |endpoints| == 1 && IsOutboundOf(endpoints[0], server) && |outbounds| == 1 && IsDirectEntry(outbounds[0])
      else |endpoints| == 0 && |outbounds| == 2 && IsOutboundOf(outbounds[0], server) && IsDirectEntry(outbounds[1])
  {
    ActiveIsSelected(s);
    SelectedIsUnique(s, server, ActiveServer(s).value);
    ReadyIsConnectable(server);
    TaggedIsOutbound(server);
    DirectIsDirect();
    var route := RouteObject(Rules(AppsOf(ActiveRoute(s)), n), FinalOf(ActiveRoute(s)));
    DocumentOutbounds(Tagged(server), route, n);
    DocumentEndpoints(Tagged(server), route, n);
  }

  lemma OnlyThisEntry(all: seq<Json>, k: nat, server: Server)
    requires Connectable(server) && |all| == 2 && k < 2 && IsOutboundOf(all[k], server) && IsDirectEntry(all[1 - k])
    ensures forall i :: 0 <= i < 2 && all[i].Object? && Has(all[i].fields, "tag", String("proxy")) ==> i == k
  {}

  // So exactly one entry carries the tag that every rule and the remote DNS server
  // use, and it is that server's outbound.
  lemma OneEntryIsTheProxy(s: State, n: NetcheckOptions) returns (server: Server, k: nat)
    requires Build(s, n).Some?
    ensures var d := Build(s, n).value; var all := Items(d, "outbounds") + Items(d, "endpoints");
      && Selected(s, server) && Connectable(server) && |all| == 2 && k < 2 && IsOutboundOf(all[k], server)
      && forall i :: 0 <= i < 2 && all[i].Object? && Has(all[i].fields, "tag", String("proxy")) ==> i == k
  {
    BuildsExactly(s, n);
    server :| Selected(s, server) && Connectable(server);
    SelectedServerIsTheProxy(s, n, server);
    k := if IsEndpointOf(server) then 1 else 0;
    OnlyThisEntry(Items(Build(s, n).value, "outbounds") + Items(Build(s, n).value, "endpoints"), k, server);
  }

  // The selected server's outbound stands in the document as its proxy.
  ghost predicate ServesSelected(d: Fields, s: State) {
    exists server :: Selected(s, server) && Connectable(server)
      && if IsEndpointOf(server) then |Items(d, "endpoints")| == 1 && IsOutboundOf(Items(d, "endpoints")[0], server)
         else |Items(d, "outbounds")| == 2 && IsOutboundOf(Items(d, "outbounds")[0], server)
  }

  lemma BuiltServesSelected(s: State, n: NetcheckOptions)
    requires Build(s, n).Some?
    ensures ServesSelected(Build(s, n).value, s)
  {
    BuildsExactly(s, n);
    var server :| Selected(s, server) && Connectable(server);
    SelectedServerIsTheProxy(s, n, server);
  }

  // ---------- the inbounds ----------

  // Loopback only, on the given port, with these two credentials and no others.
  predicate IsNetcheckFor(inbound: Json, n: NetcheckOptions) {
    && inbound.Object?
    && Has(inbound.fields, "type", String("mixed")) && Has(inbound.fields, "tag", String("regalia-netcheck"))
    && Has(inbound.fields, "listen", String("127.0.0.1")) && Has(inbound.fields, "listen_port", Int(n.port))
    && |Items(inbound.fields, "users")| == 2
    && Authenticates(Items(inbound.fields, "users")[0], n.directUser, n.directPassword)
    && Authenticates(Items(inbound.fields, "users")[1], n.proxyUser, n.proxyPassword)
    && |inbound.fields| == 5
  }

  predicate Authenticates(user: Json, name: string, password: string) {
    && user.Object? && |user.fields| == 2
    && Has(user.fields, "username", String(name)) && Has(user.fields, "password", String(password))
  }

  predicate IsTun(inbound: Json) {
    && inbound.Object?
    && Has(inbound.fields, "type", String("tun")) && Has(inbound.fields, "tag", String("tun-in"))
    && Has(inbound.fields, "interface_name", String("regalia0"))
    && Items(inbound.fields, "address") == [String("172.19.0.1/30")]
    && Has(inbound.fields, "auto_route", Bool(true)) && Has(inbound.fields, "auto_redirect", Bool(true))
    && Has(inbound.fields, "strict_route", Bool(true))
    && Has(inbound.fields, "stack", String("system")) && Has(inbound.fields, "mtu", Int(9000))
    && Excludes(Items(inbound.fields, "route_exclude_address"))
  }

  // Loopback, the private networks, link-local, multicast and broadcast stay outside.
  predicate Excludes(networks: seq<Json>) {
    && |networks| == 7
    && networks[0] == String("127.0.0.0/8") && networks[1] == String("10.0.0.0/8")
    && networks[2] == String("172.16.0.0/12") && networks[3] == String("192.168.0.0/16")
    && networks[4] == String("169.254.0.0/16") && networks[5] == String("224.0.0.0/4")
    && networks[6] == String("255.255.255.255/32")
  }

  lemma CredentialAuthenticates(user: string, password: string)
    ensures Authenticates(Credential(user, password), user, password)
  {}

  lemma NetcheckIsNetcheck(n: NetcheckOptions)
    ensures IsNetcheckFor(NetcheckInbound(n), n)
  {
    CredentialAuthenticates(n.directUser, n.directPassword);
    CredentialAuthenticates(n.proxyUser, n.proxyPassword);
  }

  lemma TunNames()
    ensures TUN.Object?
    ensures Has(TUN.fields, "type", String("tun")) && Has(TUN.fields, "tag", String("tun-in"))
    ensures Has(TUN.fields, "interface_name", String("regalia0")) && Has(TUN.fields, "stack", String("system"))
    ensures Items(TUN.fields, "address") == [String("172.19.0.1/30")]
  {}

  lemma TunSwitches()
    ensures Has(TUN.fields, "auto_route", Bool(true)) && Has(TUN.fields, "auto_redirect", Bool(true))
    ensures Has(TUN.fields, "strict_route", Bool(true)) && Has(TUN.fields, "mtu", Int(9000))
  {}

  lemma TunExcludes()
    ensures Excludes(Items(TUN.fields, "route_exclude_address"))
  {}

  lemma DocumentInbounds(proxy: Fields, route: Json, n: NetcheckOptions)
    ensures Items(Document(proxy, route, n), "inbounds") == Inbounds(n)
  {}

  // The TUN always, and beside it the netcheck inbound exactly when port, users
  // and passwords are all set.
  predicate ServesNetcheck(d: Fields, n: NetcheckOptions) {
    var inbounds := Items(d, "inbounds");
    && |inbounds| >= 1 && IsTun(inbounds[0])
    && if n.port > 0 && n.directUser != "" && n.directPassword != "" && n.proxyUser != "" && n.proxyPassword != ""
       then |inbounds| == 2 && IsNetcheckFor(inbounds[1], n) else |inbounds| == 1
  }

  lemma InboundsAre(s: State, n: NetcheckOptions)
    requires Build(s, n).Some?
    ensures ServesNetcheck(Build(s, n).value, n)
  {
    DocumentInbounds(Tagged(ActiveServer(s).value),
                     RouteObject(Rules(AppsOf(ActiveRoute(s)), n), FinalOf(ActiveRoute(s))), n);
    TunNames();
    TunSwitches();
    TunExcludes();
    NetcheckIsNetcheck(n);
  }

  // ---------- DNS and the fixed parts of the route ----------

  // A local server that resolves the remote one, which is reached through the
  // proxy and answers everything.
  predicate IsDns(dns: Fields) {
    && |Items(dns, "servers")| == 2 && |Items(dns, "rules")| == 1
    && IsLocalServer(Items(dns, "servers")[0]) && IsRemoteServer(Items(dns, "servers")[1])
    && Items(dns, "rules")[0].Object? && |Items(dns, "rules")[0].fields| == 2
    && Has(Items(dns, "rules")[0].fields, "action", String("route"))
    && Has(Items(dns, "rules")[0].fields, "server", String("dns-remote"))
  }

  predicate IsLocalServer(server: Json) {
    && server.Object? && |server.fields| == 2
    && Has(server.fields, "type", String("local")) && Has(server.fields, "tag", String("dns-local"))
  }

  predicate IsRemoteServer(server: Json) {
    && server.Object?
    && Has(server.fields, "type", String("https")) && Has(server.fields, "tag", String("dns-remote"))
    && Has(server.fields, "server", String("1.1.1.1")) && Has(server.fields, "server_port", Int(443))
    && Has(server.fields, "path", String("/dns-query")) && Has(server.fields, "detour", String("proxy"))
    && Has(server.fields, "domain_resolver", String("dns-local"))
  }

  lemma LocalServer()
    ensures |Items(DNS.fields, "servers")| == 2 && IsLocalServer(Items(DNS.fields, "servers")[0])
  {}

  lemma RemoteServer()
    ensures |Items(DNS.fields, "servers")| == 2 && IsRemoteServer(Items(DNS.fields, "servers")[1])
  {}

  lemma DnsIsDns()
    ensures DNS.Object? && IsDns(DNS.fields)
  {
    LocalServer();
    RemoteServer();
  }

  lemma DocumentDns(proxy: Fields, route: Json, n: NetcheckOptions)
    ensures Part(Document(proxy, route, n), "dns") == DNS.fields
  {}

  lemma DnsGoesThroughTheProxy(s: State, n: NetcheckOptions)
    requires Build(s, n).Some?
    ensures IsDns(Part(Build(s, n).value, "dns"))
  {
    DocumentDns(Tagged(ActiveServer(s).value),
                RouteObject(Rules(AppsOf(ActiveRoute(s)), n), FinalOf(ActiveRoute(s))), n);
    DnsIsDns();
  }

  lemma RouteParts(rules: seq<Json>, final: string)
    ensures var route := RouteObject(rules, final).fields;
      && Has(route, "final", String(final)) && Items(route, "rules") == rules
      && Has(route, "find_process", Bool(true)) && Has(route, "auto_detect_interface", Bool(true))
      && Has(Part(route, "default_domain_resolver"), "server", String("dns-local"))
      && Has(Part(route, "default_domain_resolver"), "strategy", String("prefer_ipv4"))
  {}

  lemma ResolvesRemotely(user: string)
    ensures ResolveRule(user).Object?
    ensures var rule := ResolveRule(user).fields;
      && Has(rule, "action", String("resolve")) && Has(rule, "inbound", String("regalia-netcheck"))
      && Has(rule, "auth_user", String(user)) && Has(rule, "server", String("dns-remote"))
      && Has(rule, "strategy", String("prefer_ipv4"))
  {}

  // The names that the direct user asks for are resolved by the remote server.
  lemma DirectNamesAreResolvedRemotely(s: State, n: NetcheckOptions)
    requires Build(s, n).Some? && n.Enabled()
    ensures var rules := Items(Part(Build(s, n).value, "route"), "rules");
      && |rules| > 0 && rules[0].Object?
      && Has(rules[0].fields, "action", String("resolve"))
      && Has(rules[0].fields, "inbound", String("regalia-netcheck"))
      && Has(rules[0].fields, "auth_user", String(n.directUser))
      && Has(rules[0].fields, "server", String("dns-remote"))
      && Has(rules[0].fields, "strategy", String("prefer_ipv4"))
  {
    BuiltRoute(s, n);
    RouteParts(Rules(AppsOf(ActiveRoute(s)), n), FinalOf(ActiveRoute(s)));
    ResolvesRemotely(n.directUser);
    assert Rules(AppsOf(ActiveRoute(s)), n)[0] == ResolveRule(n.directUser);
  }

  // The active route: the first one with the active id, if any.
  predicate IsActiveRoute(s: State, k: nat) {
    && s.activeRoute != "" && k < |s.routes| && s.routes[k].id == s.activeRoute
    && forall i :: 0 <= i < k ==> s.routes[i].id != s.activeRoute
  }

  lemma ActiveRouteIsFirst(s: State)
    ensures ActiveRoute(s).Some? ==> exists k: nat :: IsActiveRoute(s, k) && ActiveRoute(s).value == s.routes[k]
    ensures ActiveRoute(s).None? ==> forall k: nat :: !IsActiveRoute(s, k)
    ensures forall i: nat, k: nat :: IsActiveRoute(s, i) && IsActiveRoute(s, k) ==> i == k
  {
    if ActiveRoute(s).Some? { assert IsActiveRoute(s, RouteIndex(s.routes, s.activeRoute)); }
  }

  // The fixed parts of the route; its final is the default of the active route.
  lemma RouteIsFixed(s: State, n: NetcheckOptions)
    requires Build(s, n).Some?
    ensures var route := Part(Build(s, n).value, "route");
      && Has(route, "find_process", Bool(true)) && Has(route, "auto_detect_interface", Bool(true))
      && Has(Part(route, "default_domain_resolver"), "server", String("dns-local"))
      && Has(Part(route, "default_domain_resolver"), "strategy", String("prefer_ipv4"))
      && (forall k: nat :: IsActiveRoute(s, k) ==> Has(route, "final", String(s.routes[k].defaultOutbound)))
      && ((forall k: nat :: !IsActiveRoute(s, k)) ==> Has(route, "final", String("proxy")))
  {
    BuiltRoute(s, n);
    ActiveRouteIsFirst(s);
    RouteParts(Rules(AppsOf(ActiveRoute(s)), n), FinalOf(ActiveRoute(s)));
  }

  // What is not DNS goes where the active route says: direct for a listed direct
  // path, else the proxy for a listed proxy path, else its default.
  lemma ActiveRouteDecides(s: State, n: NetcheckOptions, c: Conn, k: nat)
    requires Build(s, n).Some? && IsActiveRoute(s, k) && c.inbound == "tun-in" && !c.dns
    ensures var apps := s.routes[k].apps;
      DecideIn(Build(s, n).value, c) == Send(
        if exists i :: 0 <= i < |apps| && apps[i].processPath == c.process && apps[i].outbound == "direct" then "direct"
        else if exists i :: 0 <= i < |apps| && apps[i].processPath == c.process && apps[i].outbound == "proxy"
        then "proxy" else s.routes[k].defaultOutbound)
  {
    ActiveRouteIsFirst(s);
    BuiltDocumentMeans(s, n, c);
  }

  lemma NoRouteMeansProxy(s: State, n: NetcheckOptions, c: Conn)
    requires Build(s, n).Some? && c.inbound == "tun-in" && !c.dns && forall k: nat :: !IsActiveRoute(s, k)
    ensures DecideIn(Build(s, n).value, c) == Send("proxy")
  {
    ActiveRouteIsFirst(s);
    BuiltDocumentMeans(s, n, c);
  }
}
