// End to end: what the daemon compiles from any reachable state, the engine
// bridge on the other side of the process boundary accepts.
module Acceptance {
  import opened Wrappers
  import opened Json
  import opened Text
  import opened Environment
  import opened State
  import opened Store
  import opened Config
  import opened Validate
  import opened StoreRuns
  import Routing

  // What the two sides must agree on about the netcheck options.
  predicate SoundNetcheck(n: NetcheckOptions) {
    n.Enabled() ==> 1024 <= n.port <= 65535 && n.directUser != n.proxyUser
  }

  lemma TunAccepted()
    ensures IsTun(TUN) && !IsNetcheckInbound(TUN)
  {
    assert Strings(["172.19.0.1/30"]).items == [String("172.19.0.1/30")];
  }

  lemma NetcheckInboundAccepted(n: NetcheckOptions)
    requires n.Enabled()
    ensures IsNetcheckInbound(NetcheckInbound(n)) <==> SoundNetcheck(n)
    ensures !IsTun(NetcheckInbound(n))
  {
    assert IsCredential(Credential(n.directUser, n.directPassword));
    assert IsCredential(Credential(n.proxyUser, n.proxyPassword));
  }

  lemma InboundsAccepted(n: NetcheckOptions)
    ensures AcceptedInbounds(Array(Inbounds(n))) <==> SoundNetcheck(n)
    ensures HasNetcheck(Array(Inbounds(n))) == n.Enabled()
  {
    TunAccepted();
    if n.Enabled() { NetcheckInboundAccepted(n); }
  }

  lemma PathsAreSound(apps: seq<AppRule>, outbound: string)
    requires forall i :: 0 <= i < |apps| ==> SoundRule(apps[i])
    ensures forall i :: 0 <= i < |PathsFor(apps, outbound)| ==> IsAbs(PathsFor(apps, outbound)[i])
  {}

  lemma AppRulesAccepted(apps: seq<AppRule>, outbound: string)
    requires forall i :: 0 <= i < |apps| ==> SoundRule(apps[i])
    requires ValidOutbound(outbound)
    ensures forall i :: 0 <= i < |AppRules(apps, outbound)| ==> IsAppRule(AppRules(apps, outbound)[i])
  {
    PathsAreSound(apps, outbound);
    var paths := PathsFor(apps, outbound);
    if |paths| > 0 {
      assert IsPathList(Strings(paths));
      assert Get(PathRule(paths, outbound).fields, "process_path") == Strings(paths);
    }
  }

  lemma NetcheckRulesAccepted(n: NetcheckOptions)
    requires n.Enabled()
    ensures IsResolve(ResolveRule(n.directUser)) && User(ResolveRule(n.directUser)) == n.directUser
    ensures IsUserRoute(UserRoute(n.directUser, "direct"), "direct")
        && User(UserRoute(n.directUser, "direct")) == n.directUser
    ensures IsUserRoute(UserRoute(n.proxyUser, "proxy"), "proxy")
        && User(UserRoute(n.proxyUser, "proxy")) == n.proxyUser
  {}

  lemma FixedRulesAccepted()
    ensures IsSniff(SNIFF) && IsHijack(HIJACK)
  {}

  lemma ShapeAccepted(head: seq<Json>, sniff: Json, hijack: Json, tail: seq<Json>, netcheck: bool)
    requires |head| == Base(netcheck) && IsSniff(sniff) && IsHijack(hijack)
    requires forall i :: 0 <= i < |tail| ==> IsAppRule(tail[i])
    requires netcheck ==>
      IsResolve(head[0]) && IsUserRoute(head[1], "direct") && IsUserRoute(head[2], "proxy")
        && User(head[0]) == User(head[1])
    ensures AcceptedRules(head + [sniff, hijack] + tail, netcheck) <==> (netcheck ==> User(head[1]) != User(head[2]))
  {
    var rules := head + [sniff, hijack] + tail;
    forall i | |head| <= i < |rules| ensures IsPlainRule(rules, i, netcheck) {
      if i >= |head| + 2 { assert rules[i] == tail[i - |head| - 2]; }
    }
  }

  // A compiled rule list is accepted exactly when its two netcheck users differ.
  lemma RulesAccepted(apps: seq<AppRule>, n: NetcheckOptions)
    requires forall i :: 0 <= i < |apps| ==> SoundRule(apps[i])
    ensures AcceptedRules(Rules(apps, n), n.Enabled()) <==> (n.Enabled() ==> n.directUser != n.proxyUser)
  {
    AppRulesAccepted(apps, "direct");
    AppRulesAccepted(apps, "proxy");
    FixedRulesAccepted();
    if n.Enabled() { NetcheckRulesAccepted(n); }
    var tail := AppRules(apps, "direct") + AppRules(apps, "proxy");
    assert Rules(apps, n) == NetcheckRules(n) + [SNIFF, HIJACK] + tail;
    ShapeAccepted(NetcheckRules(n), SNIFF, HIJACK, tail, n.Enabled());
  }

  lemma RouteAccepted(rules: seq<Json>, final: string, netcheck: bool)
    requires ValidOutbound(final)
    ensures AcceptedRoute(RouteObject(rules, final), netcheck) <==> AcceptedRules(rules, netcheck)
  {}

  lemma OutboundsAccepted(proxy: Fields)
    requires Field(proxy, "tag") == "proxy" && Field(proxy, "type") !in {"", "direct", "block", "dns"}
    ensures AcceptedOutbounds(Array([Object(proxy), DIRECT]), Null)
    ensures IsEndpoint(Field(proxy, "type")) ==> AcceptedOutbounds(Array([DIRECT]), Array([Object(proxy)]))
  {
    assert IsDirect(DIRECT);
    assert [Object(proxy), DIRECT][1] == DIRECT && [Object(proxy), DIRECT][0] == Object(proxy);
    assert [DIRECT][0] == DIRECT;
  }

  lemma DocumentFields(proxy: Fields, route: Json, n: NetcheckOptions)
    ensures var d := Document(proxy, route, n); var endpoint := IsEndpoint(Field(proxy, "type"));
      && OnlyKeys(d, {"log", "certificate", "dns", "inbounds", "outbounds", "endpoints", "route"})
      && Get(d, "dns") == DNS && Get(d, "route") == route && Get(d, "inbounds") == Array(Inbounds(n))
      && Get(d, "outbounds") == Array(if endpoint then [DIRECT] else [Object(proxy), DIRECT])
      && Get(d, "endpoints") == if endpoint then Array([Object(proxy)]) else Null
  {}

  lemma DocumentAccepted(proxy: Fields, apps: seq<AppRule>, final: string, n: NetcheckOptions)
    requires Field(proxy, "tag") == "proxy" && Field(proxy, "type") !in {"", "direct", "block", "dns"}
    requires ValidOutbound(final) && forall i :: 0 <= i < |apps| ==> SoundRule(apps[i])
    ensures AcceptedDocument(Document(proxy, RouteObject(Rules(apps, n), final), n)) <==> SoundNetcheck(n)
  {
    DocumentFields(proxy, RouteObject(Rules(apps, n), final), n);
    OutboundsAccepted(proxy);
    InboundsAccepted(n);
    RulesAccepted(apps, n);
    RouteAccepted(Rules(apps, n), final, n.Enabled());
    assert DNS.Object?;
  }

  // The validator does not compare the users that the inbound authenticates with
  // the users of the rules: an inbound for one pair and rules for another are
  // accepted together ...
  lemma MismatchedUsersAreAccepted(proxy: Fields, apps: seq<AppRule>, final: string, n: NetcheckOptions,
      m: NetcheckOptions)
    requires Field(proxy, "tag") == "proxy" && Field(proxy, "type") !in {"", "direct", "block", "dns"}
    requires ValidOutbound(final) && forall i :: 0 <= i < |apps| ==> SoundRule(apps[i])
    requires n.Enabled() && m.Enabled() && SoundNetcheck(n) && m.directUser != m.proxyUser
    ensures AcceptedDocument(Document(proxy, RouteObject(Rules(apps, m), final), n))
  {
    DocumentFields(proxy, RouteObject(Rules(apps, m), final), n);
    OutboundsAccepted(proxy);
    InboundsAccepted(n);
    RulesAccepted(apps, m);
    RouteAccepted(Rules(apps, m), final, true);
    assert DNS.Object?;
  }

  // The users that the rules of a compiled route name.
  lemma RuleUsers(d: Fields, apps: seq<AppRule>, final: string, m: NetcheckOptions)
    requires m.Enabled() && Get(d, "route") == RouteObject(Rules(apps, m), final)
    requires AcceptedDocument(d) && HasNetcheck(Get(d, "inbounds"))
    ensures Routing.DirectUser(d) == m.directUser && Routing.ProxyUser(d) == m.proxyUser
  {
    RouteFields(Rules(apps, m), final);
    RuleUsersOf(apps, m);
  }

  lemma RuleUsersOf(apps: seq<AppRule>, m: NetcheckOptions)
    requires m.Enabled()
    ensures |Rules(apps, m)| >= 5 && User(Rules(apps, m)[1]) == m.directUser && User(Rules(apps, m)[2]) == m.proxyUser
  {
    assert Rules(apps, m)[1] == UserRoute(m.directUser, "direct")
        && Rules(apps, m)[2] == UserRoute(m.proxyUser, "proxy");
  }

  lemma RouteFields(rules: seq<Json>, final: string)
    ensures Get(RouteObject(rules, final).fields, "rules") == Array(rules)
  {}

  // ... and then a user that the rules do not name goes where TUN traffic of its
  // process goes, and is not measured.
  lemma MismatchedUserFallsThrough(
    proxy: Fields, apps: seq<AppRule>, final: string, n: NetcheckOptions, m: NetcheckOptions, c: Routing.Conn)
    requires Field(proxy, "tag") == "proxy" && Field(proxy, "type") !in {"", "direct", "block", "dns"}
    requires ValidOutbound(final) && forall i :: 0 <= i < |apps| ==> SoundRule(apps[i])
    requires n.Enabled() && m.Enabled() && SoundNetcheck(n) && m.directUser != m.proxyUser
    requires c.inbound == "regalia-netcheck" && c.user != m.directUser && c.user != m.proxyUser
    ensures var d := Document(proxy, RouteObject(Rules(apps, m), final), n);
      && AcceptedDocument(d)
      && Routing.DecideIn(d, c)
           == if c.dns then Routing.HijackDns else Routing.Send(Routing.Meaning(apps, final, c.process))
  {
    var route := RouteObject(Rules(apps, m), final);
    var d := Document(proxy, route, n);
    MismatchedUsersAreAccepted(proxy, apps, final, n, m);
    Routing.RouteOfDocument(proxy, route, n);
    DocumentInbounds(proxy, route, n);
    RuleUsers(d, apps, final, m);
    Routing.AcceptedNetcheckTraffic(d, c);
    Routing.DecidesByRoute(d, Rules(apps, m), final, c.(inbound := "tun-in"));
    Routing.CompiledRoute(apps, final, m, c.(inbound := "tun-in"));
  }

  lemma DocumentInbounds(proxy: Fields, route: Json, n: NetcheckOptions)
    requires n.Enabled()
    ensures Get(Document(proxy, route, n), "inbounds") == Array(Inbounds(n)) && HasNetcheck(Array(Inbounds(n)))
  {}

  // The concrete input: users a and b authenticated, rules for x and y, no
  // application rules. User a takes the final outbound, whatever it is.
  lemma MismatchExample(proxy: Fields, final: string, c: Routing.Conn)
    requires Field(proxy, "tag") == "proxy" && Field(proxy, "type") !in {"", "direct", "block", "dns"}
    requires ValidOutbound(final) && c == Routing.Conn("regalia-netcheck", "a", "/bin/daemon", false)
    ensures var n, m := NetcheckOptions(39481, "a", "p", "b", "q"), NetcheckOptions(39481, "x", "p", "y", "q");
      var d := Document(proxy, RouteObject(Rules([], m), final), n);
      AcceptedDocument(d) && Routing.DecideIn(d, c) == Routing.Send(final)
  {
    var n, m := NetcheckOptions(39481, "a", "p", "b", "q"), NetcheckOptions(39481, "x", "p", "y", "q");
    MismatchedUserFallsThrough(proxy, [], final, n, m, c);
  }

  // ---------- sniff and DNS rules are optional ----------

  // Two application rules are enough to stand where they would.
  lemma AppRulesAreEnough(m: NetcheckOptions, tail: seq<Json>)
    requires |tail| >= 2 && forall i :: 0 <= i < |tail| ==> IsAppRule(tail[i])
    requires m.Enabled() ==> m.directUser != m.proxyUser
    ensures AcceptedRules(NetcheckRules(m) + tail, m.Enabled())
    ensures var rules, base := NetcheckRules(m) + tail, Base(m.Enabled());
      rules[base] == tail[0] && rules[base + 1] == tail[1] && rules[base..] == tail
  {
    var rules := NetcheckRules(m) + tail;
    if m.Enabled() { NetcheckRulesAccepted(m); }
    forall i | Base(m.Enabled()) <= i < |rules| ensures IsPlainRule(rules, i, m.Enabled()) {
      assert rules[i] == tail[i - Base(m.Enabled())];
    }
  }

  lemma AppRuleIsNotSniff(r: Json)
    requires IsAppRule(r)
    ensures !IsSniff(r) && !IsHijack(r)
  {}

  // With netcheck or without, the validator accepts every document whose rules,
  // past the netcheck ones, are two or more application rules, and so have neither
  // a sniff nor a DNS rule: DNS is then not intercepted.
  lemma SniffAndDnsAreOptional(proxy: Fields, n: NetcheckOptions, m: NetcheckOptions, tail: seq<Json>, final: string)
    requires Field(proxy, "tag") == "proxy" && Field(proxy, "type") !in {"", "direct", "block", "dns"}
    requires SoundNetcheck(n) && n.Enabled() == m.Enabled() && (m.Enabled() ==> m.directUser != m.proxyUser)
    requires ValidOutbound(final) && |tail| >= 2 && forall i :: 0 <= i < |tail| ==> IsAppRule(tail[i])
    ensures var d := Document(proxy, RouteObject(NetcheckRules(m) + tail, final), n);
      AcceptedDocument(d) && !Routing.Intercepts(d)
  {
    var rules := NetcheckRules(m) + tail;
    var d := Document(proxy, RouteObject(rules, final), n);
    AppRulesAreEnough(m, tail);
    AppRuleIsNotSniff(tail[0]);
    RulesMakeDocument(proxy, n, rules, final);
    Routing.RouteOfDocument(proxy, RouteObject(rules, final), n);
    RouteFields(rules, final);
    InboundsAccepted(n);
    DocumentFields(proxy, RouteObject(rules, final), n);
  }

  lemma RulesMakeDocument(proxy: Fields, n: NetcheckOptions, rules: seq<Json>, final: string)
    requires Field(proxy, "tag") == "proxy" && Field(proxy, "type") !in {"", "direct", "block", "dns"}
    requires SoundNetcheck(n) && ValidOutbound(final) && AcceptedRules(rules, n.Enabled())
    ensures AcceptedDocument(Document(proxy, RouteObject(rules, final), n))
  {
    DocumentFields(proxy, RouteObject(rules, final), n);
    OutboundsAccepted(proxy);
    InboundsAccepted(n);
    RouteAccepted(rules, final, n.Enabled());
    assert DNS.Object?;
  }

  // A route that sends everything to the proxy.
  function ProxyTail(): seq<Json> { [PathRule(["/a"], "proxy"), PathRule(["/a"], "proxy")] }

  function ProxyOnly(m: NetcheckOptions): seq<Json> { NetcheckRules(m) + ProxyTail() }

  lemma ProxyOnlyAccepted(proxy: Fields, n: NetcheckOptions, m: NetcheckOptions)
    requires Field(proxy, "tag") == "proxy" && Field(proxy, "type") !in {"", "direct", "block", "dns"}
    requires n.Enabled() && m.Enabled() && SoundNetcheck(n) && m.directUser != m.proxyUser
    ensures AcceptedRules(ProxyOnly(m), true) && ProxyOnly(m)[3..] == ProxyTail()
    ensures User(ProxyOnly(m)[1]) == m.directUser && User(ProxyOnly(m)[2]) == m.proxyUser
    ensures AcceptedDocument(Document(proxy, RouteObject(ProxyOnly(m), "proxy"), n))
  {
    NetcheckRulesAccepted(m);
    assert Strings(["/a"]).items == [String("/a")];
    assert IsAppRule(PathRule(["/a"], "proxy"));
    AppRulesAreEnough(m, ProxyTail());
    RulesMakeDocument(proxy, n, ProxyOnly(m), "proxy");
  }

  // Without DNS interception the default can stand in for a rule: users x and b
  // are authenticated, the rules name x and y, and yet x goes direct and b to the
  // proxy, since all TUN traffic does.
  lemma DefaultStandsIn(proxy: Fields, n: NetcheckOptions, m: NetcheckOptions)
    requires Field(proxy, "tag") == "proxy" && Field(proxy, "type") !in {"", "direct", "block", "dns"}
    requires n.Enabled() && m.Enabled() && SoundNetcheck(n) && m.directUser != m.proxyUser
    requires n.directUser == m.directUser && n.proxyUser != m.proxyUser
    ensures var d := Document(proxy, RouteObject(ProxyOnly(m), "proxy"), n);
      && AcceptedDocument(d) && HasNetcheck(Get(d, "inbounds"))
      && Routing.ProxyUser(d) != n.proxyUser && Routing.MeasuredApart(d, n.directUser, n.proxyUser)
  {
    var route := RouteObject(ProxyOnly(m), "proxy");
    var d := Document(proxy, route, n);
    ProxyOnlyAccepted(proxy, n, m);
    Routing.RouteOfDocument(proxy, route, n);
    DocumentInbounds(proxy, route, n);
    RouteFields(ProxyOnly(m), "proxy");
    forall c: Routing.Conn | c.inbound == "tun-in" ensures Routing.DecideIn(d, c) == Routing.Send("proxy") {
      Routing.DecidesByRoute(d, ProxyOnly(m), "proxy", c);
      Routing.SkipsNetcheckRules(ProxyOnly(m), true, "proxy", c);
      ProxyOnlyDecides(c);
    }
    Routing.MeasuredApartExactly(d, n.directUser, n.proxyUser);
  }

  lemma ProxyOnlyDecides(c: Routing.Conn)
    ensures Routing.Decide(ProxyTail(), "proxy", c, false) == Routing.Send("proxy")
  {
    var rules := ProxyTail();
    var last := rules[1..];
    assert last == [PathRule(["/a"], "proxy")] && last[1..] == [];
    assert Routing.Decide(last[1..], "proxy", c, false) == Routing.Send("proxy");
    assert Routing.Decide(last, "proxy", c, false) == Routing.Send("proxy");
  }

  // In a compiled document the two pairs are the same, so both users are measured.
  lemma CompiledUsersAreMeasured(proxy: Fields, apps: seq<AppRule>, final: string, n: NetcheckOptions)
    requires Field(proxy, "tag") == "proxy" && Field(proxy, "type") !in {"", "direct", "block", "dns"}
    requires ValidOutbound(final) && forall i :: 0 <= i < |apps| ==> SoundRule(apps[i])
    requires n.Enabled() && SoundNetcheck(n)
    ensures var d := Document(proxy, RouteObject(Rules(apps, n), final), n);
      && AcceptedDocument(d) && HasNetcheck(Get(d, "inbounds"))
      && Routing.AuthenticatedUsers(Get(d, "inbounds")) == (n.directUser, n.proxyUser)
      && Routing.MeasuredApart(d, n.directUser, n.proxyUser)
  {
    var route := RouteObject(Rules(apps, n), final);
    var d := Document(proxy, route, n);
    DocumentAccepted(proxy, apps, final, n);
    Routing.RouteOfDocument(proxy, route, n);
    DocumentInbounds(proxy, route, n);
    InboundUsers(n);
    RuleUsers(d, apps, final, n);
    Routing.MeasuredApartExactly(d, n.directUser, n.proxyUser);
  }

  lemma InboundUsers(n: NetcheckOptions)
    requires n.Enabled() && SoundNetcheck(n)
    ensures AcceptedInbounds(Array(Inbounds(n))) && HasNetcheck(Array(Inbounds(n)))
    ensures Routing.AuthenticatedUsers(Array(Inbounds(n))) == (n.directUser, n.proxyUser)
  {
    InboundsAccepted(n);
    TunAccepted();
  }

  lemma DecodedIsAccepted(env: Env, raw: string, d: Fields)
    requires raw != "" && env.decode(raw) == Some(Object(d))
    ensures Accepted(env, raw) <==> |raw| <= MAX_SIZE && AcceptedDocument(d)
  {
    assert AsMap(env.decode(raw).value) == Some(d);
  }

  lemma EncodedIsAccepted(env: Env, d: Fields)
    requires env.JsonRoundTrips()
    ensures Accepted(env, env.encode(Object(d))) <==> |env.encode(Object(d))| <= MAX_SIZE && AcceptedDocument(d)
  {
    assert env.decode(env.encode(Object(d))) == Some(Object(d)) && env.encode(Object(d)) != "";
    DecodedIsAccepted(env, env.encode(Object(d)), d);
  }

  lemma SelectionIsImportable(env: Env, s: State)
    requires GenuineServers(env, s.profiles) && ActiveServer(s).Some? && Ready(ActiveServer(s).value)
    ensures var proxy := Tagged(ActiveServer(s).value);
      Field(proxy, "tag") == "proxy" && Field(proxy, "type") !in {"", "direct", "block", "dns"}
  {
    var server := ActiveServer(s).value;
    var p :| p in s.profiles && server in p.servers;
    assert GenuineServer(env, p.id, server);
  }

  lemma ActiveRouteIsSound(s: State)
    requires Referential(s)
    ensures ValidOutbound(FinalOf(ActiveRoute(s)))
    ensures forall i :: 0 <= i < |AppsOf(ActiveRoute(s))| ==> SoundRule(AppsOf(ActiveRoute(s))[i])
  {
    if ActiveRoute(s).Some? { assert SoundRoute(s.routes[RouteIndex(s.routes, s.activeRoute)]); }
  }

  // In a reachable state, the document is accepted exactly when it fits the size
  // limit and netcheck is off or has an allowed port and two distinct users.
  lemma BuiltIsAccepted(env: Env, s: State, n: NetcheckOptions)
    requires env.JsonRoundTrips() && Referential(s) && GenuineServers(env, s.profiles) && Build(s, n).Some?
    ensures var raw := env.encode(Object(Build(s, n).value));
      Accepted(env, raw) <==> |raw| <= MAX_SIZE && SoundNetcheck(n)
  {
    SelectionIsImportable(env, s);
    ActiveRouteIsSound(s);
    DocumentAccepted(Tagged(ActiveServer(s).value), AppsOf(ActiveRoute(s)), FinalOf(ActiveRoute(s)), n);
    EncodedIsAccepted(env, Build(s, n).value);
  }

  lemma {:induction false} RunsKeepGenuine(env: Env, n: Node, events: seq<Event>)
    requires GenuineServers(env, n.memory.profiles) && GenuineServers(env, Load(n.file).profiles)
    requires forall i :: 0 <= i < |events| ==> Fed(env, events[i].op)
    ensures GenuineServers(env, RunFrom(env, n, events).memory.profiles)
    decreases |events|
  {
    if events != [] {
      if Saves(env, n.memory, events[0].op) { PlannedKeepsGenuine(env, n.memory, events[0].op); }
      RunsKeepGenuine(env, NodeStep(env, n, events[0]), events[1..]);
    }
  }

  // From the empty store, through any run of operations whose servers come from
  // subscriptions, with failed saves and crashes.
  lemma EverythingBuiltIsAccepted(env: Env, events: seq<Event>, n: NetcheckOptions)
    requires env.JsonRoundTrips() && forall i :: 0 <= i < |events| ==> Fed(env, events[i].op)
    requires Build(RunFrom(env, START, events).memory, n).Some?
    ensures var raw := env.encode(Object(Build(RunFrom(env, START, events).memory, n).value));
      Accepted(env, raw) <==> |raw| <= MAX_SIZE && SoundNetcheck(n)
  {
    EveryRunFromStart(env, events);
    RunsKeepGenuine(env, START, events);
    BuiltIsAccepted(env, RunFrom(env, START, events).memory, n);
  }
}
