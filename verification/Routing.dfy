// What a route means: sing-box takes the first rule that matches and acts. The
// actions route and hijack-dns end the search, sniff and resolve go on, and a
// protocol is known only after a sniff rule has run.
module Routing {
  import opened Wrappers
  import Sets
  import opened Json
  import opened State
  import opened Config
  import opened Validate

  datatype Conn = Conn(inbound: string, user: string, process: string, dns: bool)
  datatype Decision = Send(outbound: string) | HijackDns

  predicate Matches(r: Fields, c: Conn, sniffed: bool) {
    && ("inbound" in r ==> Field(r, "inbound") == c.inbound)
    && ("auth_user" in r ==> Field(r, "auth_user") == c.user)
    && ("protocol" in r ==> sniffed && c.dns && Field(r, "protocol") == "dns")
    && ("process_path" in r ==> Get(r, "process_path").Array? && String(c.process) in Get(r, "process_path").items)
  }

  function Decide(rules: seq<Json>, final: string, c: Conn, sniffed: bool): Decision {
    if rules == [] then Send(final)
    else if !rules[0].Object? || !Matches(rules[0].fields, c, sniffed) then Decide(rules[1..], final, c, sniffed)
    else
      var action := Field(rules[0].fields, "action");
      if action == "route" then Send(Field(rules[0].fields, "outbound"))
      else if action == "hijack-dns" then HijackDns
      else Decide(rules[1..], final, c, sniffed || action == "sniff")
  }

  // The decision of a whole document.
  function DecideIn(d: Fields, c: Conn): Decision {
    var route := Get(d, "route");
    if !route.Object? || !Get(route.fields, "rules").Array? then Send("")
    else Decide(Get(route.fields, "rules").items, Field(route.fields, "final"), c, false)
  }

  // ---------- what a route profile says ----------

  predicate Says(apps: seq<AppRule>, path: string, outbound: string) {
    exists i :: 0 <= i < |apps| && apps[i].processPath == path && apps[i].outbound == outbound
  }

  function Meaning(apps: seq<AppRule>, final: string, path: string): string {
    if Says(apps, path, "direct") then "direct" else if Says(apps, path, "proxy") then "proxy" else final
  }

  predicate UniquePaths(apps: seq<AppRule>) {
    forall i, j :: 0 <= i < j < |apps| ==> apps[i].processPath != apps[j].processPath
  }

  // ---------- the compiled route means what the profile says ----------

  lemma {:induction false} PathsForListed(apps: seq<AppRule>, outbound: string, path: string)
    ensures path in PathsFor(apps, outbound) <==> Says(apps, path, outbound)
  {
    if apps != [] {
      var n := |apps| - 1;
      PathsForListed(apps[..n], outbound, path);
      if Says(apps[..n], path, outbound) {
        var i :| 0 <= i < n && apps[..n][i].processPath == path && apps[..n][i].outbound == outbound;
        assert apps[i].processPath == path && apps[i].outbound == outbound;
      }
      if Says(apps, path, outbound) {
        var i :| 0 <= i < |apps| && apps[i].processPath == path && apps[i].outbound == outbound;
        assert i < n ==> apps[..n][i] == apps[i];
      }
    }
  }

  lemma StringsListed(paths: seq<string>, path: string)
    ensures String(path) in Strings(paths).items <==> path in paths
  {
    if path in paths {
      var i :| 0 <= i < |paths| && paths[i] == path;
      assert Strings(paths).items[i] == String(path);
    }
  }

  // One compiled application rule: taken exactly by the paths it was built from.
  lemma AppRulesDecide(apps: seq<AppRule>, outbound: string, rest: seq<Json>, final: string, c: Conn, sniffed: bool)
    ensures Decide(AppRules(apps, outbound) + rest, final, c, sniffed)
         == if Says(apps, c.process, outbound) then Send(outbound) else Decide(rest, final, c, sniffed)
  {
    var paths := PathsFor(apps, outbound);
    PathsForListed(apps, outbound, c.process);
    if |paths| == 0 {
      assert AppRules(apps, outbound) + rest == rest;
    } else {
      StringsListed(paths, c.process);
      assert (AppRules(apps, outbound) + rest)[1..] == rest;
    }
  }

  lemma PlainRulesDecide(apps: seq<AppRule>, final: string, c: Conn)
    requires c.inbound == "tun-in"
    ensures Decide([SNIFF, HIJACK] + AppRules(apps, "direct") + AppRules(apps, "proxy"), final, c, false)
         == if c.dns then HijackDns else Send(Meaning(apps, final, c.process))
  {
    var direct, proxy := AppRules(apps, "direct"), AppRules(apps, "proxy");
    var rules := [SNIFF, HIJACK] + direct + proxy;
    assert rules[1..] == [HIJACK] + (direct + proxy);
    assert rules[1..][1..] == direct + proxy;
    assert Decide(rules, final, c, false) == Decide(rules[1..], final, c, true);
    AppRulesDecide(apps, "direct", proxy, final, c, true);
    AppRulesDecide(apps, "proxy", [], final, c, true);
    assert proxy + [] == proxy;
  }

  // Three rules that do not match are passed over.
  lemma PassOver(rules: seq<Json>, final: string, c: Conn, sniffed: bool)
    requires |rules| >= 3
    requires forall i :: 0 <= i < 3 ==> rules[i].Object? && !Matches(rules[i].fields, c, sniffed)
    ensures Decide(rules, final, c, sniffed) == Decide(rules[3..], final, c, sniffed)
  {
    assert Decide(rules, final, c, sniffed) == Decide(rules[1..], final, c, sniffed);
    assert rules[1..][1..] == rules[2..] && rules[2..][1..] == rules[3..];
    assert Decide(rules[1..], final, c, sniffed) == Decide(rules[2..], final, c, sniffed);
  }

  // Rules for another inbound never decide TUN traffic.
  lemma NetcheckRulesPass(n: NetcheckOptions, rest: seq<Json>, final: string, c: Conn)
    requires c.inbound == "tun-in"
    ensures Decide(NetcheckRules(n) + rest, final, c, false) == Decide(rest, final, c, false)
  {
    var all := NetcheckRules(n) + rest;
    if n.Enabled() {
      assert all[3..] == rest;
      PassOver(all, final, c, false);
    } else {
      assert all == rest;
    }
  }

  // Compilation preserves routing meaning, with any netcheck options.
  lemma CompiledRoute(apps: seq<AppRule>, final: string, n: NetcheckOptions, c: Conn)
    requires c.inbound == "tun-in"
    ensures Decide(Rules(apps, n), final, c, false)
         == if c.dns then HijackDns else Send(Meaning(apps, final, c.process))
  {
    var plain := [SNIFF, HIJACK] + AppRules(apps, "direct") + AppRules(apps, "proxy");
    assert Rules(apps, n) == NetcheckRules(n) + plain;
    NetcheckRulesPass(n, plain, final, c);
    PlainRulesDecide(apps, final, c);
  }

  lemma RouteOfDocument(proxy: Fields, route: Json, n: NetcheckOptions)
    ensures Get(Document(proxy, route, n), "route") == route
  {}

  lemma BuiltRoute(s: State, n: NetcheckOptions)
    requires Build(s, n).Some?
    ensures Get(Build(s, n).value, "route")
         == RouteObject(Rules(AppsOf(ActiveRoute(s)), n), FinalOf(ActiveRoute(s)))
  {
    RouteOfDocument(Tagged(ActiveServer(s).value),
                    RouteObject(Rules(AppsOf(ActiveRoute(s)), n), FinalOf(ActiveRoute(s))), n);
  }

  lemma DecidesByRoute(d: Fields, rules: seq<Json>, final: string, c: Conn)
    requires Get(d, "route") == RouteObject(rules, final)
    ensures DecideIn(d, c) == Decide(rules, final, c, false)
  {
    assert Get(RouteObject(rules, final).fields, "rules") == Array(rules);
    assert Field(RouteObject(rules, final).fields, "final") == final;
  }

  // The same for the document a state builds to: with no active route, all
  // plain traffic goes to the proxy.
  lemma BuiltDocumentMeans(s: State, n: NetcheckOptions, c: Conn)
    requires Build(s, n).Some? && c.inbound == "tun-in"
    ensures DecideIn(Build(s, n).value, c)
         == if c.dns then HijackDns
            else Send(Meaning(AppsOf(ActiveRoute(s)), FinalOf(ActiveRoute(s)), c.process))
    ensures ActiveRoute(s).None? && !c.dns ==> DecideIn(Build(s, n).value, c) == Send("proxy")
  {
    BuiltRoute(s, n);
    DecidesByRoute(Build(s, n).value, Rules(AppsOf(ActiveRoute(s)), n), FinalOf(ActiveRoute(s)), c);
    CompiledRoute(AppsOf(ActiveRoute(s)), FinalOf(ActiveRoute(s)), n, c);
  }

  // With unique paths, a path gets its own rule's outbound, wherever it stands.
  lemma UniquePathsMeanTheirRule(apps: seq<AppRule>, final: string, i: nat)
    requires UniquePaths(apps) && i < |apps| && ValidOutbound(apps[i].outbound)
    ensures Meaning(apps, final, apps[i].processPath) == apps[i].outbound
  {
    assert Says(apps, apps[i].processPath, apps[i].outbound);
    assert forall j :: 0 <= j < |apps| && apps[j].processPath == apps[i].processPath ==> j == i;
  }

  // Adding netcheck changes no decision on TUN traffic.
  lemma NetcheckDoesNotInterfere(s: State, n: NetcheckOptions, c: Conn)
    requires Build(s, n).Some? && c.inbound == "tun-in"
    ensures Build(s, NO_NETCHECK).Some?
    ensures DecideIn(Build(s, n).value, c) == DecideIn(Build(s, NO_NETCHECK).value, c)
  {
    BuiltDocumentMeans(s, n, c);
    BuiltDocumentMeans(s, NO_NETCHECK, c);
  }

  // Each netcheck user reaches the outbound it measures: the direct one always,
  // the proxy one exactly when the two names differ.
  lemma NetcheckUsersReachTheirOutbound(s: State, n: NetcheckOptions, c: Conn)
    requires Build(s, n).Some? && n.Enabled() && c.inbound == "regalia-netcheck"
    ensures c.user == n.directUser ==> DecideIn(Build(s, n).value, c) == Send("direct")
    ensures c.user == n.proxyUser ==>
      (DecideIn(Build(s, n).value, c) == Send("proxy") <==> n.directUser != n.proxyUser)
  {
    BuiltRoute(s, n);
    DecidesByRoute(Build(s, n).value, Rules(AppsOf(ActiveRoute(s)), n), FinalOf(ActiveRoute(s)), c);
    CompiledNetcheck(AppsOf(ActiveRoute(s)), FinalOf(ActiveRoute(s)), n, c);
  }

  lemma NetcheckRuleShapes(user: string)
    requires user != ""
    ensures IsResolve(ResolveRule(user)) && User(ResolveRule(user)) == user
    ensures forall o :: IsUserRoute(UserRoute(user, o), o) && User(UserRoute(user, o)) == user
  {}

  lemma CompiledNetcheck(apps: seq<AppRule>, final: string, n: NetcheckOptions, c: Conn)
    requires n.Enabled() && c.inbound == "regalia-netcheck"
    ensures var decision := Decide(Rules(apps, n), final, c, false);
      && (c.user == n.directUser ==> decision == Send("direct"))
      && (c.user == n.proxyUser ==> (decision == Send("proxy") <==> n.directUser != n.proxyUser))
  {
    NetcheckRuleShapes(n.directUser);
    NetcheckRuleShapes(n.proxyUser);
    assert Rules(apps, n) == NetcheckRules(n) + ([SNIFF, HIJACK] + AppRules(apps, "direct") + AppRules(apps, "proxy"));
    NetcheckDecides(Rules(apps, n), final, c);
  }

  // The verdict of a resolve rule for one user, a direct route for the same
  // user and a proxy route: the first matching route wins.
  lemma NetcheckDecides(rules: seq<Json>, final: string, c: Conn)
    requires |rules| >= 3
    requires IsResolve(rules[0]) && IsUserRoute(rules[1], "direct") && IsUserRoute(rules[2], "proxy")
    requires User(rules[0]) == User(rules[1]) && c.inbound == "regalia-netcheck"
    ensures c.user == User(rules[1]) ==> Decide(rules, final, c, false) == Send("direct")
    ensures c.user == User(rules[2]) != User(rules[1]) ==> Decide(rules, final, c, false) == Send("proxy")
  {
    MatchesUserOnly(rules[0], c);
    MatchesUserOnly(rules[1], c);
    MatchesUserOnly(rules[2], c);
    assert rules[1..][1..] == rules[2..];
    assert Decide(rules, final, c, false) == Decide(rules[1..], final, c, false);
    if c.user == User(rules[1]) {
      assert Decide(rules[1..], final, c, false) == Send("direct");
    } else {
      assert Decide(rules[1..], final, c, false) == Decide(rules[2..], final, c, false);
    }
  }

  // ---------- every accepted document ----------

  // From its first plain rule past sniff and DNS on, an accepted route sends TUN
  // traffic to one of the two outbounds: the rule that lists the process, or final.
  lemma {:induction false} AppRulesOnly(rules: seq<Json>, final: string, c: Conn, sniffed: bool)
    requires forall i :: 0 <= i < |rules| ==> IsAppRule(rules[i])
    requires final in {"proxy", "direct"}
    ensures Decide(rules, final, c, sniffed) in {Send("proxy"), Send("direct")}
  {
    if rules != [] {
      AppRulesOnly(rules[1..], final, c, sniffed);
    }
  }

  lemma SkipsNetcheckRules(rules: seq<Json>, netcheck: bool, final: string, c: Conn)
    requires AcceptedRules(rules, netcheck) && c.inbound == "tun-in"
    ensures Decide(rules, final, c, false) == Decide(rules[Base(netcheck)..], final, c, false)
  {
    if netcheck {
      assert "inbound" in rules[0].fields && "inbound" in rules[1].fields && "inbound" in rules[2].fields;
      PassOver(rules, final, c, false);
    } else {
      assert rules[0..] == rules;
    }
  }

  lemma SniffHasOneKey(r: Json)
    requires IsSniff(r)
    ensures r.fields.Keys == {"action"}
  {
    if k :| k in r.fields.Keys && k != "action" {
      assert |{k, "action"}| == 2;
      Sets.SubsetIsSmaller({k, "action"}, r.fields.Keys);
    }
  }

  // Validator soundness: whatever the accepted document, TUN traffic can only go
  // to proxy or direct or be answered as DNS, and DNS is answered exactly when
  // both the sniff and the DNS rule stand at their places, which the validator
  // does not require.
  lemma AcceptedTunTraffic(d: Fields, c: Conn)
    requires AcceptedDocument(d) && c.inbound == "tun-in"
    ensures DecideIn(d, c) in {Send("proxy"), Send("direct"), HijackDns}
    ensures
      var rules := Get(Get(d, "route").fields, "rules").items;
      var base := Base(HasNetcheck(Get(d, "inbounds")));
      DecideIn(d, c) == HijackDns <==> c.dns && IsSniff(rules[base]) && IsHijack(rules[base + 1])
  {
    var route := Get(d, "route").fields;
    AcceptedRulesDecide(Get(route, "rules").items, HasNetcheck(Get(d, "inbounds")), Field(route, "final"), c);
  }

  lemma AcceptedRulesDecide(rules: seq<Json>, netcheck: bool, final: string, c: Conn)
    requires AcceptedRules(rules, netcheck) && final in {"proxy", "direct"} && c.inbound == "tun-in"
    ensures Decide(rules, final, c, false) in {Send("proxy"), Send("direct"), HijackDns}
    ensures Decide(rules, final, c, false) == HijackDns <==>
      c.dns && IsSniff(rules[Base(netcheck)]) && IsHijack(rules[Base(netcheck) + 1])
  {
    var base := Base(netcheck);
    SkipsNetcheckRules(rules, netcheck, final, c);
    var first, second, rest := rules[base..], rules[base + 1..], rules[base + 2..];
    assert first[1..] == second && second[1..] == rest;
    forall i | 0 <= i < |rest| ensures IsAppRule(rest[i]) {
      assert IsPlainRule(rules, base + 2 + i, netcheck);
    }
    assert IsPlainRule(rules, base, netcheck) && IsPlainRule(rules, base + 1, netcheck);
    FirstTwo(first, final, c);
  }

  // Decisions on a list that starts with a sniff or application rule, then a DNS
  // or application rule, then application rules only.
  lemma FirstTwo(rules: seq<Json>, final: string, c: Conn)
    requires |rules| >= 2 && final in {"proxy", "direct"}
    requires IsSniff(rules[0]) || IsAppRule(rules[0])
    requires IsHijack(rules[1]) || IsAppRule(rules[1])
    requires forall i :: 0 <= i < |rules[1..][1..]| ==> IsAppRule(rules[1..][1..][i])
    ensures Decide(rules, final, c, false) in {Send("proxy"), Send("direct"), HijackDns}
    ensures Decide(rules, final, c, false) == HijackDns <==> c.dns && IsSniff(rules[0]) && IsHijack(rules[1])
  {
    var sniffed := IsSniff(rules[0]);
    AppRulesOnly(rules[1..][1..], final, c, sniffed);
    SecondRule(rules[1..], final, c, sniffed);
    if sniffed {
      SniffHasOneKey(rules[0]);
      assert Decide(rules, final, c, false) == Decide(rules[1..], final, c, true);
    }
  }

  // The rule after the sniff rule, or after an application rule in its place.
  lemma SecondRule(rules: seq<Json>, final: string, c: Conn, sniffed: bool)
    requires rules != [] && (IsHijack(rules[0]) || IsAppRule(rules[0]))
    requires Decide(rules[1..], final, c, sniffed) in {Send("proxy"), Send("direct")}
    ensures Decide(rules, final, c, sniffed) in {Send("proxy"), Send("direct"), HijackDns}
    ensures Decide(rules, final, c, sniffed) == HijackDns <==> IsHijack(rules[0]) && c.dns && sniffed
  {
    assert "action" in rules[0].fields;
  }

  // ---------- netcheck traffic of an accepted document ----------

  function RulesOf(d: Fields): seq<Json>
    requires AcceptedDocument(d)
  {
    Get(Get(d, "route").fields, "rules").items
  }

  // The users the route rules send direct and to the proxy.
  function DirectUser(d: Fields): string
    requires AcceptedDocument(d) && HasNetcheck(Get(d, "inbounds"))
  {
    User(RulesOf(d)[1])
  }

  function ProxyUser(d: Fields): string
    requires AcceptedDocument(d) && HasNetcheck(Get(d, "inbounds"))
  {
    User(RulesOf(d)[2])
  }

  // A rule that asks neither for an inbound nor for a user.
  predicate Plain(r: Json) { r.Object? && "inbound" !in r.fields && "auth_user" !in r.fields }

  lemma {:induction false} PlainRulesIgnoreUsers(rules: seq<Json>, final: string, c: Conn, e: Conn, sniffed: bool)
    requires forall i :: 0 <= i < |rules| ==> Plain(rules[i])
    requires c.process == e.process && c.dns == e.dns
    ensures Decide(rules, final, c, sniffed) == Decide(rules, final, e, sniffed)
  {
    if rules != [] {
      assert Matches(rules[0].fields, c, sniffed) == Matches(rules[0].fields, e, sniffed);
      var next := sniffed || Field(rules[0].fields, "action") == "sniff";
      PlainRulesIgnoreUsers(rules[1..], final, c, e, sniffed);
      PlainRulesIgnoreUsers(rules[1..], final, c, e, next);
    }
  }

  lemma PlainRuleIsPlain(r: Json)
    requires IsAppRule(r) || IsSniff(r) || IsHijack(r)
    ensures Plain(r)
  {
    if IsSniff(r) { SniffHasOneKey(r); }
    assert "inbound" !in r.fields.Keys && "auth_user" !in r.fields.Keys;
  }

  lemma RestIsPlain(rules: seq<Json>, netcheck: bool)
    requires AcceptedRules(rules, netcheck)
    ensures forall i :: 0 <= i < |rules[Base(netcheck)..]| ==> Plain(rules[Base(netcheck)..][i])
  {
    var rest := rules[Base(netcheck)..];
    forall i | 0 <= i < |rest| ensures Plain(rest[i]) {
      assert IsPlainRule(rules, Base(netcheck) + i, netcheck);
      PlainRuleIsPlain(rest[i]);
    }
  }

  // Traffic on the netcheck inbound whose user no rule names goes where TUN
  // traffic of the same process goes.
  lemma ForeignUserFallsThrough(rules: seq<Json>, final: string, c: Conn)
    requires AcceptedRules(rules, true) && c.inbound == "regalia-netcheck"
    requires c.user != User(rules[1]) && c.user != User(rules[2])
    ensures Decide(rules, final, c, false) == Decide(rules, final, c.(inbound := "tun-in"), false)
  {
    MatchesUserOnly(rules[0], c);
    MatchesUserOnly(rules[1], c);
    MatchesUserOnly(rules[2], c);
    PassOver(rules, final, c, false);
    SkipsNetcheckRules(rules, true, final, c.(inbound := "tun-in"));
    RestIsPlain(rules, true);
    PlainRulesIgnoreUsers(rules[3..], final, c, c.(inbound := "tun-in"), false);
  }

  // All netcheck traffic of any accepted document: the two users that the rules
  // name go direct and to the proxy; the validator does not compare them with the
  // users that the inbound authenticates, and any other user goes where TUN
  // traffic of its process goes.
  lemma AcceptedNetcheckTraffic(d: Fields, c: Conn)
    requires AcceptedDocument(d) && HasNetcheck(Get(d, "inbounds")) && c.inbound == "regalia-netcheck"
    ensures DirectUser(d) != ProxyUser(d)
    ensures DecideIn(d, c) ==
      if c.user == DirectUser(d) then Send("direct")
      else if c.user == ProxyUser(d) then Send("proxy")
      else DecideIn(d, c.(inbound := "tun-in"))
  {
    var route := Get(d, "route").fields;
    if c.user != DirectUser(d) && c.user != ProxyUser(d) {
      ForeignUserFallsThrough(Get(route, "rules").items, Field(route, "final"), c);
    } else {
      NetcheckDecides(Get(route, "rules").items, Field(route, "final"), c);
    }
  }

  // One user is measured direct and the other through the proxy, by any process.
  ghost predicate MeasuredApart(d: Fields, direct: string, proxy: string) {
    UserTakes(d, direct, "direct") && UserTakes(d, proxy, "proxy")
  }

  ghost predicate TunAlways(d: Fields, outbound: string) {
    forall c: Conn :: c.inbound == "tun-in" ==> DecideIn(d, c) == Send(outbound)
  }

  ghost predicate UserTakes(d: Fields, user: string, outbound: string) {
    forall c: Conn :: c.inbound == "regalia-netcheck" && c.user == user ==> DecideIn(d, c) == Send(outbound)
  }

  lemma ForeignUserTakes(d: Fields, user: string, outbound: string)
    requires AcceptedDocument(d) && HasNetcheck(Get(d, "inbounds"))
    requires user != DirectUser(d) && user != ProxyUser(d)
    ensures UserTakes(d, user, outbound) <==> TunAlways(d, outbound)
  {
    forall c: Conn | c.inbound == "tun-in"
      ensures DecideIn(d, c) == DecideIn(d, c.(inbound := "regalia-netcheck", user := user))
    {
      TunIgnoresUsers(d, c, user);
    }
    forall c: Conn | c.inbound == "regalia-netcheck" && c.user == user
      ensures DecideIn(d, c) == DecideIn(d, c.(inbound := "tun-in"))
    {
      AcceptedNetcheckTraffic(d, c);
    }
  }

  function NamedOutbound(d: Fields, user: string): string
    requires AcceptedDocument(d) && HasNetcheck(Get(d, "inbounds"))
  {
    if user == DirectUser(d) then "direct" else "proxy"
  }

  lemma NamedUserDecides(d: Fields, c: Conn)
    requires AcceptedDocument(d) && HasNetcheck(Get(d, "inbounds")) && c.inbound == "regalia-netcheck"
    requires c.user == DirectUser(d) || c.user == ProxyUser(d)
    ensures DecideIn(d, c) == Send(NamedOutbound(d, c.user))
  {
    AcceptedNetcheckTraffic(d, c);
  }

  // A user with one decision takes that outbound and no other.
  lemma OneDecisionTakes(d: Fields, user: string, only: string, outbound: string)
    requires UserTakes(d, user, only)
    ensures UserTakes(d, user, outbound) <==> outbound == only
  {
    var probe := Conn("regalia-netcheck", user, "", false);
    assert DecideIn(d, probe) == Send(only);
  }

  lemma NamedUserTakes(d: Fields, user: string, outbound: string)
    requires AcceptedDocument(d) && HasNetcheck(Get(d, "inbounds"))
    requires user == DirectUser(d) || user == ProxyUser(d)
    ensures UserTakes(d, user, outbound) <==> outbound == NamedOutbound(d, user)
  {
    forall c: Conn | c.inbound == "regalia-netcheck" && c.user == user
      ensures DecideIn(d, c) == Send(NamedOutbound(d, user))
    {
      NamedUserDecides(d, c);
    }
    OneDecisionTakes(d, user, NamedOutbound(d, user), outbound);
  }

  lemma TunIgnoresUsers(d: Fields, c: Conn, user: string)
    requires AcceptedDocument(d) && HasNetcheck(Get(d, "inbounds")) && c.inbound == "tun-in"
    requires user != DirectUser(d) && user != ProxyUser(d)
    ensures DecideIn(d, c) == DecideIn(d, c.(inbound := "regalia-netcheck", user := user))
  {
    var route := Get(d, "route").fields;
    var rules, final := Get(route, "rules").items, Field(route, "final");
    AcceptedNetcheckTraffic(d, c.(inbound := "regalia-netcheck", user := user));
    SkipsNetcheckRules(rules, true, final, c);
    SkipsNetcheckRules(rules, true, final, c.(user := user));
    RestIsPlain(rules, true);
    PlainRulesIgnoreUsers(rules[3..], final, c, c.(user := user), false);
  }

  // The exact condition for two users to be measured apart.
  lemma MeasuredApartExactly(d: Fields, direct: string, proxy: string)
    requires AcceptedDocument(d) && HasNetcheck(Get(d, "inbounds"))
    ensures MeasuredApart(d, direct, proxy) <==>
      && (direct == DirectUser(d) || (direct != ProxyUser(d) && TunAlways(d, "direct")))
      && (proxy == ProxyUser(d) || (proxy != DirectUser(d) && TunAlways(d, "proxy")))
  {
    RuleUsersDiffer(d);
    if direct == DirectUser(d) || direct == ProxyUser(d) { NamedUserTakes(d, direct, "direct"); }
    else { ForeignUserTakes(d, direct, "direct"); }
    if proxy == DirectUser(d) || proxy == ProxyUser(d) { NamedUserTakes(d, proxy, "proxy"); }
    else { ForeignUserTakes(d, proxy, "proxy"); }
  }

  lemma RuleUsersDiffer(d: Fields)
    requires AcceptedDocument(d) && HasNetcheck(Get(d, "inbounds"))
    ensures DirectUser(d) != ProxyUser(d)
  {}

  // Where the sniff and DNS rules stand, as in every compiled document, no
  // outbound takes all TUN traffic.
  predicate Intercepts(d: Fields)
    requires AcceptedDocument(d)
  {
    var base := Base(HasNetcheck(Get(d, "inbounds")));
    IsSniff(RulesOf(d)[base]) && IsHijack(RulesOf(d)[base + 1])
  }

  // The usernames of the netcheck inbound, in order.
  function AuthenticatedUsers(inbounds: Json): (string, string)
    requires AcceptedInbounds(inbounds) && HasNetcheck(inbounds)
  {
    var inbound := if IsNetcheckInbound(inbounds.items[0]) then inbounds.items[0] else inbounds.items[1];
    var users := Get(inbound.fields, "users").items;
    (Field(users[0].fields, "username"), Field(users[1].fields, "username"))
  }

  lemma InterceptingDocumentsSplitTun(d: Fields, outbound: string)
    requires AcceptedDocument(d) && Intercepts(d)
    ensures !TunAlways(d, outbound)
  {
    AcceptedTunTraffic(d, Conn("tun-in", "", "", true));
  }

  lemma SamePair(a: string, b: string, x: string, y: string)
    ensures {a, b} == {x, y} <==> (a == x && b == y) || (a == y && b == x)
  {
    if {a, b} == {x, y} {
      assert a in {x, y} && b in {x, y} && x in {a, b} && y in {a, b};
    }
  }

  // In an accepted document that intercepts DNS, the two users that the inbound
  // authenticates are measured apart exactly when they are the users of the rules.
  lemma AuthenticatedUsersAreMeasuredExactly(d: Fields)
    requires AcceptedDocument(d) && HasNetcheck(Get(d, "inbounds")) && Intercepts(d)
    ensures var (a, b) := AuthenticatedUsers(Get(d, "inbounds"));
      MeasuredApart(d, a, b) || MeasuredApart(d, b, a) <==> {a, b} == {DirectUser(d), ProxyUser(d)}
  {
    var (a, b) := AuthenticatedUsers(Get(d, "inbounds"));
    InterceptingDocumentsSplitTun(d, "direct");
    InterceptingDocumentsSplitTun(d, "proxy");
    MeasuredApartExactly(d, a, b);
    MeasuredApartExactly(d, b, a);
    SamePair(a, b, DirectUser(d), ProxyUser(d));
  }

  // ---------- where all TUN traffic takes one outbound ----------

  predicate Lists(r: Json, path: string) {
    IsAppRule(r) && String(path) in Get(r.fields, "process_path").items
  }

  // A process that no rule lists takes the final outbound.
  lemma {:induction false} UnlistedFallsToFinal(rules: seq<Json>, final: string, c: Conn, sniffed: bool)
    requires !c.dns
    requires forall i :: 0 <= i < |rules| ==>
      (IsAppRule(rules[i]) && !Lists(rules[i], c.process)) || IsSniff(rules[i]) || IsHijack(rules[i])
    ensures Decide(rules, final, c, sniffed) == Send(final)
  {
    if rules != [] {
      UnlistedFallsToFinal(rules[1..], final, c, sniffed);
      UnlistedFallsToFinal(rules[1..], final, c, true);
      if IsSniff(rules[0]) { SniffHasOneKey(rules[0]); }
      assert "process_path" in rules[0].fields || IsSniff(rules[0]) || "protocol" in rules[0].fields;
    }
  }

  lemma {:induction false} AppRulesIgnoreDns(rules: seq<Json>, final: string, c: Conn, sniffed: bool)
    requires forall i :: 0 <= i < |rules| ==> IsAppRule(rules[i])
    ensures Decide(rules, final, c, sniffed) == Decide(rules, final, c.(dns := false), sniffed)
  {
    if rules != [] {
      AppRuleIgnoresDns(rules[0], c, sniffed);
      AppRulesIgnoreDns(rules[1..], final, c, sniffed);
    }
  }

  lemma AppRuleIgnoresDns(r: Json, c: Conn, sniffed: bool)
    requires IsAppRule(r)
    ensures Matches(r.fields, c, sniffed) == Matches(r.fields, c.(dns := false), sniffed)
  {
    assert "protocol" !in r.fields.Keys;
  }

  // The rules past sniff and DNS, by position.
  lemma RestIsAppRules(rules: seq<Json>, netcheck: bool)
    requires AcceptedRules(rules, netcheck)
    ensures var base := Base(netcheck);
      && (IsAppRule(rules[base]) || IsSniff(rules[base])) && (IsAppRule(rules[base + 1]) || IsHijack(rules[base + 1]))
      && rules[base..][0] == rules[base] && rules[base..][1] == rules[base + 1]
      && forall i :: 0 <= i < |rules[base..][1..][1..]| ==> IsAppRule(rules[base..][1..][1..][i])
  {
    var base := Base(netcheck);
    assert IsPlainRule(rules, base, netcheck) && IsPlainRule(rules, base + 1, netcheck);
    assert rules[base..][1..][1..] == rules[base + 2..];
    forall i | base + 2 <= i < |rules| ensures IsAppRule(rules[i]) {
      assert IsPlainRule(rules, i, netcheck);
    }
  }

  // Unless DNS is intercepted, it is routed like everything else.
  lemma DnsIsNotSpecial(rules: seq<Json>, final: string, c: Conn)
    requires |rules| >= 2 && (IsAppRule(rules[0]) || IsSniff(rules[0])) && (IsAppRule(rules[1]) || IsHijack(rules[1]))
    requires !(IsSniff(rules[0]) && IsHijack(rules[1]))
    requires forall i :: 0 <= i < |rules[1..][1..]| ==> IsAppRule(rules[1..][1..][i])
    ensures Decide(rules, final, c, false) == Decide(rules, final, c.(dns := false), false)
  {
    var sniffed := IsSniff(rules[0]);
    AppRulesIgnoreDns(rules[1..][1..], final, c, sniffed);
    if IsAppRule(rules[1]) { AppRuleIgnoresDns(rules[1], c, sniffed); }
    assert IsHijack(rules[1]) ==> "protocol" in rules[1].fields;
    assert Decide(rules[1..], final, c, sniffed) == Decide(rules[1..], final, c.(dns := false), sniffed);
    if sniffed { SniffHasOneKey(rules[0]); } else { AppRuleIgnoresDns(rules[0], c, false); }
  }

  // What TUN traffic does, by its process only.
  lemma TunTrafficByProcess(d: Fields, c: Conn)
    requires AcceptedDocument(d) && c.inbound == "tun-in" && !(c.dns && Intercepts(d))
    ensures DecideIn(d, c) == DecideIn(d, Conn("tun-in", "", c.process, false))
    ensures
      (forall i :: Base(HasNetcheck(Get(d, "inbounds"))) <= i < |RulesOf(d)| ==> !Lists(RulesOf(d)[i], c.process)) ==>
      DecideIn(d, c) == Send(Field(Get(d, "route").fields, "final"))
  {
    var netcheck := HasNetcheck(Get(d, "inbounds"));
    var rules, final := RulesOf(d), Field(Get(d, "route").fields, "final");
    var plain := c.(dns := false);
    var rest := rules[Base(netcheck)..];
    SkipsNetcheckRules(rules, netcheck, final, c);
    SkipsNetcheckRules(rules, netcheck, final, plain.(user := ""));
    RestIsAppRules(rules, netcheck);
    RestIsPlain(rules, netcheck);
    if c.dns { DnsIsNotSpecial(rest, final, c); }
    PlainRulesIgnoreUsers(rest, final, plain, plain.(user := ""), false);
    if forall i :: Base(netcheck) <= i < |rules| ==> !Lists(rules[i], c.process) {
      forall i | 0 <= i < |rest|
        ensures (IsAppRule(rest[i]) && !Lists(rest[i], c.process)) || IsSniff(rest[i]) || IsHijack(rest[i])
      {
        assert rest[i] == rules[Base(netcheck) + i] && IsPlainRule(rules, Base(netcheck) + i, netcheck);
      }
      UnlistedFallsToFinal(rest, final, plain, false);
    }
  }

  lemma EmptyPathIsUnlisted(r: Json)
    ensures !Lists(r, "")
  {}

  // One outbound takes all TUN traffic exactly when DNS is not intercepted, it is
  // the final one, and it takes every process that some rule lists.
  lemma TunAlwaysExactly(d: Fields, outbound: string)
    requires AcceptedDocument(d) && (outbound == "direct" || outbound == "proxy")
    ensures TunAlways(d, outbound) <==>
      && !Intercepts(d)
      && Field(Get(d, "route").fields, "final") == outbound
      && forall i, path :: Base(HasNetcheck(Get(d, "inbounds"))) <= i < |RulesOf(d)| && Lists(RulesOf(d)[i], path) ==>
           DecideIn(d, Conn("tun-in", "", path, false)) == Send(outbound)
  {
    var base := Base(HasNetcheck(Get(d, "inbounds")));
    var unlisted := Conn("tun-in", "", "", false);
    AcceptedTunTraffic(d, Conn("tun-in", "", "", true));
    forall i | base <= i < |RulesOf(d)| ensures !Lists(RulesOf(d)[i], "") { EmptyPathIsUnlisted(RulesOf(d)[i]); }
    TunTrafficByProcess(d, unlisted);
    if !Intercepts(d) && Field(Get(d, "route").fields, "final") == outbound
       && forall i, path :: base <= i < |RulesOf(d)| && Lists(RulesOf(d)[i], path) ==>
            DecideIn(d, Conn("tun-in", "", path, false)) == Send(outbound) {
      forall c: Conn | c.inbound == "tun-in" ensures DecideIn(d, c) == Send(outbound) {
        TunTrafficByProcess(d, c);
      }
    }
  }

  lemma MatchesUserOnly(r: Json, c: Conn)
    requires IsResolve(r) || IsUserRoute(r, "direct") || IsUserRoute(r, "proxy")
    requires c.inbound == "regalia-netcheck"
    ensures Matches(r.fields, c, false) <==> c.user == User(r)
  {
    assert "protocol" !in r.fields && "process_path" !in r.fields;
    assert "auth_user" in r.fields;
  }
}
