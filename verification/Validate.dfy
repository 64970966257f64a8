// internal/engineconfig/validate.go: the independent check on the other side of
// the process boundary. The predicates say which documents are accepted, by
// position and shape; the methods are the program's loops.
module Validate {
  import opened Wrappers
  import opened Json
  import opened Text
  import opened Environment

  const MAX_SIZE := 4 * 1024 * 1024

  predicate OnlyKeys(o: Fields, allowed: set<string>) { o.Keys <= allowed }

  // ---------- what is accepted ----------

  predicate IsTun(v: Json) {
    && v.Object?
    && OnlyKeys(v.fields, {"type", "tag", "interface_name", "address", "auto_route", "auto_redirect",
                           "strict_route", "stack", "mtu", "route_exclude_address"})
    && Field(v.fields, "type") == "tun" && Field(v.fields, "tag") == "tun-in"
    && Field(v.fields, "interface_name") == "regalia0"
    && IsTrue(Get(v.fields, "auto_route")) && IsTrue(Get(v.fields, "auto_redirect"))
    && IsTrue(Get(v.fields, "strict_route"))
    && Get(v.fields, "address") == Array([String("172.19.0.1/30")])
  }

  predicate IsCredential(v: Json) {
    && v.Object? && OnlyKeys(v.fields, {"username", "password"})
    && Field(v.fields, "username") != "" && Field(v.fields, "password") != ""
  }

  predicate IsNetcheckInbound(v: Json) {
    && v.Object?
    && OnlyKeys(v.fields, {"type", "tag", "listen", "listen_port", "users"})
    && Field(v.fields, "type") == "mixed" && Field(v.fields, "tag") == "regalia-netcheck"
    && Field(v.fields, "listen") == "127.0.0.1"
    && Get(v.fields, "listen_port").Number? && Get(v.fields, "listen_port").fraction == 0
    && 1024 <= Get(v.fields, "listen_port").whole <= 65535
    && Get(v.fields, "users").Array?
    && var users := Get(v.fields, "users").items;
       && |users| == 2 && IsCredential(users[0]) && IsCredential(users[1])
       && Field(users[0].fields, "username") != Field(users[1].fields, "username")
  }

  predicate AcceptedInbounds(v: Json) {
    && v.Array?
    && var items := v.items;
       || (|items| == 1 && IsTun(items[0]))
       || (|items| == 2 && IsTun(items[0]) && IsNetcheckInbound(items[1]))
       || (|items| == 2 && IsNetcheckInbound(items[0]) && IsTun(items[1]))
  }

  predicate HasNetcheck(v: Json) { v.Array? && |v.items| == 2 }

  predicate IsDirect(v: Json) {
    v.Object? && Field(v.fields, "tag") == "direct" && Field(v.fields, "type") == "direct"
  }

  predicate IsProxy(v: Json) {
    v.Object? && Field(v.fields, "tag") == "proxy" && Field(v.fields, "type") !in {"", "direct", "block", "dns"}
  }

  predicate IsProxyEndpoint(v: Json) {
    v.Object? && Field(v.fields, "tag") == "proxy" && Field(v.fields, "type") in {"wireguard", "tailscale"}
  }

  predicate AcceptedOutbounds(outbounds: Json, endpoints: Json) {
    && outbounds.Array?
    && (forall i :: 0 <= i < |outbounds.items| ==> IsDirect(outbounds.items[i]) || IsProxy(outbounds.items[i]))
    && (exists i :: 0 <= i < |outbounds.items| && IsDirect(outbounds.items[i]))
    && (endpoints != Null ==> endpoints.Array? && |endpoints.items| == 1 && IsProxyEndpoint(endpoints.items[0]))
    && (endpoints != Null || exists i :: 0 <= i < |outbounds.items| && IsProxy(outbounds.items[i]))
  }

  function User(r: Json): string { if r.Object? then Field(r.fields, "auth_user") else "" }

  predicate IsResolve(r: Json) {
    && r.Object? && OnlyKeys(r.fields, {"inbound", "auth_user", "action", "server", "strategy"})
    && Field(r.fields, "action") == "resolve" && Field(r.fields, "inbound") == "regalia-netcheck"
    && Field(r.fields, "server") == "dns-remote" && Field(r.fields, "strategy") == "prefer_ipv4"
    && User(r) != ""
  }

  predicate IsUserRoute(r: Json, outbound: string) {
    && r.Object? && OnlyKeys(r.fields, {"inbound", "auth_user", "action", "outbound"})
    && Field(r.fields, "action") == "route" && Field(r.fields, "inbound") == "regalia-netcheck"
    && Field(r.fields, "outbound") == outbound && User(r) != ""
  }

  predicate IsSniff(r: Json) { r.Object? && Field(r.fields, "action") == "sniff" && |r.fields| == 1 }

  predicate IsHijack(r: Json) {
    && r.Object? && OnlyKeys(r.fields, {"protocol", "action"})
    && Field(r.fields, "action") == "hijack-dns" && Field(r.fields, "protocol") == "dns"
  }

  predicate IsPathList(v: Json) {
    v.Array? && |v.items| > 0 && forall i :: 0 <= i < |v.items| ==> v.items[i].String? && IsAbs(v.items[i].s)
  }

  predicate IsAppRule(r: Json) {
    && r.Object? && OnlyKeys(r.fields, {"process_path", "action", "outbound"})
    && Field(r.fields, "action") == "route" && Field(r.fields, "outbound") in {"proxy", "direct"}
    && IsPathList(Get(r.fields, "process_path"))
  }

  function Base(netcheck: bool): nat { if netcheck then 3 else 0 }

  predicate IsPlainRule(rules: seq<Json>, i: nat, netcheck: bool)
    requires i < |rules|
  {
    || IsAppRule(rules[i])
    || (i == Base(netcheck) && IsSniff(rules[i]))
    || (i == Base(netcheck) + 1 && IsHijack(rules[i]))
  }

  predicate AcceptedRules(rules: seq<Json>, netcheck: bool) {
    && |rules| >= Base(netcheck) + 2
    && (netcheck ==>
          && IsResolve(rules[0]) && IsUserRoute(rules[1], "direct") && IsUserRoute(rules[2], "proxy")
          && User(rules[0]) == User(rules[1]) != User(rules[2]))
    && forall i :: Base(netcheck) <= i < |rules| ==> IsPlainRule(rules, i, netcheck)
  }

  predicate AcceptedRoute(v: Json, netcheck: bool) {
    && v.Object?
    && OnlyKeys(v.fields, {"rules", "final", "find_process", "auto_detect_interface", "default_domain_resolver"})
    && Field(v.fields, "final") in {"proxy", "direct"}
    && IsTrue(Get(v.fields, "find_process")) && IsTrue(Get(v.fields, "auto_detect_interface"))
    && Get(v.fields, "rules").Array? && AcceptedRules(Get(v.fields, "rules").items, netcheck)
  }

  predicate AcceptedDocument(d: Fields) {
    && OnlyKeys(d, {"log", "certificate", "dns", "inbounds", "outbounds", "endpoints", "route"})
    && AcceptedInbounds(Get(d, "inbounds"))
    && AcceptedOutbounds(Get(d, "outbounds"), Get(d, "endpoints"))
    && AcceptedRoute(Get(d, "route"), HasNetcheck(Get(d, "inbounds")))
    && Get(d, "dns").Object?
  }

  predicate Accepted(env: Env, raw: string) {
    && 0 < |raw| <= MAX_SIZE
    && env.decode(raw).Some? && AsMap(env.decode(raw).value).Some?
    && AcceptedDocument(AsMap(env.decode(raw).value).value)
  }

  // ---------- the program's checks ----------

  method Validate(env: Env, raw: string) returns (ok: bool)
    ensures ok == Accepted(env, raw)
  {
    if |raw| == 0 || |raw| > MAX_SIZE {
      return false;
    }
    var value := env.decode(raw);
    if value.None? || AsMap(value.value).None? {
      return false;
    }
    var document := AsMap(value.value).value;
    if !OnlyKeys(document, {"log", "certificate", "dns", "inbounds", "outbounds", "endpoints", "route"}) {
      return false;
    }
    var inboundsOk, hasNetcheck := ValidateInbounds(Get(document, "inbounds"));
    if !inboundsOk {
      return false;
    }
    var outboundsOk := ValidateOutbounds(Get(document, "outbounds"), Get(document, "endpoints"));
    if !outboundsOk {
      return false;
    }
    var routeOk := ValidateRoute(Get(document, "route"), hasNetcheck);
    return routeOk && Get(document, "dns").Object?;
  }

  method ValidateInbounds(value: Json) returns (ok: bool, hasNetcheck: bool)
    ensures ok == AcceptedInbounds(value)
    ensures ok ==> hasNetcheck == HasNetcheck(value)
  {
    hasNetcheck := false;
    if !value.Array? || |value.items| < 1 || |value.items| > 2 {
      return false, false;
    }
    var inbounds := value.items;
    var tunCount, netcheckCount := 0, 0;
    for i := 0 to |inbounds|
      invariant tunCount + netcheckCount == i
      invariant forall j :: 0 <= j < i ==> IsTun(inbounds[j]) || IsNetcheckInbound(inbounds[j])
      invariant tunCount ==
        (if i > 0 && IsTun(inbounds[0]) then 1 else 0) + (if i > 1 && IsTun(inbounds[1]) then 1 else 0)
    {
      if !inbounds[i].Object? {
        return false, false;
      }
      var tag := Field(inbounds[i].fields, "tag");
      if tag == "tun-in" {
        tunCount := tunCount + 1;
        var tunOk := ValidateTUN(inbounds[i].fields);
        if !tunOk {
          return false, false;
        }
      } else if tag == "regalia-netcheck" {
        netcheckCount := netcheckCount + 1;
        var netcheckOk := ValidateNetcheckInbound(inbounds[i].fields);
        if !netcheckOk {
          return false, false;
        }
      } else {
        return false, false;
      }
    }
    if tunCount != 1 || netcheckCount > 1 {
      return false, false;
    }
    return true, netcheckCount == 1;
  }

  method ValidateTUN(tun: Fields) returns (ok: bool)
    ensures ok == IsTun(Object(tun))
  {
    if !OnlyKeys(tun, {"type", "tag", "interface_name", "address", "auto_route", "auto_redirect",
                       "strict_route", "stack", "mtu", "route_exclude_address"}) {
      return false;
    }
    if Field(tun, "type") != "tun" || Field(tun, "tag") != "tun-in" || Field(tun, "interface_name") != "regalia0" {
      return false;
    }
    var keys := ["auto_route", "auto_redirect", "strict_route"];
    for i := 0 to |keys|
      invariant forall j :: 0 <= j < i ==> IsTrue(Get(tun, keys[j]))
    {
      if !IsTrue(Get(tun, keys[i])) {
        assert keys[i] in {"auto_route", "auto_redirect", "strict_route"};
        return false;
      }
    }
    assert IsTrue(Get(tun, keys[0])) && IsTrue(Get(tun, keys[1])) && IsTrue(Get(tun, keys[2]));
    var addresses := StringList(Get(tun, "address"));
    if addresses.None? || |addresses.value| != 1 || addresses.value[0] != "172.19.0.1/30" {
      return false;
    }
    assert Get(tun, "address").items == [String("172.19.0.1/30")];
    return true;
  }

  method StringList(value: Json) returns (list: Option<seq<string>>)
    ensures list.Some? <==> value.Array? && forall i :: 0 <= i < |value.items| ==> value.items[i].String?
    ensures list.Some? ==> |list.value| == |value.items|
    ensures list.Some? ==> forall i :: 0 <= i < |value.items| ==> value.items[i] == String(list.value[i])
  {
    if !value.Array? {
      return None;
    }
    var result: seq<string> := [];
    for i := 0 to |value.items|
      invariant |result| == i
      invariant forall j :: 0 <= j < i ==> value.items[j] == String(result[j])
    {
      if !value.items[i].String? {
        return None;
      }
      result := result + [value.items[i].s];
    }
    return Some(result);
  }

  method ValidateNetcheckInbound(inbound: Fields) returns (ok: bool)
    ensures ok == IsNetcheckInbound(Object(inbound))
  {
    if !OnlyKeys(inbound, {"type", "tag", "listen", "listen_port", "users"}) {
      return false;
    }
    if Field(inbound, "type") != "mixed" || Field(inbound, "tag") != "regalia-netcheck"
       || Field(inbound, "listen") != "127.0.0.1" {
      return false;
    }
    var port := Get(inbound, "listen_port");
    if !port.Number? || port.fraction != 0 || port.whole < 1024 || port.whole > 65535 {
      return false;
    }
    if !Get(inbound, "users").Array? || |Get(inbound, "users").items| != 2 {
      return false;
    }
    var users := Get(inbound, "users").items;
    var seen: set<string> := {};
    for i := 0 to 2
      invariant forall j :: 0 <= j < i ==> IsCredential(users[j])
      invariant seen == set j | 0 <= j < i :: Field(users[j].fields, "username")
      invariant i == 2 ==> Field(users[0].fields, "username") != Field(users[1].fields, "username")
    {
      if !users[i].Object? || !OnlyKeys(users[i].fields, {"username", "password"}) {
        return false;
      }
      var username, password := Field(users[i].fields, "username"), Field(users[i].fields, "password");
      if username == "" || password == "" || username in seen {
        return false;
      }
      seen := seen + {username};
    }
    return true;
  }

  method ValidateOutbounds(outboundValue: Json, endpointValue: Json) returns (ok: bool)
    ensures ok == AcceptedOutbounds(outboundValue, endpointValue)
  {
    if !outboundValue.Array? || |outboundValue.items| < 1 {
      return false;
    }
    var outbounds := outboundValue.items;
    var directFound, proxyFound := false, false;
    for i := 0 to |outbounds|
      invariant forall j :: 0 <= j < i ==> IsDirect(outbounds[j]) || IsProxy(outbounds[j])
      invariant directFound <==> exists j :: 0 <= j < i && IsDirect(outbounds[j])
      invariant proxyFound <==> exists j :: 0 <= j < i && IsProxy(outbounds[j])
    {
      if !outbounds[i].Object? {
        return false;
      }
      var tag, kind := Field(outbounds[i].fields, "tag"), Field(outbounds[i].fields, "type");
      if tag == "direct" {
        if kind != "direct" {
          return false;
        }
        directFound := true;
      } else if tag == "proxy" {
        if kind == "" || kind == "direct" || kind == "block" || kind == "dns" {
          return false;
        }
        proxyFound := true;
      } else {
        return false;
      }
    }
    if endpointValue != Null {
      if !endpointValue.Array? || |endpointValue.items| != 1 {
        return false;
      }
      var endpoint := endpointValue.items[0];
      if !endpoint.Object? || Field(endpoint.fields, "tag") != "proxy" {
        return false;
      }
      var kind := Field(endpoint.fields, "type");
      if kind != "wireguard" && kind != "tailscale" {
        return false;
      }
      proxyFound := true;
    }
    return directFound && proxyFound;
  }

  // What the loop of validateRoute lets pass at index i: unlike AcceptedRules,
  // an application rule may still stand where a netcheck rule belongs.
  predicate Passes(rules: seq<Json>, i: nat, netcheck: bool)
    requires i < |rules|
  {
    || IsPlainRule(rules, i, netcheck)
    || (netcheck && i == 0 && IsResolve(rules[0]))
    || (netcheck && i == 1 && IsUserRoute(rules[1], "direct") && IsResolve(rules[0])
        && User(rules[0]) == User(rules[1]))
    || (netcheck && i == 2 && IsUserRoute(rules[2], "proxy")
        && !(IsUserRoute(rules[1], "direct") && User(rules[1]) == User(rules[2])))
  }

  // The users of the netcheck route rules before index i.
  function RoutedUsers(rules: seq<Json>, i: nat, netcheck: bool): set<string>
    requires i <= |rules|
  {
    (if netcheck && i > 1 && IsUserRoute(rules[1], "direct") then {User(rules[1])} else {})
    + (if netcheck && i > 2 && IsUserRoute(rules[2], "proxy") then {User(rules[2])} else {})
  }

  // Two distinct users mean that both netcheck route rules are in place.
  lemma TwoUsers(rules: seq<Json>)
    requires |rules| >= 5
    ensures |RoutedUsers(rules, |rules|, true)| == 2 <==>
      IsUserRoute(rules[1], "direct") && IsUserRoute(rules[2], "proxy") && User(rules[1]) != User(rules[2])
  {
    var first := if IsUserRoute(rules[1], "direct") then {User(rules[1])} else {};
    var second := if IsUserRoute(rules[2], "proxy") then {User(rules[2])} else {};
    assert RoutedUsers(rules, |rules|, true) == first + second;
    if first == {} || second == {} || first == second {
      assert first + second == first || first + second == second;
    } else {
      assert first + second == {User(rules[1]), User(rules[2])};
    }
  }

  // A rule is of one kind only.
  lemma NetcheckRuleIsNotPlain(r: Json)
    ensures IsUserRoute(r, "direct") || IsUserRoute(r, "proxy") ==> !IsAppRule(r) && !IsSniff(r) && !IsHijack(r)
  {
    if r.Object? && Field(r.fields, "inbound") == "regalia-netcheck" {
      assert "inbound" in r.fields.Keys;
    }
  }

  lemma AllPassed(rules: seq<Json>, netcheck: bool)
    requires |rules| >= Base(netcheck) + 2
    requires forall i :: 0 <= i < |rules| ==> Passes(rules, i, netcheck)
    requires netcheck ==>
      IsUserRoute(rules[1], "direct") && IsUserRoute(rules[2], "proxy") && User(rules[1]) != User(rules[2])
    ensures AcceptedRules(rules, netcheck)
  {
    if netcheck {
      NetcheckRuleIsNotPlain(rules[1]);
      assert Passes(rules, 1, true);
    }
    forall i | Base(netcheck) <= i < |rules| ensures IsPlainRule(rules, i, netcheck) {
      assert Passes(rules, i, netcheck);
    }
  }

  method ValidateRoute(value: Json, expectNetcheck: bool) returns (ok: bool)
    ensures ok == AcceptedRoute(value, expectNetcheck)
  {
    if !value.Object? {
      return false;
    }
    var route := value.fields;
    if !OnlyKeys(route, {"rules", "final", "find_process", "auto_detect_interface", "default_domain_resolver"}) {
      return false;
    }
    var final := Field(route, "final");
    if final != "proxy" && final != "direct" {
      return false;
    }
    if !IsTrue(Get(route, "find_process")) || !IsTrue(Get(route, "auto_detect_interface")) {
      return false;
    }
    if !Get(route, "rules").Array? || |Get(route, "rules").items| < 2 {
      return false;
    }
    ok := ValidateRules(Get(route, "rules").items, expectNetcheck);
  }

  // The second half of validateRoute, from the rule count on.
  method ValidateRules(rules: seq<Json>, expectNetcheck: bool) returns (ok: bool)
    requires |rules| >= 2
    ensures ok == AcceptedRules(rules, expectNetcheck)
  {
    var sniffIndex := 0;
    if expectNetcheck {
      if |rules| < 5 {
        return false;
      }
      sniffIndex := 3;
    }
    var netcheckUsers: set<string> := {};
    var netcheckDirectUser := "";
    for index := 0 to |rules|
      invariant forall i :: 0 <= i < index ==> Passes(rules, i, expectNetcheck)
      invariant netcheckUsers == RoutedUsers(rules, index, expectNetcheck)
      invariant netcheckDirectUser == if expectNetcheck && index > 0 && IsResolve(rules[0]) then User(rules[0]) else ""
    {
      var passes := CheckRule(rules, index, expectNetcheck, sniffIndex, netcheckUsers, netcheckDirectUser);
      if !passes {
        return false;
      }
      var rule := rules[index].fields;
      if Field(rule, "action") == "resolve" {
        netcheckDirectUser := Field(rule, "auth_user");
      } else if Field(rule, "action") == "route" && Field(rule, "inbound") != "" {
        netcheckUsers := netcheckUsers + {Field(rule, "auth_user")};
      }
    }
    if expectNetcheck {
      TwoUsers(rules);
    }
    if expectNetcheck && |netcheckUsers| != 2 {
      return false;
    }
    AllPassed(rules, expectNetcheck);
    return true;
  }

  // One turn of the loop: whether the rule is let through.
  method CheckRule(rules: seq<Json>, index: nat, expectNetcheck: bool, sniffIndex: nat,
                   netcheckUsers: set<string>, netcheckDirectUser: string) returns (ok: bool)
    requires index < |rules| && sniffIndex == Base(expectNetcheck) && |rules| >= sniffIndex + 2
    requires netcheckUsers == RoutedUsers(rules, index, expectNetcheck)
    requires netcheckDirectUser == if expectNetcheck && index > 0 && IsResolve(rules[0]) then User(rules[0]) else ""
    ensures ok == Passes(rules, index, expectNetcheck)
  {
    if !rules[index].Object? {
      return false;
    }
    var rule := rules[index].fields;
    var action := Field(rule, "action");
    if action == "resolve" {
      if !expectNetcheck || index != 0 || Field(rule, "inbound") != "regalia-netcheck"
          || Field(rule, "auth_user") == "" {
        return false;
      }
      if Field(rule, "server") != "dns-remote" || Field(rule, "strategy") != "prefer_ipv4" {
        return false;
      }
      return OnlyKeys(rule, {"inbound", "auth_user", "action", "server", "strategy"});
    } else if action == "sniff" {
      return index == sniffIndex && |rule| == 1;
    } else if action == "hijack-dns" {
      return index == sniffIndex + 1 && Field(rule, "protocol") == "dns" && OnlyKeys(rule, {"protocol", "action"});
    } else if action == "route" {
      var outbound := Field(rule, "outbound");
      if outbound != "proxy" && outbound != "direct" {
        return false;
      }
      var inbound := Field(rule, "inbound");
      if inbound != "" {
        var user := Field(rule, "auth_user");
        if !expectNetcheck || index < 1 || index >= 3 || inbound != "regalia-netcheck" || user == ""
            || user in netcheckUsers {
          return false;
        }
        if (index == 1 && (outbound != "direct" || user != netcheckDirectUser)) || (index == 2 && outbound != "proxy") {
          return false;
        }
        return OnlyKeys(rule, {"inbound", "auth_user", "action", "outbound"});
      }
      ok := CheckAppRule(rule);
    } else {
      return false;
    }
  }

  method CheckAppRule(rule: Fields) returns (ok: bool)
    requires Field(rule, "action") == "route" && Field(rule, "outbound") in {"proxy", "direct"}
    ensures ok == IsAppRule(Object(rule))
  {
    if !OnlyKeys(rule, {"process_path", "action", "outbound"}) {
      return false;
    }
    var paths := StringList(Get(rule, "process_path"));
    if paths.None? || |paths.value| == 0 {
      return false;
    }
    for i := 0 to |paths.value|
      invariant forall j :: 0 <= j < i ==> IsAbs(paths.value[j])
    {
      if !IsAbs(paths.value[i]) {
        return false;
      }
    }
    return true;
  }
}
