// What every accepted configuration text is known to hold, read key by key.
module Soundness {
  import opened Json
  import opened Environment
  import opened Validate

  // ---------- inbounds ----------

  predicate TunFixed(o: Fields) {
    && Has(o, "type", String("tun")) && Has(o, "tag", String("tun-in"))
    && Has(o, "interface_name", String("regalia0")) && Has(o, "address", Array([String("172.19.0.1/30")]))
    && Has(o, "auto_route", Bool(true)) && Has(o, "auto_redirect", Bool(true)) && Has(o, "strict_route", Bool(true))
  }

  predicate NonEmptyText(o: Fields, key: string) { key in o && o[key].String? && o[key].s != "" }

  // Loopback, an unprivileged port, and two users with names and passwords.
  predicate NetcheckFixed(o: Fields) {
    && Has(o, "type", String("mixed")) && Has(o, "tag", String("regalia-netcheck"))
    && Has(o, "listen", String("127.0.0.1"))
    && "listen_port" in o && (exists port :: 1024 <= port <= 65535 && o["listen_port"] == Number(port, 0))
    && |Items(o, "users")| == 2
    && (forall i :: 0 <= i < 2 ==>
          Items(o, "users")[i].Object? && NonEmptyText(Items(o, "users")[i].fields, "username")
          && NonEmptyText(Items(o, "users")[i].fields, "password"))
    && Items(o, "users")[0].fields["username"] != Items(o, "users")[1].fields["username"]
  }

  // One TUN, and beside it at most one netcheck inbound, on either side.
  predicate InboundsFixed(inbounds: seq<Json>) {
    && 1 <= |inbounds| <= 2 && (forall i :: 0 <= i < |inbounds| ==> inbounds[i].Object?)
    && (|inbounds| == 1 ==> TunFixed(inbounds[0].fields))
    && (|inbounds| == 2 ==>
          || (TunFixed(inbounds[0].fields) && NetcheckFixed(inbounds[1].fields))
          || (TunFixed(inbounds[1].fields) && NetcheckFixed(inbounds[0].fields)))
  }

  // ---------- outbounds ----------

  predicate IsDirectOut(v: Json) {
    v.Object? && Has(v.fields, "tag", String("direct")) && Has(v.fields, "type", String("direct"))
  }

  predicate IsProxyOut(v: Json) {
    && v.Object? && Has(v.fields, "tag", String("proxy")) && NonEmptyText(v.fields, "type")
    && !Has(v.fields, "type", String("direct")) && !Has(v.fields, "type", String("block"))
    && !Has(v.fields, "type", String("dns"))
  }

  // Nothing but direct and proxy outbounds, and both there; one endpoint may be the proxy.
  ghost predicate OutboundsFixed(outbounds: seq<Json>, endpoints: seq<Json>) {
    && (forall v :: v in outbounds ==> IsDirectOut(v) || IsProxyOut(v))
    && (exists v :: v in outbounds && IsDirectOut(v))
    && |endpoints| <= 1
    && (forall v :: v in endpoints ==>
          v.Object? && Has(v.fields, "tag", String("proxy"))
          && (Has(v.fields, "type", String("wireguard")) || Has(v.fields, "type", String("tailscale"))))
    && (exists v :: v in outbounds + endpoints && v.Object? && Has(v.fields, "tag", String("proxy")))
  }

  // ---------- rules ----------

  // A list of absolute paths, and at least one.
  predicate AbsolutePaths(paths: Json) {
    && paths.Array? && |paths.items| > 0
    && forall i :: 0 <= i < |paths.items| ==>
         paths.items[i].String? && paths.items[i].s != "" && paths.items[i].s[0] == '/'
  }

  // What a rule may ask for and do.
  predicate RuleFixed(o: Fields) {
    && ("process_path" in o ==> AbsolutePaths(o["process_path"]))
    && ("inbound" in o ==> o["inbound"] == String("regalia-netcheck") && NonEmptyText(o, "auth_user"))
    && ("outbound" in o ==> o["outbound"] == String("proxy") || o["outbound"] == String("direct"))
    && "action" in o
    && (o["action"] == String("route") || o["action"] == String("resolve") || o["action"] == String("sniff")
        || o["action"] == String("hijack-dns"))
    && (o["action"] == String("route") ==> "outbound" in o && ("process_path" in o || "inbound" in o))
  }

  lemma UserRulesAreFixed(r: Json)
    requires IsResolve(r) || IsUserRoute(r, "direct") || IsUserRoute(r, "proxy")
    ensures r.Object? && RuleFixed(r.fields)
  {
    assert "process_path" !in r.fields.Keys;
  }

  lemma PathListIsAbsolute(v: Json)
    requires IsPathList(v)
    ensures AbsolutePaths(v)
  {}

  lemma AppRulesAreFixed(r: Json)
    requires IsAppRule(r)
    ensures r.Object? && RuleFixed(r.fields)
  {
    PathListIsAbsolute(Get(r.fields, "process_path"));
    assert "inbound" !in r.fields.Keys;
  }

  lemma PlainRulesAreFixed(r: Json)
    requires IsSniff(r) || IsHijack(r)
    ensures r.Object? && RuleFixed(r.fields)
  {
    if IsSniff(r) {
      assert r.fields.Keys - {"action"} == {} by {
        assert |r.fields.Keys - {"action"}| == 0;
      }
      assert forall k :: k in r.fields ==> k !in r.fields.Keys - {"action"};
    } else {
      assert "process_path" !in r.fields.Keys && "inbound" !in r.fields.Keys && "outbound" !in r.fields.Keys;
    }
  }

  lemma RulesAreFixed(rules: seq<Json>, netcheck: bool, i: nat)
    requires AcceptedRules(rules, netcheck) && i < |rules|
    ensures rules[i].Object? && RuleFixed(rules[i].fields)
  {
    if netcheck && i < 3 {
      assert i == 0 || i == 1 || i == 2;
      UserRulesAreFixed(rules[i]);
    } else {
      assert IsPlainRule(rules, i, netcheck);
      if IsAppRule(rules[i]) { AppRulesAreFixed(rules[i]); } else { PlainRulesAreFixed(rules[i]); }
    }
  }

  lemma InboundsAreFixed(d: Fields)
    requires AcceptedInbounds(Get(d, "inbounds"))
    ensures InboundsFixed(Items(d, "inbounds"))
  {
    var inbounds := Items(d, "inbounds");
    var t := if IsTun(inbounds[0]) then 0 else 1;
    TunIsFixed(inbounds[t]);
    if |inbounds| == 2 { NetcheckIsFixed(inbounds[1 - t]); }
  }

  lemma TunIsFixed(v: Json)
    requires IsTun(v)
    ensures TunFixed(v.fields)
  {}

  lemma NetcheckIsFixed(v: Json)
    requires IsNetcheckInbound(v)
    ensures NetcheckFixed(v.fields)
  {
    var port := Get(v.fields, "listen_port").whole;
    assert v.fields["listen_port"] == Number(port, 0);
  }

  lemma OutboundsAreFixed(d: Fields)
    requires AcceptedOutbounds(Get(d, "outbounds"), Get(d, "endpoints"))
    ensures OutboundsFixed(Items(d, "outbounds"), Items(d, "endpoints"))
  {
    var outbounds, endpoints := Items(d, "outbounds"), Items(d, "endpoints");
    var i :| 0 <= i < |outbounds| && IsDirect(outbounds[i]);
    assert outbounds[i] in outbounds && IsDirectOut(outbounds[i]);
    if Get(d, "endpoints") == Null {
      var j :| 0 <= j < |outbounds| && IsProxy(outbounds[j]);
      assert outbounds[j] in outbounds + endpoints;
    } else {
      assert endpoints[0] in outbounds + endpoints;
    }
  }

  // Every accepted text: within the size limit, an object, one TUN and at most one
  // netcheck inbound, direct and proxy outbounds only, and rules that match processes
  // by absolute paths only.
  lemma AcceptedTextIsSafe(env: Env, raw: string)
    requires Accepted(env, raw)
    ensures 0 < |raw| <= 4 * 1024 * 1024 && env.decode(raw).Some? && env.decode(raw).value.Object?
    ensures var d := env.decode(raw).value.fields; var route := Part(d, "route");
      && InboundsFixed(Items(d, "inbounds")) && OutboundsFixed(Items(d, "outbounds"), Items(d, "endpoints"))
      && "dns" in d && d["dns"].Object?
      && (Has(route, "final", String("proxy")) || Has(route, "final", String("direct")))
      && Has(route, "find_process", Bool(true)) && Has(route, "auto_detect_interface", Bool(true))
      && forall i :: 0 <= i < |Items(route, "rules")| ==>
           Items(route, "rules")[i].Object? && RuleFixed(Items(route, "rules")[i].fields)
  {
    var d := env.decode(raw).value.fields;
    var rules := Items(Part(d, "route"), "rules");
    InboundsAreFixed(d);
    OutboundsAreFixed(d);
    forall i | 0 <= i < |rules| ensures rules[i].Object? && RuleFixed(rules[i].fields) {
      RulesAreFixed(rules, HasNetcheck(Get(d, "inbounds")), i);
    }
  }
}
