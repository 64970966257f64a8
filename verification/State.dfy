// internal/state/state.go: the stored entities, and what each mutator does to
// them as a function. None means the call is refused and nothing is saved.
module State {
  import opened Wrappers
  import opened Json
  import opened Text
  import opened Environment
  import opened Subscription

  // An empty Outbound is None; otherwise it is kept decoded, since reopening
  // the store re-indents its text.
  datatype Server = Server(
    id: string, name: string, protocol: string, address: string, port: int, source: string, outbound: Option<Json>)

  datatype Profile = Profile(
    id: string, name: string, url: string, createdAt: string, updatedAt: string, lastError: string,
    servers: seq<Server>)

  datatype AppRule = AppRule(desktopId: string, name: string, icon: string, processPath: string, outbound: string)

  datatype RouteProfile = RouteProfile(
    id: string, name: string, defaultOutbound: string, apps: seq<AppRule>, createdAt: string)

  datatype State = State(
    vpnEnabled: bool, activeRoute: string, activeServer: string, profiles: seq<Profile>, routes: seq<RouteProfile>)

  const INITIAL := State(false, "", "", [], [])

  predicate ValidOutbound(outbound: string) { outbound == "proxy" || outbound == "direct" }

  // ---------- slices.IndexFunc, by key ----------

  function ProfileIndex(ps: seq<Profile>, id: string): (k: int)
    ensures -1 <= k < |ps|
    ensures k >= 0 ==> ps[k].id == id && forall j :: 0 <= j < k ==> ps[j].id != id
    ensures k < 0 ==> forall j :: 0 <= j < |ps| ==> ps[j].id != id
  {
    if ps == [] then -1 else if ps[0].id == id then 0
    else var k := ProfileIndex(ps[1..], id); if k < 0 then -1 else k + 1
  }

  function RouteIndex(rs: seq<RouteProfile>, id: string): (k: int)
    ensures -1 <= k < |rs|
    ensures k >= 0 ==> rs[k].id == id && forall j :: 0 <= j < k ==> rs[j].id != id
    ensures k < 0 ==> forall j :: 0 <= j < |rs| ==> rs[j].id != id
  {
    if rs == [] then -1 else if rs[0].id == id then 0
    else var k := RouteIndex(rs[1..], id); if k < 0 then -1 else k + 1
  }

  function ServerIndex(ss: seq<Server>, id: string): (k: int)
    ensures -1 <= k < |ss|
    ensures k >= 0 ==> ss[k].id == id && forall j :: 0 <= j < k ==> ss[j].id != id
    ensures k < 0 ==> forall j :: 0 <= j < |ss| ==> ss[j].id != id
  {
    if ss == [] then -1 else if ss[0].id == id then 0
    else var k := ServerIndex(ss[1..], id); if k < 0 then -1 else k + 1
  }

  // A stored rule that SetAppRule would replace with `rule`.
  predicate Clashes(candidate: AppRule, rule: AppRule) {
    candidate.processPath == rule.processPath || (rule.desktopId != "" && candidate.desktopId == rule.desktopId)
  }

  function ClashIndex(apps: seq<AppRule>, rule: AppRule): (k: int)
    ensures -1 <= k < |apps|
    ensures k >= 0 ==> Clashes(apps[k], rule) && forall j :: 0 <= j < k ==> !Clashes(apps[j], rule)
    ensures k < 0 ==> forall j :: 0 <= j < |apps| ==> !Clashes(apps[j], rule)
  {
    if apps == [] then -1 else if Clashes(apps[0], rule) then 0
    else var k := ClashIndex(apps[1..], rule); if k < 0 then -1 else k + 1
  }

  function PathIndex(apps: seq<AppRule>, path: string): (k: int)
    ensures -1 <= k < |apps|
    ensures k >= 0 ==> apps[k].processPath == path && forall j :: 0 <= j < k ==> apps[j].processPath != path
    ensures k < 0 ==> forall j :: 0 <= j < |apps| ==> apps[j].processPath != path
  {
    if apps == [] then -1 else if apps[0].processPath == path then 0
    else var k := PathIndex(apps[1..], path); if k < 0 then -1 else k + 1
  }

  // slices.Delete(s, k, k+1)
  function Delete<T>(s: seq<T>, k: nat): seq<T>
    requires k < |s|
  {
    seq(|s| - 1, i requires 0 <= i < |s| - 1 => if i < k then s[i] else s[i + 1])
  }

  // ---------- lookups ----------

  // The first server with this id, in profile order.
  function FindServer(ps: seq<Profile>, id: string): (r: Option<Server>)
    ensures r.Some? ==> r.value.id == id && exists p :: p in ps && r.value in p.servers
    ensures r.None? ==> forall p, v :: p in ps && v in p.servers ==> v.id != id
  {
    if ps == [] then None
    else
      var k := ServerIndex(ps[0].servers, id);
      if k >= 0 then assert ps[0] in ps && ps[0].servers[k] in ps[0].servers; Some(ps[0].servers[k])
      else
        assert forall p :: p in ps ==> p == ps[0] || p in ps[1..];
        FindServer(ps[1..], id)
  }

  // ---------- refresh ----------

  function Identity(env: Env, c: Candidate): string {
    if c.source != "" then c.source
    else if c.outbound.Some? then env.encode(c.outbound.value) else ""
  }

  // Candidate k is kept: it has an identity that no earlier candidate has.
  predicate Kept(env: Env, cs: seq<Candidate>, k: nat)
    requires k < |cs|
  {
    Identity(env, cs[k]) != "" && forall j :: 0 <= j < k ==> Identity(env, cs[j]) != Identity(env, cs[k])
  }

  function ServerFor(env: Env, profileId: string, c: Candidate): Server {
    Server(env.serverId(profileId, Identity(env, c)), c.name, c.protocol, c.address, c.port, c.source, c.outbound)
  }

  // The kept candidates among the first n, in candidate order.
  function Refreshed(env: Env, profileId: string, cs: seq<Candidate>, n: nat): seq<Server>
    requires n <= |cs|
  {
    if n == 0 then []
    else Refreshed(env, profileId, cs, n - 1)
         + (if Kept(env, cs, n - 1) then [ServerFor(env, profileId, cs[n - 1])] else [])
  }

  // ---------- mutators ----------

  datatype StoreOp =
    | SetVpnEnabled(enabled: bool)
    | CreateProfile(profileId: string, name: string, url: string, now: string)
    | DeleteProfile(profileId: string)
    | ReplaceServers(profileId: string, candidates: seq<Candidate>, now: string)
    | RecordProfileError(profileId: string, message: string)
    | SelectServer(serverId: string)
    | CreateRoute(routeId: string, name: string, defaultOutbound: string, now: string)
    | DeleteRoute(routeId: string)
    | ActivateRoute(routeId: string)
    | SetAppRule(routeId: string, rule: AppRule)
    | RemoveAppRule(routeId: string, path: string)

  function CleanRule(env: Env, rule: AppRule): AppRule {
    rule.(processPath := env.clean(TrimSpace(rule.processPath)))
  }

  function WithRule(apps: seq<AppRule>, rule: AppRule): seq<AppRule> {
    var k := ClashIndex(apps, rule);
    if k < 0 then apps + [rule] else apps[k := rule]
  }

  // Route k goes; if it was active, the first one left takes over.
  function WithoutRoute(s: State, k: nat): State
    requires k < |s.routes|
  {
    var left := Delete(s.routes, k);
    s.(routes := left,
       activeRoute := if s.activeRoute != s.routes[k].id then s.activeRoute
                      else if |left| == 0 then "" else left[0].id)
  }

  function Planned(env: Env, s: State, op: StoreOp): Option<State> {
    match op
    case SetVpnEnabled(enabled) => Some(s.(vpnEnabled := enabled))
    case CreateProfile(id, name, url, now) =>
      if TrimSpace(name) == "" || TrimSpace(url) == "" then None
      else Some(s.(profiles := s.profiles + [Profile(id, TrimSpace(name), TrimSpace(url), now, "", "", [])]))
    case DeleteProfile(id) =>
      var k := ProfileIndex(s.profiles, id);
      if k < 0 then None
      else Some(s.(profiles := Delete(s.profiles, k),
                   activeServer :=
                     if ServerIndex(s.profiles[k].servers, s.activeServer) >= 0 then "" else s.activeServer))
    case ReplaceServers(id, candidates, now) =>
      var k := ProfileIndex(s.profiles, id);
      var servers := Refreshed(env, id, candidates, |candidates|);
      if candidates == [] || k < 0 || servers == [] then None
      else Some(s.(profiles := s.profiles[k := s.profiles[k].(servers := servers, updatedAt := now, lastError := "")],
                   activeServer := if ServerIndex(servers, s.activeServer) < 0 then "" else s.activeServer))
    case RecordProfileError(id, message) =>
      var k := ProfileIndex(s.profiles, id);
      if k < 0 then None else Some(s.(profiles := s.profiles[k := s.profiles[k].(lastError := message)]))
    case SelectServer(id) =>
      if FindServer(s.profiles, id).None? then None else Some(s.(activeServer := id))
    case CreateRoute(id, name, defaultOutbound, now) =>
      if TrimSpace(name) == "" || !ValidOutbound(defaultOutbound) then None
      else Some(s.(routes := s.routes + [RouteProfile(id, TrimSpace(name), defaultOutbound, [], now)],
                   activeRoute := if s.activeRoute == "" then id else s.activeRoute))
    case DeleteRoute(id) =>
      var k := RouteIndex(s.routes, id);
      if k < 0 then None else Some(WithoutRoute(s, k))
    case ActivateRoute(id) =>
      if RouteIndex(s.routes, id) < 0 then None else Some(s.(activeRoute := id))
    case SetAppRule(id, rule) =>
      var k := RouteIndex(s.routes, id);
      if !IsAbs(CleanRule(env, rule).processPath) || !ValidOutbound(rule.outbound) || k < 0 then None
      else Some(s.(routes := s.routes[k := s.routes[k].(apps := WithRule(s.routes[k].apps, CleanRule(env, rule)))]))
    case RemoveAppRule(id, path) =>
      var k := RouteIndex(s.routes, id);
      if k < 0 then None
      else
        var j := PathIndex(s.routes[k].apps, path);
        if j < 0 then None
        else Some(s.(routes := s.routes[k := s.routes[k].(apps := Delete(s.routes[k].apps, j))]))
  }
}
