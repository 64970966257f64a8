// What each operation of the store does to its state, said of the state before
// and after.
module Effects {
  import opened Wrappers
  import opened Json
  import opened Text
  import opened Environment
  import opened Subscription
  import opened State

  predicate FirstProfile(s: State, id: string, k: nat) {
    k < |s.profiles| && s.profiles[k].id == id && forall j :: 0 <= j < k ==> s.profiles[j].id != id
  }

  predicate FirstRoute(s: State, id: string, k: nat) {
    k < |s.routes| && s.routes[k].id == id && forall j :: 0 <= j < k ==> s.routes[j].id != id
  }

  predicate NoProfile(s: State, id: string) { forall p :: p in s.profiles ==> p.id != id }
  predicate NoRoute(s: State, id: string) { forall r :: r in s.routes ==> r.id != id }

  predicate HasServer(servers: seq<Server>, id: string) { exists v :: v in servers && v.id == id }

  // ---------- a refreshed list ----------

  function IdentityOf(env: Env, c: Candidate): string {
    if c.source != "" then c.source
    else match c.outbound
      case Some(outbound) => env.encode(outbound)
      case None => ""
  }

  predicate FromCandidate(env: Env, profileId: string, v: Server, c: Candidate) {
    && v.id == env.serverId(profileId, IdentityOf(env, c))
    && v.name == c.name && v.protocol == c.protocol && v.address == c.address && v.port == c.port
    && v.source == c.source && v.outbound == c.outbound
  }

  // The first candidate of its identity.
  predicate FirstOfIdentity(env: Env, cs: seq<Candidate>, k: nat) {
    && k < |cs| && IdentityOf(env, cs[k]) != ""
    && forall j :: 0 <= j < k ==> IdentityOf(env, cs[j]) != IdentityOf(env, cs[k])
  }

  // The servers are those of the candidates at these places, in order: all the
  // first ones of an identity.
  ghost predicate Chosen(env: Env, profileId: string, cs: seq<Candidate>, servers: seq<Server>, places: seq<nat>) {
    && |places| == |servers|
    && (forall i, j :: 0 <= i < j < |places| ==> places[i] < places[j])
    && (forall k: nat :: k in places <==> FirstOfIdentity(env, cs, k))
    && (forall i :: 0 <= i < |places| ==>
          places[i] < |cs| && FromCandidate(env, profileId, servers[i], cs[places[i]]))
  }

  ghost predicate RefreshOf(env: Env, profileId: string, cs: seq<Candidate>, servers: seq<Server>) {
    exists places :: Chosen(env, profileId, cs, servers, places)
  }

  function KeptPlaces(env: Env, cs: seq<Candidate>, n: nat): seq<nat>
    requires n <= |cs|
  {
    if n == 0 then []
    else KeptPlaces(env, cs, n - 1) + (if Kept(env, cs, n - 1) then [n - 1] else [])
  }

  lemma IdentityIs(env: Env, c: Candidate)
    ensures Identity(env, c) == IdentityOf(env, c)
  {}

  lemma {:induction false} PlacesAreKept(env: Env, profileId: string, cs: seq<Candidate>, n: nat)
    requires n <= |cs|
    ensures var places, servers := KeptPlaces(env, cs, n), Refreshed(env, profileId, cs, n);
      && |places| == |servers|
      && (forall i, j :: 0 <= i < j < |places| ==> places[i] < places[j])
      && (forall i :: 0 <= i < |places| ==>
            places[i] < n && Kept(env, cs, places[i]) && servers[i] == ServerFor(env, profileId, cs[places[i]]))
  {
    if n > 0 { PlacesAreKept(env, profileId, cs, n - 1); }
  }

  // Every candidate with an identity has a kept one at or before it.
  lemma {:induction false} FirstIsKept(env: Env, cs: seq<Candidate>, k: nat) returns (j: nat)
    requires k < |cs| && Identity(env, cs[k]) != ""
    ensures j <= k && Kept(env, cs, j) && Identity(env, cs[j]) == Identity(env, cs[k])
    decreases k
  {
    j := k;
    if !Kept(env, cs, k) {
      var i :| 0 <= i < k && Identity(env, cs[i]) == Identity(env, cs[k]);
      j := FirstIsKept(env, cs, i);
    }
  }

  lemma {:induction false} KeptIsPlaced(env: Env, cs: seq<Candidate>, n: nat, k: nat)
    requires k < n <= |cs| && Kept(env, cs, k)
    ensures k in KeptPlaces(env, cs, n)
  {
    if k < n - 1 { KeptIsPlaced(env, cs, n - 1, k); }
  }

  lemma KeptIsFirst(env: Env, cs: seq<Candidate>, k: nat)
    requires k < |cs|
    ensures Kept(env, cs, k) <==> FirstOfIdentity(env, cs, k)
  {
    IdentityIs(env, cs[k]);
    forall j | 0 <= j < k ensures Identity(env, cs[j]) == IdentityOf(env, cs[j]) { IdentityIs(env, cs[j]); }
  }

  lemma ServerIsFromCandidate(env: Env, profileId: string, c: Candidate)
    ensures FromCandidate(env, profileId, ServerFor(env, profileId, c), c)
  {
    IdentityIs(env, c);
  }

  lemma RefreshedIsRefresh(env: Env, profileId: string, cs: seq<Candidate>)
    ensures RefreshOf(env, profileId, cs, Refreshed(env, profileId, cs, |cs|))
  {
    var places, servers := KeptPlaces(env, cs, |cs|), Refreshed(env, profileId, cs, |cs|);
    PlacesAreKept(env, profileId, cs, |cs|);
    forall k: nat ensures k in places <==> FirstOfIdentity(env, cs, k) {
      if k < |cs| {
        KeptIsFirst(env, cs, k);
        if Kept(env, cs, k) { KeptIsPlaced(env, cs, |cs|, k); }
      }
    }
    forall i | 0 <= i < |places| ensures FromCandidate(env, profileId, servers[i], cs[places[i]]) {
      ServerIsFromCandidate(env, profileId, cs[places[i]]);
    }
    assert Chosen(env, profileId, cs, servers, places);
  }

  // ---------- the operations ----------

  // When an operation is refused, and nothing changes.
  ghost predicate Refuses(env: Env, s: State, op: StoreOp) {
    match op
    case SetVpnEnabled(_) => false
    case CreateProfile(_, name, url, _) => TrimSpace(name) == "" || TrimSpace(url) == ""
    case DeleteProfile(id) => NoProfile(s, id)
    case ReplaceServers(id, cs, _) => NoProfile(s, id) || forall c :: c in cs ==> IdentityOf(env, c) == ""
    case RecordProfileError(id, _) => NoProfile(s, id)
    case SelectServer(id) => forall p :: p in s.profiles ==> !HasServer(p.servers, id)
    case CreateRoute(_, name, final, _) => TrimSpace(name) == "" || (final != "proxy" && final != "direct")
    case DeleteRoute(id) => NoRoute(s, id)
    case ActivateRoute(id) => NoRoute(s, id)
    case SetAppRule(id, rule) =>
      || NoRoute(s, id) || (rule.outbound != "proxy" && rule.outbound != "direct")
      || !HasPrefix(env.clean(TrimSpace(rule.processPath)), "/")
    case RemoveAppRule(id, path) =>
      forall k: nat :: FirstRoute(s, id, k) ==> forall a :: a in s.routes[k].apps ==> a.processPath != path
  }

  // The rules with the cleaned rule in: in the place of the first that it clashes
  // with, by path or by a desktop id that is not empty, or at the end.
  ghost predicate RuleSet(apps: seq<AppRule>, rule: AppRule, after: seq<AppRule>) {
    || (after == apps + [rule] && forall a :: a in apps ==> !SameApp(a, rule))
    || (exists j: nat :: FirstSame(apps, rule, j) && after == apps[j := rule])
  }

  predicate SameApp(a: AppRule, rule: AppRule) {
    a.processPath == rule.processPath || (rule.desktopId != "" && a.desktopId == rule.desktopId)
  }

  predicate FirstSame(apps: seq<AppRule>, rule: AppRule, j: nat) {
    j < |apps| && SameApp(apps[j], rule) && forall i :: 0 <= i < j ==> !SameApp(apps[i], rule)
  }

  predicate FirstWithPath(apps: seq<AppRule>, path: string, j: nat) {
    j < |apps| && apps[j].processPath == path && forall i :: 0 <= i < j ==> apps[i].processPath != path
  }

  ghost predicate RuleRemoved(apps: seq<AppRule>, path: string, after: seq<AppRule>) {
    exists j: nat :: FirstWithPath(apps, path, j) && after == apps[..j] + apps[j + 1..]
  }

  // Profile k goes, and with it a selection of one of its servers.
  ghost predicate DropsProfile(s: State, k: nat, t: State)
    requires k < |s.profiles|
  {
    t == s.(profiles := s.profiles[..k] + s.profiles[k + 1..],
            activeServer := if HasServer(s.profiles[k].servers, s.activeServer) then "" else s.activeServer)
  }

  // Route k goes; when it was the active one, the first of the others takes over.
  predicate DropsRoute(s: State, k: nat, t: State)
    requires k < |s.routes|
  {
    && t == s.(routes := s.routes[..k] + s.routes[k + 1..], activeRoute := t.activeRoute)
    && t.activeRoute == (
      if s.activeRoute != s.routes[k].id then s.activeRoute
      else if |s.routes| == 1 then "" else if k == 0 then s.routes[1].id else s.routes[0].id)
  }

  // Profile k takes the servers, and the selection goes unless one of them has its id.
  ghost predicate Refreshes(s: State, k: nat, servers: seq<Server>, now: string, t: State)
    requires k < |s.profiles|
  {
    t == s.(profiles := s.profiles[k := s.profiles[k].(servers := servers, updatedAt := now, lastError := "")],
            activeServer := if HasServer(servers, s.activeServer) then s.activeServer else "")
  }

  // The state after an operation that is not refused.
  ghost predicate Effect(env: Env, s: State, op: StoreOp, t: State) {
    match op
    case SetVpnEnabled(enabled) => t == s.(vpnEnabled := enabled)
    case CreateProfile(id, name, url, now) =>
      && t == s.(profiles := t.profiles)
      && t.profiles == s.profiles + [Profile(id, TrimSpace(name), TrimSpace(url), now, "", "", [])]
    case DeleteProfile(id) =>
      exists k: nat :: FirstProfile(s, id, k) && DropsProfile(s, k, t)
    case ReplaceServers(id, cs, now) =>
      exists k: nat, servers ::
        FirstProfile(s, id, k) && RefreshOf(env, id, cs, servers) && Refreshes(s, k, servers, now, t)
    case RecordProfileError(id, message) =>
      exists k: nat :: FirstProfile(s, id, k)
        && t == s.(profiles := s.profiles[k := s.profiles[k].(lastError := message)])
    case SelectServer(id) => t == s.(activeServer := id)
    case CreateRoute(id, name, final, now) =>
      t == s.(routes := s.routes + [RouteProfile(id, TrimSpace(name), final, [], now)],
              activeRoute := if s.activeRoute == "" then id else s.activeRoute)
    case DeleteRoute(id) =>
      exists k: nat :: FirstRoute(s, id, k) && DropsRoute(s, k, t)
    case ActivateRoute(id) => t == s.(activeRoute := id)
    case SetAppRule(id, rule) =>
      exists k: nat, apps :: FirstRoute(s, id, k) && t == s.(routes := s.routes[k := s.routes[k].(apps := apps)])
        && RuleSet(s.routes[k].apps, rule.(processPath := env.clean(TrimSpace(rule.processPath))), apps)
    case RemoveAppRule(id, path) =>
      exists k: nat, apps :: FirstRoute(s, id, k) && t == s.(routes := s.routes[k := s.routes[k].(apps := apps)])
        && RuleRemoved(s.routes[k].apps, path, apps)
  }

  lemma ProfilePlace(s: State, id: string)
    ensures ProfileIndex(s.profiles, id) < 0 <==> NoProfile(s, id)
    ensures ProfileIndex(s.profiles, id) >= 0 ==> FirstProfile(s, id, ProfileIndex(s.profiles, id))
  {
    if ProfileIndex(s.profiles, id) >= 0 { assert s.profiles[ProfileIndex(s.profiles, id)] in s.profiles; }
  }

  lemma RoutePlace(s: State, id: string)
    ensures RouteIndex(s.routes, id) < 0 <==> NoRoute(s, id)
    ensures RouteIndex(s.routes, id) >= 0 ==> FirstRoute(s, id, RouteIndex(s.routes, id))
    ensures forall k: nat :: FirstRoute(s, id, k) ==> k == RouteIndex(s.routes, id)
  {
    if RouteIndex(s.routes, id) >= 0 { assert s.routes[RouteIndex(s.routes, id)] in s.routes; }
  }

  lemma ServerPlace(servers: seq<Server>, id: string)
    ensures ServerIndex(servers, id) >= 0 <==> HasServer(servers, id)
  {
    if ServerIndex(servers, id) >= 0 { assert servers[ServerIndex(servers, id)] in servers; }
  }

  lemma DeletedIsWithout<T>(xs: seq<T>, k: nat)
    requires k < |xs|
    ensures Delete(xs, k) == xs[..k] + xs[k + 1..]
  {}

  // How a call ends: refused and without effect, or with it.
  ghost predicate Outcome(env: Env, s: State, op: StoreOp, t: State, ok: bool) {
    if Refuses(env, s, op) then !ok && t == s else Effect(env, s, op, t)
  }

  // What is planned is refused or has its effect.
  ghost predicate Means(env: Env, s: State, op: StoreOp) {
    && (Planned(env, s, op).None? <==> Refuses(env, s, op))
    && (Planned(env, s, op).Some? ==> Effect(env, s, op, Planned(env, s, op).value))
  }

  lemma ProfileChangesMean(env: Env, s: State, op: StoreOp)
    requires op.DeleteProfile? || op.RecordProfileError?
    ensures Means(env, s, op)
  {
    ProfilePlace(s, op.profileId);
    var k := ProfileIndex(s.profiles, op.profileId);
    if k >= 0 {
      ServerPlace(s.profiles[k].servers, s.activeServer);
      DeletedIsWithout(s.profiles, k);
    }
  }

  lemma RefreshIsPlanned(env: Env, s: State, id: string, cs: seq<Candidate>, now: string)
    ensures var k, servers := ProfileIndex(s.profiles, id), Refreshed(env, id, cs, |cs|);
      var planned := Planned(env, s, ReplaceServers(id, cs, now));
      && (planned.None? <==> k < 0 || servers == [])
      && (planned.Some? ==> Refreshes(s, k, servers, now, planned.value))
  {
    ServerPlace(Refreshed(env, id, cs, |cs|), s.activeServer);
    assert cs == [] ==> Refreshed(env, id, cs, |cs|) == [];
  }

  lemma RefreshMeans(env: Env, s: State, op: StoreOp)
    requires op.ReplaceServers?
    ensures Means(env, s, op)
  {
    ProfilePlace(s, op.profileId);
    RefreshIsPlanned(env, s, op.profileId, op.candidates, op.now);
    RefreshedIsRefresh(env, op.profileId, op.candidates);
    SomethingIsRefreshed(env, op.profileId, op.candidates);
  }

  lemma SomethingIsRefreshed(env: Env, profileId: string, cs: seq<Candidate>)
    ensures Refreshed(env, profileId, cs, |cs|) == [] <==> forall c :: c in cs ==> IdentityOf(env, c) == ""
  {
    PlacesAreKept(env, profileId, cs, |cs|);
    if Refreshed(env, profileId, cs, |cs|) != [] {
      var k := KeptPlaces(env, cs, |cs|)[0];
      IdentityIs(env, cs[k]);
      assert cs[k] in cs;
    } else {
      forall c | c in cs ensures IdentityOf(env, c) == "" {
        var k :| 0 <= k < |cs| && cs[k] == c;
        IdentityIs(env, c);
        if Identity(env, c) != "" {
          var j := FirstIsKept(env, cs, k);
          KeptIsPlaced(env, cs, |cs|, j);
        }
      }
    }
  }

  lemma SelectionMeans(env: Env, s: State, op: StoreOp)
    requires op.SelectServer?
    ensures Means(env, s, op)
  {
    var found := FindServer(s.profiles, op.serverId);
    if found.Some? {
      var p :| p in s.profiles && found.value in p.servers;
      assert HasServer(p.servers, op.serverId);
    }
  }

  lemma WithoutDrops(s: State, k: nat)
    requires k < |s.routes|
    ensures DropsRoute(s, k, WithoutRoute(s, k))
  {
    DeletedIsWithout(s.routes, k);
  }

  lemma RouteDeletionMeans(env: Env, s: State, op: StoreOp)
    requires op.DeleteRoute?
    ensures Means(env, s, op)
  {
    RoutePlace(s, op.routeId);
    if RouteIndex(s.routes, op.routeId) >= 0 { WithoutDrops(s, RouteIndex(s.routes, op.routeId)); }
  }

  lemma RouteActivationMeans(env: Env, s: State, op: StoreOp)
    requires op.ActivateRoute?
    ensures Means(env, s, op)
  {
    RoutePlace(s, op.routeId);
  }

  lemma RuleIsSet(apps: seq<AppRule>, rule: AppRule)
    ensures RuleSet(apps, rule, WithRule(apps, rule))
  {
    var j := ClashIndex(apps, rule);
    if j >= 0 { assert FirstSame(apps, rule, j); }
  }

  lemma SetMeans(env: Env, s: State, op: StoreOp)
    requires op.SetAppRule?
    ensures Means(env, s, op)
  {
    RoutePlace(s, op.routeId);
    var k := RouteIndex(s.routes, op.routeId);
    if k >= 0 { RuleIsSet(s.routes[k].apps, CleanRule(env, op.rule)); }
  }

  lemma RemoveMeans(env: Env, s: State, op: StoreOp)
    requires op.RemoveAppRule?
    ensures Means(env, s, op)
  {
    RoutePlace(s, op.routeId);
    var k := RouteIndex(s.routes, op.routeId);
    if k >= 0 {
      var apps := s.routes[k].apps;
      var j := PathIndex(apps, op.path);
      if j >= 0 {
        assert FirstWithPath(apps, op.path, j) && apps[j] in apps;
        DeletedIsWithout(apps, j);
        assert RuleRemoved(apps, op.path, Delete(apps, j));
      }
    }
  }

  lemma CreationsMean(env: Env, s: State, op: StoreOp)
    requires op.SetVpnEnabled? || op.CreateProfile? || op.CreateRoute?
    ensures Means(env, s, op)
  {}

  // Every operation of the store is refused exactly when it should be, and
  // otherwise has exactly its effect.
  lemma PlannedMeans(env: Env, s: State, op: StoreOp)
    ensures Means(env, s, op)
  {
    match op
    case DeleteProfile(_) => ProfileChangesMean(env, s, op);
    case RecordProfileError(_, _) => ProfileChangesMean(env, s, op);
    case ReplaceServers(_, _, _) => RefreshMeans(env, s, op);
    case SelectServer(_) => SelectionMeans(env, s, op);
    case DeleteRoute(_) => RouteDeletionMeans(env, s, op);
    case ActivateRoute(_) => RouteActivationMeans(env, s, op);
    case SetAppRule(_, _) => SetMeans(env, s, op);
    case RemoveAppRule(_, _) => RemoveMeans(env, s, op);
    case _ => CreationsMean(env, s, op);
  }
}
