// What holds of the store after any run of operations, failed saves, crashes
// and reopenings.
module StoreRuns {
  import opened Wrappers
  import opened Json
  import opened Text
  import opened Environment
  import opened Subscription
  import opened State
  import opened Store
  import opened Config

  // ---------- referential integrity ----------

  predicate SoundRule(rule: AppRule) { ValidOutbound(rule.outbound) && IsAbs(rule.processPath) }

  predicate SoundRoute(r: RouteProfile) {
    r.id != "" && ValidOutbound(r.defaultOutbound) && forall i :: 0 <= i < |r.apps| ==> SoundRule(r.apps[i])
  }

  predicate Referential(s: State) {
    && (s.activeServer != "" ==> FindServer(s.profiles, s.activeServer).Some?)
    && (s.activeRoute == "" <==> |s.routes| == 0)
    && (s.activeRoute != "" ==> RouteIndex(s.routes, s.activeRoute) >= 0)
    && forall i :: 0 <= i < |s.routes| ==> SoundRoute(s.routes[i])
  }

  lemma ServerIsFound(ps: seq<Profile>, p: Profile, v: Server)
    requires p in ps && v in p.servers
    ensures FindServer(ps, v.id).Some?
  {}

  lemma DeletingAProfileKeepsOthers(ps: seq<Profile>, k: nat, id: string)
    requires k < |ps| && FindServer(ps, id).Some? && ServerIndex(ps[k].servers, id) < 0
    ensures FindServer(Delete(ps, k), id).Some?
  {
    var v := FindServer(ps, id).value;
    var p :| p in ps && v in p.servers;
    var j :| 0 <= j < |ps| && ps[j] == p;
    assert j != k;
    assert Delete(ps, k)[if j < k then j else j - 1] == p;
    ServerIsFound(Delete(ps, k), p, v);
  }

  lemma UpdatingAProfileKeepsServers(ps: seq<Profile>, k: nat, p: Profile, id: string)
    requires k < |ps| && FindServer(ps, id).Some? && p.servers == ps[k].servers
    ensures FindServer(ps[k := p], id).Some?
  {
    var v := FindServer(ps, id).value;
    var q :| q in ps && v in q.servers;
    var j :| 0 <= j < |ps| && ps[j] == q;
    assert ps[k := p][j].servers == q.servers;
    ServerIsFound(ps[k := p], ps[k := p][j], v);
  }

  lemma ServerOpsKeepReferential(env: Env, s: State, op: StoreOp)
    requires Referential(s) && Planned(env, s, op).Some?
    requires op.SetVpnEnabled? || op.SelectServer? || op.CreateProfile? || op.DeleteProfile? || op.RecordProfileError?
    ensures Referential(Planned(env, s, op).value)
  {
    var id := s.activeServer;
    match op
    case SetVpnEnabled(_) =>
    case SelectServer(_) =>
    case CreateProfile(p, name, url, now) =>
      AppendingAnEmptyProfile(s.profiles, Profile(p, TrimSpace(name), TrimSpace(url), now, "", "", []), id);
    case DeleteProfile(p) =>
      var k := ProfileIndex(s.profiles, p);
      if id != "" && ServerIndex(s.profiles[k].servers, id) < 0 { DeletingAProfileKeepsOthers(s.profiles, k, id); }
    case RecordProfileError(p, message) =>
      var k := ProfileIndex(s.profiles, p);
      if id != "" { UpdatingAProfileKeepsServers(s.profiles, k, s.profiles[k].(lastError := message), id); }
  }

  lemma RefreshKeepsReferential(env: Env, s: State, op: StoreOp)
    requires Referential(s) && Planned(env, s, op).Some? && op.ReplaceServers?
    ensures Referential(Planned(env, s, op).value)
  {
    var k := ProfileIndex(s.profiles, op.profileId);
    var servers := Refreshed(env, op.profileId, op.candidates, |op.candidates|);
    var updated := s.profiles[k].(servers := servers, updatedAt := op.now, lastError := "");
    var j := ServerIndex(servers, s.activeServer);
    if j >= 0 { ServerIsFound(s.profiles[k := updated], s.profiles[k := updated][k], servers[j]); }
  }

  lemma RouteOpsKeepReferential(env: Env, s: State, op: StoreOp)
    requires Referential(s) && Planned(env, s, op).Some?
    requires op.CreateRoute? || op.DeleteRoute? || op.ActivateRoute?
    requires op.CreateRoute? ==> op.routeId != ""
    ensures Referential(Planned(env, s, op).value)
  {
    match op
    case CreateRoute(id, _, _, _) =>
      var routes := Planned(env, s, op).value.routes;
      assert routes[|routes| - 1].id == id;
      if s.activeRoute != "" { assert routes[RouteIndex(s.routes, s.activeRoute)].id == s.activeRoute; }
    case DeleteRoute(id) =>
      DeletingARouteKeepsReferential(s, RouteIndex(s.routes, id));
    case ActivateRoute(id) =>
      assert SoundRoute(s.routes[RouteIndex(s.routes, id)]);
  }

  lemma RuleOpsKeepReferential(env: Env, s: State, op: StoreOp)
    requires Referential(s) && Planned(env, s, op).Some? && (op.SetAppRule? || op.RemoveAppRule?)
    ensures Referential(Planned(env, s, op).value)
  {
    match op
    case SetAppRule(id, rule) =>
      var k := RouteIndex(s.routes, id);
      SetRuleIsSound(s.routes[k], CleanRule(env, rule));
      SwappingARouteKeepsReferential(s, k, s.routes[k].(apps := WithRule(s.routes[k].apps, CleanRule(env, rule))));
    case RemoveAppRule(id, path) =>
      var k := RouteIndex(s.routes, id);
      var j := PathIndex(s.routes[k].apps, path);
      RemovingARuleIsSound(s.routes[k], j);
      SwappingARouteKeepsReferential(s, k, s.routes[k].(apps := Delete(s.routes[k].apps, j)));
  }

  lemma DeletingARouteKeepsReferential(s: State, k: nat)
    requires Referential(s) && k < |s.routes|
    ensures Referential(WithoutRoute(s, k))
  {
    var left := Delete(s.routes, k);
    forall i | 0 <= i < |left| ensures SoundRoute(left[i]) {
      assert left[i] == s.routes[if i < k then i else i + 1];
    }
    if s.activeRoute != s.routes[k].id {
      var j := RouteIndex(s.routes, s.activeRoute);
      assert left[if j < k then j else j - 1].id == s.activeRoute;
    }
  }

  lemma RemovingARuleIsSound(r: RouteProfile, j: nat)
    requires SoundRoute(r) && j < |r.apps|
    ensures SoundRoute(r.(apps := Delete(r.apps, j)))
  {
    var left := Delete(r.apps, j);
    forall i | 0 <= i < |left| ensures SoundRule(left[i]) {
      assert left[i] == r.apps[if i < j then i else i + 1];
    }
  }

  lemma SetRuleIsSound(r: RouteProfile, rule: AppRule)
    requires SoundRoute(r) && SoundRule(rule)
    ensures SoundRoute(r.(apps := WithRule(r.apps, rule)))
  {}

  lemma SwappingARouteKeepsReferential(s: State, k: nat, r: RouteProfile)
    requires Referential(s) && k < |s.routes| && SoundRoute(r) && r.id == s.routes[k].id
    ensures Referential(s.(routes := s.routes[k := r]))
  {
    if s.activeRoute != "" {
      var j := RouteIndex(s.routes, s.activeRoute);
      assert s.routes[k := r][j].id == s.activeRoute;
    }
  }

  lemma PlannedKeepsReferential(env: Env, s: State, op: StoreOp)
    requires Referential(s) && Planned(env, s, op).Some?
    requires op.CreateRoute? ==> op.routeId != ""
    ensures Referential(Planned(env, s, op).value)
  {
    if op.CreateRoute? || op.DeleteRoute? || op.ActivateRoute? {
      RouteOpsKeepReferential(env, s, op);
    } else if op.SetAppRule? || op.RemoveAppRule? {
      RuleOpsKeepReferential(env, s, op);
    } else if op.ReplaceServers? {
      RefreshKeepsReferential(env, s, op);
    } else {
      ServerOpsKeepReferential(env, s, op);
    }
  }

  // ---------- runs ----------

  const START := Node(INITIAL, None)

  function RunFrom(env: Env, n: Node, events: seq<Event>): Node
    decreases |events|
  {
    if events == [] then n else RunFrom(env, NodeStep(env, n, events[0]), events[1..])
  }

  // newID never yields the empty string.
  predicate Named(e: Event) { e.op.CreateRoute? ==> e.op.routeId != "" }

  // The intent on disk, false when there is no file, is the intent in memory.
  predicate SoundNode(n: Node) {
    Referential(n.memory) && Referential(Load(n.file)) && Load(n.file).vpnEnabled == n.memory.vpnEnabled
  }

  lemma IntentOnlyChangesByCommand(env: Env, s: State, op: StoreOp)
    requires !op.SetVpnEnabled? && Planned(env, s, op).Some?
    ensures Planned(env, s, op).value.vpnEnabled == s.vpnEnabled
  {}

  lemma StepKeepsSound(env: Env, n: Node, e: Event)
    requires SoundNode(n) && Named(e)
    ensures SoundNode(NodeStep(env, n, e))
  {
    if Saves(env, n.memory, e.op) {
      PlannedKeepsReferential(env, n.memory, e.op);
      if !e.op.SetVpnEnabled? { IntentOnlyChangesByCommand(env, n.memory, e.op); }
    }
  }

  // Referential integrity and exact intent after every run, with any failed
  // saves and any crashes.
  lemma {:induction false} EveryRunIsSound(env: Env, n: Node, events: seq<Event>)
    requires SoundNode(n) && forall i :: 0 <= i < |events| ==> Named(events[i])
    ensures SoundNode(RunFrom(env, n, events))
    decreases |events|
  {
    if events != [] {
      StepKeepsSound(env, n, events[0]);
      EveryRunIsSound(env, NodeStep(env, n, events[0]), events[1..]);
    }
  }

  lemma EveryRunFromStart(env: Env, events: seq<Event>)
    requires forall i :: 0 <= i < |events| ==> Named(events[i])
    ensures SoundNode(RunFrom(env, START, events))
  {
    EveryRunIsSound(env, START, events);
  }

  predicate Wrote(env: Env, n: Node, e: Event) {
    Saves(env, n.memory, e.op) && (if e.Done? then e.saved else e.replaced)
  }

  // The memory right after the last event that replaced the file.
  function LastImage(env: Env, n: Node, events: seq<Event>): Option<State> {
    if events == [] then n.file
    else
      var before := RunFrom(env, n, events[..|events| - 1]);
      var last := events[|events| - 1];
      if Wrote(env, before, last) then Some(NodeStep(env, before, last).memory)
      else LastImage(env, n, events[..|events| - 1])
  }

  lemma {:induction false} RunSplits(env: Env, n: Node, events: seq<Event>)
    requires events != []
    ensures RunFrom(env, n, events)
         == NodeStep(env, RunFrom(env, n, events[..|events| - 1]), events[|events| - 1])
    decreases |events|
  {
    if |events| > 1 {
      RunSplits(env, NodeStep(env, n, events[0]), events[1..]);
      assert events[..|events| - 1][1..] == events[1..][..|events| - 2];
    }
  }

  // The file always holds the memory image of the last successful save.
  lemma {:induction false} FileIsLastImage(env: Env, n: Node, events: seq<Event>)
    ensures RunFrom(env, n, events).file == LastImage(env, n, events)
  {
    if events != [] {
      RunSplits(env, n, events);
      FileIsLastImage(env, n, events[..|events| - 1]);
    }
  }

  // ---------- a selected server stays buildable ----------

  ghost predicate GenuineServer(env: Env, profileId: string, v: Server) {
    && Importable(v.outbound) && Genuine(env, v.source, v.outbound)
    && v.id == env.serverId(profileId, if v.source != "" then v.source else env.encode(v.outbound.value))
  }

  ghost predicate GenuineServers(env: Env, ps: seq<Profile>) {
    forall p, v :: p in ps && v in p.servers ==> GenuineServer(env, p.id, v)
  }

  predicate Selectable(s: State) {
    s.activeServer != "" ==>
      FindServer(s.profiles, s.activeServer).Some? && Ready(FindServer(s.profiles, s.activeServer).value)
  }

  // A refresh carries what Parse made of some subscription body.
  ghost predicate Fed(env: Env, op: StoreOp) {
    && (op.CreateRoute? ==> op.routeId != "")
    && (op.ReplaceServers? ==> exists input :: Parse(env, input) == Some(op.candidates))
  }

  // The operations the daemon performs: servers.select first runs
  // ValidateServer on the server it found.
  ghost predicate Guarded(env: Env, s: State, op: StoreOp) {
    && Fed(env, op)
    && (op.SelectServer? && FindServer(s.profiles, op.serverId).Some? ==>
          Ready(FindServer(s.profiles, op.serverId).value))
  }

  lemma {:induction false} RefreshedIsGenuine(env: Env, id: string, cs: seq<Candidate>, n: nat)
    requires n <= |cs| && forall i :: 0 <= i < n ==> Imported(env, cs[i])
    ensures forall v :: v in Refreshed(env, id, cs, n) ==> GenuineServer(env, id, v)
  {
    if n > 0 { RefreshedIsGenuine(env, id, cs, n - 1); }
  }

  lemma DeletingKeepsGenuine(env: Env, ps: seq<Profile>, k: nat)
    requires GenuineServers(env, ps) && k < |ps|
    ensures GenuineServers(env, Delete(ps, k))
  {
    forall p | p in Delete(ps, k) ensures p in ps {
      var i :| 0 <= i < |ps| - 1 && Delete(ps, k)[i] == p;
      assert p == ps[if i < k then i else i + 1];
    }
  }

  // A profile that changes takes genuine servers, under its own id.
  lemma ReplacingKeepsGenuine(env: Env, ps: seq<Profile>, k: nat, changed: Profile)
    requires GenuineServers(env, ps) && k < |ps|
    requires forall v :: v in changed.servers ==> GenuineServer(env, changed.id, v)
    ensures GenuineServers(env, ps[k := changed])
  {
    forall p | p in ps[k := changed] ensures p in ps || p == changed {
      var i :| 0 <= i < |ps| && ps[k := changed][i] == p;
    }
  }

  lemma RefreshKeepsGenuine(env: Env, ps: seq<Profile>, k: nat, op: StoreOp, changed: Profile)
    requires GenuineServers(env, ps) && k < |ps| && op.ReplaceServers? && Fed(env, op)
    requires changed.id == op.profileId
    requires changed.servers == Refreshed(env, op.profileId, op.candidates, |op.candidates|)
    ensures GenuineServers(env, ps[k := changed])
  {
    var input :| Parse(env, input) == Some(op.candidates);
    ParseImported(env, TrimSpace(input), 0);
    RefreshedIsGenuine(env, op.profileId, op.candidates, |op.candidates|);
    ReplacingKeepsGenuine(env, ps, k, changed);
  }

  lemma PlannedKeepsGenuine(env: Env, s: State, op: StoreOp)
    requires GenuineServers(env, s.profiles) && Planned(env, s, op).Some? && Fed(env, op)
    ensures GenuineServers(env, Planned(env, s, op).value.profiles)
  {
    var ps := Planned(env, s, op).value.profiles;
    match op
    case DeleteProfile(id) =>
      DeletingKeepsGenuine(env, s.profiles, ProfileIndex(s.profiles, id));
    case ReplaceServers(id, _, _) =>
      var k := ProfileIndex(s.profiles, id);
      RefreshKeepsGenuine(env, s.profiles, k, op, ps[k]);
      assert ps == s.profiles[k := ps[k]];
    case RecordProfileError(id, _) =>
      var k := ProfileIndex(s.profiles, id);
      assert s.profiles[k] in s.profiles;
      ReplacingKeepsGenuine(env, s.profiles, k, ps[k]);
    case _ =>
  }

  lemma LinkIsNotObjectText(env: Env, link: string, v: Json)
    requires env.JsonRoundTrips() && ParseLink(env, link).Some? && v.Object?
    ensures link != env.encode(v)
  {
    LinkHasScheme(env, link);
    LinkIsNotAnObject(link);
    assert HasPrefix(env.encode(Object(v.fields)), "{");
  }

  // A surviving id means the same identity, and so the same outbound.
  lemma SameIdSameOutbound(env: Env, p: string, v: Server, q: string, w: Server)
    requires env.JsonRoundTrips() && env.IdsCollisionFree()
    requires GenuineServer(env, p, v) && GenuineServer(env, q, w) && v.id == w.id
    ensures v.outbound == w.outbound
  {
    if v.source == "" && w.source == "" {
      assert env.decode(env.encode(v.outbound.value)) == Some(v.outbound.value);
      assert env.decode(env.encode(w.outbound.value)) == Some(w.outbound.value);
    } else if v.source == "" {
      LinkIsNotObjectText(env, w.source, v.outbound.value);
    } else if w.source == "" {
      LinkIsNotObjectText(env, v.source, w.outbound.value);
    }
  }

  lemma ReadinessCarries(env: Env, ps: seq<Profile>, qs: seq<Profile>, id: string)
    requires env.JsonRoundTrips() && env.IdsCollisionFree()
    requires GenuineServers(env, ps) && GenuineServers(env, qs)
    requires FindServer(ps, id).Some? && FindServer(qs, id).Some? && Ready(FindServer(ps, id).value)
    ensures Ready(FindServer(qs, id).value)
  {
    var v, w := FindServer(ps, id).value, FindServer(qs, id).value;
    var p :| p in ps && v in p.servers;
    var q :| q in qs && w in q.servers;
    SameIdSameOutbound(env, p.id, v, q.id, w);
  }

  ghost predicate Buildable(env: Env, s: State) {
    Referential(s) && GenuineServers(env, s.profiles) && Selectable(s)
  }

  lemma SelectionIsKeptOrDropped(env: Env, s: State, op: StoreOp)
    requires Planned(env, s, op).Some? && !op.SelectServer?
    ensures var active := Planned(env, s, op).value.activeServer; active == "" || active == s.activeServer
  {}

  lemma SelectionCarries(env: Env, s: State, t: State)
    requires env.JsonRoundTrips() && env.IdsCollisionFree()
    requires Buildable(env, s) && Referential(t) && GenuineServers(env, t.profiles)
    requires t.activeServer == "" || t.activeServer == s.activeServer
    ensures Selectable(t)
  {
    if t.activeServer != "" { ReadinessCarries(env, s.profiles, t.profiles, s.activeServer); }
  }

  lemma SelectingIsGuarded(env: Env, s: State, op: StoreOp)
    requires op.SelectServer? && Planned(env, s, op).Some? && Guarded(env, s, op)
    ensures Selectable(Planned(env, s, op).value)
  {}

  lemma PlannedKeepsSelectable(env: Env, s: State, op: StoreOp)
    requires env.JsonRoundTrips() && env.IdsCollisionFree()
    requires Buildable(env, s) && Planned(env, s, op).Some? && Guarded(env, s, op)
    requires Referential(Planned(env, s, op).value) && GenuineServers(env, Planned(env, s, op).value.profiles)
    ensures Selectable(Planned(env, s, op).value)
  {
    if op.SelectServer? {
      SelectingIsGuarded(env, s, op);
    } else {
      SelectionIsKeptOrDropped(env, s, op);
      SelectionCarries(env, s, Planned(env, s, op).value);
    }
  }

  lemma PlannedKeepsBuildable(env: Env, s: State, op: StoreOp)
    requires env.JsonRoundTrips() && env.IdsCollisionFree()
    requires Buildable(env, s) && Planned(env, s, op).Some? && Guarded(env, s, op)
    ensures Buildable(env, Planned(env, s, op).value)
  {
    PlannedKeepsReferential(env, s, op);
    PlannedKeepsGenuine(env, s, op);
    PlannedKeepsSelectable(env, s, op);
  }

  ghost predicate GuardedRun(env: Env, n: Node, events: seq<Event>)
    decreases |events|
  {
    events == [] || (Guarded(env, n.memory, events[0].op) && GuardedRun(env, NodeStep(env, n, events[0]), events[1..]))
  }

  ghost predicate BuildableNode(env: Env, n: Node) { Buildable(env, n.memory) && Buildable(env, Load(n.file)) }

  lemma StepKeepsBuildable(env: Env, n: Node, e: Event)
    requires env.JsonRoundTrips() && env.IdsCollisionFree()
    requires BuildableNode(env, n) && Guarded(env, n.memory, e.op)
    ensures BuildableNode(env, NodeStep(env, n, e))
  {
    if Saves(env, n.memory, e.op) { PlannedKeepsBuildable(env, n.memory, e.op); }
  }

  lemma {:induction false} GuardedRunsKeepBuildable(env: Env, n: Node, events: seq<Event>)
    requires env.JsonRoundTrips() && env.IdsCollisionFree()
    requires BuildableNode(env, n) && GuardedRun(env, n, events)
    ensures BuildableNode(env, RunFrom(env, n, events))
    decreases |events|
  {
    if events != [] {
      StepKeepsBuildable(env, n, events[0]);
      GuardedRunsKeepBuildable(env, NodeStep(env, n, events[0]), events[1..]);
    }
  }

  // Through the daemon's guarded operations, failed saves, crashes and
  // reopenings, a selected server can always be built: in memory, and in the
  // state a reopened store would have.
  lemma SelectedServerStaysBuildable(env: Env, events: seq<Event>, o: NetcheckOptions)
    requires env.JsonRoundTrips() && env.IdsCollisionFree() && GuardedRun(env, START, events)
    ensures var n := RunFrom(env, START, events);
      && (Build(n.memory, o).Some? <==> n.memory.activeServer != "")
      && (Build(Load(n.file), o).Some? <==> Load(n.file).activeServer != "")
  {
    GuardedRunsKeepBuildable(env, START, events);
  }
}
