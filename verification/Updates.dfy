// What single updates mean: application rules and subscription refreshes.
module Updates {
  import opened Wrappers
  import opened Environment
  import opened Subscription
  import opened State
  import opened Config
  import opened Routing
  import Store
  import StoreRuns

  // ---------- application rules ----------

  predicate UniqueRules(apps: seq<AppRule>) {
    && UniquePaths(apps)
    && forall i, j :: 0 <= i < j < |apps| && apps[i].desktopId != "" ==> apps[i].desktopId != apps[j].desktopId
  }

  // At most one stored rule clashes with the submitted one.
  predicate OneClash(apps: seq<AppRule>, rule: AppRule) {
    forall i, j :: 0 <= i < j < |apps| ==> !(Clashes(apps[i], rule) && Clashes(apps[j], rule))
  }

  // SetAppRule replaces only the first clash: joint uniqueness survives exactly
  // when there is no second one.
  lemma SetKeepsUniquenessExactly(apps: seq<AppRule>, rule: AppRule)
    requires UniqueRules(apps)
    ensures UniqueRules(WithRule(apps, rule)) <==> OneClash(apps, rule)
  {
    var k := ClashIndex(apps, rule);
    var updated := WithRule(apps, rule);
    if !OneClash(apps, rule) {
      var i, j :| 0 <= i < j < |apps| && Clashes(apps[i], rule) && Clashes(apps[j], rule);
      assert updated[k] == rule && updated[j] == apps[j] && k < j;
    }
  }

  // The two-entry case: from [{A,/a}, {B,/b}], setting {A,/b} leaves two /b rules,
  // and the older one decides.
  lemma SecondClashLeavesDuplicates()
    ensures
      var a := AppRule("A", "", "", "/a", "proxy");
      var b := AppRule("B", "", "", "/b", "direct");
      var moved := AppRule("A", "", "", "/b", "proxy");
      && UniqueRules([a, b]) && WithRule([a, b], moved) == [moved, b]
      && !UniquePaths(WithRule([a, b], moved))
      && Meaning(WithRule([a, b], moved), "proxy", "/b") == "direct"
  {
    var a, b := AppRule("A", "", "", "/a", "proxy"), AppRule("B", "", "", "/b", "direct");
    var moved := AppRule("A", "", "", "/b", "proxy");
    assert ClashIndex([a, b], moved) == 0;
    var updated := WithRule([a, b], moved);
    assert updated == [moved, b];
    assert updated[0].processPath == updated[1].processPath;
    assert updated[1].processPath == "/b" && updated[1].outbound == "direct";
  }

  // Whatever is stored, the submitted rule decides its path exactly when it says
  // direct or no other entry left for the path does.
  lemma SubmittedRuleDecidesExactly(apps: seq<AppRule>, rule: AppRule, final: string)
    requires ValidOutbound(rule.outbound)
    ensures Meaning(WithRule(apps, rule), final, rule.processPath) == rule.outbound <==>
      (rule.outbound == "direct"
       || forall i :: 0 <= i < |apps| && i != ClashIndex(apps, rule) && apps[i].processPath == rule.processPath
            ==> apps[i].outbound != "direct")
  {
    var k := ClashIndex(apps, rule);
    var updated := WithRule(apps, rule);
    var at := if k < 0 then |apps| else k;
    assert updated[at] == rule;
    assert Says(updated, rule.processPath, rule.outbound);
    assert forall i :: 0 <= i < |apps| && i != k ==> updated[i] == apps[i];
    if rule.outbound == "proxy" && Says(updated, rule.processPath, "direct") {
      var i :| 0 <= i < |updated| && updated[i].processPath == rule.processPath && updated[i].outbound == "direct";
      assert i != at && apps[i] == updated[i];
    }
  }

  // With joint uniqueness and one clash at most, the latest rule decides its
  // path, the displaced path falls to the default, and nothing else changes.
  lemma SetChangesOnlyItsPaths(apps: seq<AppRule>, rule: AppRule, final: string, path: string)
    requires UniqueRules(apps) && OneClash(apps, rule) && ValidOutbound(rule.outbound)
    ensures var k := ClashIndex(apps, rule);
      Meaning(WithRule(apps, rule), final, path) ==
        if path == rule.processPath then rule.outbound
        else if k >= 0 && apps[k].processPath == path then final
        else Meaning(apps, final, path)
  {
    var k := ClashIndex(apps, rule);
    var updated := WithRule(apps, rule);
    if path == rule.processPath {
      SubmittedRuleDecidesExactly(apps, rule, final);
    } else {
      SaysAfterSet(apps, rule, path, "direct");
      SaysAfterSet(apps, rule, path, "proxy");
    }
  }

  lemma SaysAfterSet(apps: seq<AppRule>, rule: AppRule, path: string, outbound: string)
    requires UniqueRules(apps) && path != rule.processPath
    ensures var k := ClashIndex(apps, rule);
      Says(WithRule(apps, rule), path, outbound) <==>
        Says(apps, path, outbound) && !(k >= 0 && apps[k].processPath == path)
  {
    var k := ClashIndex(apps, rule);
    var updated := WithRule(apps, rule);
    assert forall i :: 0 <= i < |apps| && i != k ==> updated[i] == apps[i];
    if Says(apps, path, outbound) {
      var i :| 0 <= i < |apps| && apps[i].processPath == path && apps[i].outbound == outbound;
      assert i != k ==> updated[i].processPath == path;
    }
  }

  lemma FirstRouteStays(before: seq<RouteProfile>, after: seq<RouteProfile>, id: string)
    requires |before| == |after| && forall i :: 0 <= i < |before| ==> before[i].id == after[i].id
    ensures RouteIndex(before, id) == RouteIndex(after, id)
  {
    var j, k := RouteIndex(before, id), RouteIndex(after, id);
    assert j >= 0 ==> after[j].id == id;
    assert k >= 0 ==> before[k].id == id;
  }

  lemma ActiveRouteAfterSet(env: Env, s: State, rule: AppRule)
    requires Planned(env, s, SetAppRule(s.activeRoute, rule)).Some? && s.activeRoute != ""
    ensures var t := Planned(env, s, SetAppRule(s.activeRoute, rule)).value;
      && AppsOf(ActiveRoute(t)) == WithRule(AppsOf(ActiveRoute(s)), CleanRule(env, rule))
      && FinalOf(ActiveRoute(t)) == FinalOf(ActiveRoute(s)) && ActiveServer(t) == ActiveServer(s)
      && ValidOutbound(rule.outbound)
  {
    FirstRouteStays(s.routes, Planned(env, s, SetAppRule(s.activeRoute, rule)).value.routes, s.activeRoute);
  }

  // The same, seen in the compiled document of the active route: all traffic.
  lemma SetIsCompiled(env: Env, s: State, rule: AppRule, n: NetcheckOptions, c: Conn)
    requires Planned(env, s, SetAppRule(s.activeRoute, rule)).Some? && s.activeRoute != ""
    requires Build(s, n).Some? && c.inbound == "tun-in"
    requires UniqueRules(AppsOf(ActiveRoute(s))) && OneClash(AppsOf(ActiveRoute(s)), CleanRule(env, rule))
    ensures var t := Planned(env, s, SetAppRule(s.activeRoute, rule)).value;
      var apps, cleaned := AppsOf(ActiveRoute(s)), CleanRule(env, rule);
      var k := ClashIndex(apps, cleaned);
      && Build(t, n).Some?
      && DecideIn(Build(t, n).value, c) ==
           if c.dns then HijackDns
           else if c.process == cleaned.processPath then Send(rule.outbound)
           else if k >= 0 && apps[k].processPath == c.process then Send(FinalOf(ActiveRoute(s)))
           else DecideIn(Build(s, n).value, c)
  {
    ActiveRouteAfterSet(env, s, rule);
    BuiltDocumentMeans(s, n, c);
    BuiltDocumentMeans(Planned(env, s, SetAppRule(s.activeRoute, rule)).value, n, c);
    SetChangesOnlyItsPaths(AppsOf(ActiveRoute(s)), CleanRule(env, rule), FinalOf(ActiveRoute(s)), c.process);
  }

  // ---------- removing a rule ----------

  lemma SaysAfterRemove(apps: seq<AppRule>, k: nat, path: string, outbound: string)
    requires k < |apps|
    ensures Says(Delete(apps, k), path, outbound) <==>
      exists i :: 0 <= i < |apps| && i != k && apps[i].processPath == path && apps[i].outbound == outbound
  {
    var left := Delete(apps, k);
    if Says(left, path, outbound) {
      var i :| 0 <= i < |left| && left[i].processPath == path && left[i].outbound == outbound;
      assert left[i] == apps[if i < k then i else i + 1];
    }
    if i :| 0 <= i < |apps| && i != k && apps[i].processPath == path && apps[i].outbound == outbound {
      assert left[if i < k then i else i - 1] == apps[i];
    }
  }

  // RemoveAppRule drops only the first entry for a path: the path falls to the
  // default, whatever that is, exactly when no other entry for it remains. No
  // other path is affected.
  lemma RemoveFallsToDefaultExactly(apps: seq<AppRule>, path: string)
    requires PathIndex(apps, path) >= 0
    ensures var k := PathIndex(apps, path);
      (forall final :: Meaning(Delete(apps, k), final, path) == final) <==>
      forall i :: 0 <= i < |apps| && i != k && apps[i].processPath == path ==> !ValidOutbound(apps[i].outbound)
  {
    var k := PathIndex(apps, path);
    SaysAfterRemove(apps, k, path, "direct");
    SaysAfterRemove(apps, k, path, "proxy");
    assert Meaning(Delete(apps, k), "", path) == "" <==>
      !Says(Delete(apps, k), path, "direct") && !Says(Delete(apps, k), path, "proxy");
  }

  lemma RemoveKeepsOtherPaths(apps: seq<AppRule>, path: string, final: string, other: string)
    requires PathIndex(apps, path) >= 0 && other != path
    ensures Meaning(Delete(apps, PathIndex(apps, path)), final, other) == Meaning(apps, final, other)
  {
    SaysAfterRemove(apps, PathIndex(apps, path), other, "direct");
    SaysAfterRemove(apps, PathIndex(apps, path), other, "proxy");
  }

  // ---------- rule histories ----------

  datatype RuleCommand = Set(rule: AppRule) | Remove(path: string)

  function Applied(apps: seq<AppRule>, command: RuleCommand): seq<AppRule> {
    match command
    case Set(rule) => WithRule(apps, rule)
    case Remove(path) =>
      var k := PathIndex(apps, path);
      if k < 0 then apps else Delete(apps, k)
  }

  function AppliedAll(apps: seq<AppRule>, commands: seq<RuleCommand>): seq<AppRule>
    decreases |commands|
  {
    if commands == [] then apps else AppliedAll(Applied(apps, commands[0]), commands[1..])
  }

  // Each path is always submitted with the same desktop id.
  predicate OwnedBy(owner: string -> string, apps: seq<AppRule>) {
    forall i :: 0 <= i < |apps| ==> apps[i].desktopId == owner(apps[i].processPath)
  }

  lemma OwnedRulesClashOnce(owner: string -> string, apps: seq<AppRule>, rule: AppRule)
    requires UniqueRules(apps) && OwnedBy(owner, apps) && rule.desktopId == owner(rule.processPath)
    ensures OneClash(apps, rule)
  {
    forall i, j | 0 <= i < j < |apps| ensures !(Clashes(apps[i], rule) && Clashes(apps[j], rule)) {
      assert apps[i].processPath == rule.processPath ==> apps[i].desktopId == rule.desktopId;
      assert apps[j].processPath == rule.processPath ==> apps[j].desktopId == rule.desktopId;
    }
  }

  lemma AppliedKeepsUniqueness(owner: string -> string, apps: seq<AppRule>, command: RuleCommand)
    requires UniqueRules(apps) && OwnedBy(owner, apps)
    requires command.Set? ==> command.rule.desktopId == owner(command.rule.processPath)
    ensures UniqueRules(Applied(apps, command)) && OwnedBy(owner, Applied(apps, command))
  {
    if command.Set? {
      OwnedRulesClashOnce(owner, apps, command.rule);
      SetKeepsUniquenessExactly(apps, command.rule);
    }
  }

  // Joint uniqueness is invariant over every history of Set and Remove.
  lemma {:induction false} HistoriesKeepUniqueness(owner: string -> string, apps: seq<AppRule>,
      commands: seq<RuleCommand>)
    requires UniqueRules(apps) && OwnedBy(owner, apps)
    requires forall i :: 0 <= i < |commands| && commands[i].Set? ==>
      commands[i].rule.desktopId == owner(commands[i].rule.processPath)
    ensures UniqueRules(AppliedAll(apps, commands))
    decreases |commands|
  {
    if commands != [] {
      AppliedKeepsUniqueness(owner, apps, commands[0]);
      HistoriesKeepUniqueness(owner, Applied(apps, commands[0]), commands[1..]);
    }
  }

  // ---------- rule histories in the store ----------

  // Every route's rules are jointly unique, each path under its own desktop id.
  predicate OwnedRoutes(owner: string -> string, s: State) {
    forall i :: 0 <= i < |s.routes| ==> UniqueRules(s.routes[i].apps) && OwnedBy(owner, s.routes[i].apps)
  }

  // The operation submits a path only with its own desktop id.
  predicate Owned(env: Env, owner: string -> string, op: StoreOp) {
    op.SetAppRule? ==> op.rule.desktopId == owner(CleanRule(env, op.rule).processPath)
  }

  lemma ChangedRouteKeepsOwned(owner: string -> string, s: State, k: nat, apps: seq<AppRule>)
    requires OwnedRoutes(owner, s) && k < |s.routes| && UniqueRules(apps) && OwnedBy(owner, apps)
    ensures OwnedRoutes(owner, s.(routes := s.routes[k := s.routes[k].(apps := apps)]))
  {}

  lemma DeletedRouteKeepsOwned(owner: string -> string, s: State, k: nat)
    requires OwnedRoutes(owner, s) && k < |s.routes|
    ensures OwnedRoutes(owner, WithoutRoute(s, k))
  {
    var left := Delete(s.routes, k);
    forall i | 0 <= i < |left| ensures UniqueRules(left[i].apps) && OwnedBy(owner, left[i].apps) {
      assert left[i] == s.routes[if i < k then i else i + 1];
    }
  }

  lemma PlannedKeepsOwned(env: Env, owner: string -> string, s: State, op: StoreOp)
    requires OwnedRoutes(owner, s) && Planned(env, s, op).Some? && Owned(env, owner, op)
    ensures OwnedRoutes(owner, Planned(env, s, op).value)
  {
    match op
    case SetAppRule(id, rule) =>
      var k := RouteIndex(s.routes, id);
      var cleaned := CleanRule(env, rule);
      AppliedKeepsUniqueness(owner, s.routes[k].apps, Set(cleaned));
      ChangedRouteKeepsOwned(owner, s, k, WithRule(s.routes[k].apps, cleaned));
    case RemoveAppRule(id, path) =>
      var k := RouteIndex(s.routes, id);
      AppliedKeepsUniqueness(owner, s.routes[k].apps, Remove(path));
      ChangedRouteKeepsOwned(owner, s, k, Applied(s.routes[k].apps, Remove(path)));
    case DeleteRoute(id) => DeletedRouteKeepsOwned(owner, s, RouteIndex(s.routes, id));
    case _ =>
  }

  lemma {:induction false} RunsKeepOwned(env: Env, owner: string -> string, n: Store.Node, events: seq<Store.Event>)
    requires OwnedRoutes(owner, n.memory) && OwnedRoutes(owner, Store.Load(n.file))
    requires forall e :: e in events ==> Owned(env, owner, e.op)
    ensures var m := StoreRuns.RunFrom(env, n, events);
      OwnedRoutes(owner, m.memory) && OwnedRoutes(owner, Store.Load(m.file))
    decreases |events|
  {
    if events != [] {
      assert events[0] in events;
      if Store.Saves(env, n.memory, events[0].op) { PlannedKeepsOwned(env, owner, n.memory, events[0].op); }
      RunsKeepOwned(env, owner, Store.NodeStep(env, n, events[0]), events[1..]);
    }
  }

  // If each path is always submitted with the same desktop id, then after any run
  // of the store, with failed saves and crashes, the rules of every route are
  // jointly unique, in memory and on disk; and the next rule set on the active
  // route decides its path in the compiled document, where a displaced path falls
  // to the default and everything else stays.
  lemma LatestRuleDecides(
    env: Env, owner: string -> string, events: seq<Store.Event>, rule: AppRule, n: NetcheckOptions, c: Conn)
    requires forall e :: e in events ==> Owned(env, owner, e.op)
    requires rule.desktopId == owner(CleanRule(env, rule).processPath)
    ensures var node := StoreRuns.RunFrom(env, StoreRuns.START, events);
      OwnedRoutes(owner, node.memory) && OwnedRoutes(owner, Store.Load(node.file))
    ensures var s := StoreRuns.RunFrom(env, StoreRuns.START, events).memory;
      var next := Planned(env, s, SetAppRule(s.activeRoute, rule));
      next.Some? && s.activeRoute != "" && Build(s, n).Some? && c.inbound == "tun-in" ==>
        var apps, cleaned := AppsOf(ActiveRoute(s)), CleanRule(env, rule);
        var k := ClashIndex(apps, cleaned);
        && Build(next.value, n).Some?
        && DecideIn(Build(next.value, n).value, c) ==
             if c.dns then HijackDns
             else if c.process == cleaned.processPath then Send(rule.outbound)
             else if k >= 0 && apps[k].processPath == c.process then Send(FinalOf(ActiveRoute(s)))
             else DecideIn(Build(s, n).value, c)
  {
    RunsKeepOwned(env, owner, StoreRuns.START, events);
    var s := StoreRuns.RunFrom(env, StoreRuns.START, events).memory;
    if Planned(env, s, SetAppRule(s.activeRoute, rule)).Some? && s.activeRoute != ""
       && Build(s, n).Some? && c.inbound == "tun-in" {
      OwnedRoutesClashOnce(owner, s, CleanRule(env, rule));
      SetIsCompiled(env, s, rule, n, c);
    }
  }

  lemma OwnedRoutesClashOnce(owner: string -> string, s: State, rule: AppRule)
    requires OwnedRoutes(owner, s) && rule.desktopId == owner(rule.processPath)
    ensures UniqueRules(AppsOf(ActiveRoute(s))) && OneClash(AppsOf(ActiveRoute(s)), rule)
  {
    OwnedRulesClashOnce(owner, AppsOf(ActiveRoute(s)), rule);
  }

  // ---------- refresh ----------

  function KeptCount(env: Env, cs: seq<Candidate>, n: nat): nat
    requires n <= |cs|
  {
    if n == 0 then 0 else KeptCount(env, cs, n - 1) + (if Kept(env, cs, n - 1) then 1 else 0)
  }

  // The refreshed list is the kept candidates, in candidate order: candidate k
  // stands behind exactly the kept ones before it.
  lemma {:induction false} RefreshKeepsOrder(env: Env, id: string, cs: seq<Candidate>, n: nat, k: nat)
    requires k < n <= |cs|
    ensures |Refreshed(env, id, cs, n)| == KeptCount(env, cs, n)
    ensures Kept(env, cs, k) ==>
      && KeptCount(env, cs, k) < KeptCount(env, cs, n)
      && Refreshed(env, id, cs, n)[KeptCount(env, cs, k)] == ServerFor(env, id, cs[k])
  {
    if n == 1 {
      assert Refreshed(env, id, cs, 0) == [];
    } else if k < n - 1 {
      RefreshKeepsOrder(env, id, cs, n - 1, k);
    } else {
      RefreshKeepsOrder(env, id, cs, n - 1, 0);
    }
  }

  // Every candidate with an identity is in the list, under an id that depends
  // only on the profile and the identity.
  lemma {:induction false} RefreshIsComplete(env: Env, id: string, cs: seq<Candidate>, k: nat)
    requires k < |cs| && Identity(env, cs[k]) != ""
    ensures ServerIndex(Refreshed(env, id, cs, |cs|), env.serverId(id, Identity(env, cs[k]))) >= 0
    decreases k
  {
    if Kept(env, cs, k) {
      RefreshKeepsOrder(env, id, cs, |cs|, k);
      assert Refreshed(env, id, cs, |cs|)[KeptCount(env, cs, k)].id == env.serverId(id, Identity(env, cs[k]));
    } else {
      var j :| 0 <= j < k && Identity(env, cs[j]) == Identity(env, cs[k]);
      RefreshIsComplete(env, id, cs, j);
    }
  }

  lemma {:induction false} RefreshedFrom(env: Env, id: string, cs: seq<Candidate>, n: nat)
    requires n <= |cs|
    ensures forall v :: v in Refreshed(env, id, cs, n) ==>
      exists k :: 0 <= k < n && Kept(env, cs, k) && v == ServerFor(env, id, cs[k])
  {
    if n > 0 { RefreshedFrom(env, id, cs, n - 1); }
  }

  // ... and no id appears twice.
  lemma {:induction false} RefreshedIdsAreDistinct(env: Env, id: string, cs: seq<Candidate>, n: nat)
    requires env.IdsCollisionFree() && n <= |cs|
    ensures forall i, j :: 0 <= i < j < |Refreshed(env, id, cs, n)| ==>
      Refreshed(env, id, cs, n)[i].id != Refreshed(env, id, cs, n)[j].id
  {
    if n > 0 {
      RefreshedIdsAreDistinct(env, id, cs, n - 1);
      var earlier := Refreshed(env, id, cs, n - 1);
      if Kept(env, cs, n - 1) {
        KeptIdIsNew(env, id, cs, n - 1);
        assert forall i :: 0 <= i < |earlier| ==> earlier[i] in earlier;
      }
    }
  }

  lemma KeptIdIsNew(env: Env, id: string, cs: seq<Candidate>, n: nat)
    requires env.IdsCollisionFree() && n < |cs| && Kept(env, cs, n)
    ensures forall v :: v in Refreshed(env, id, cs, n) ==> v.id != ServerFor(env, id, cs[n]).id
  {
    RefreshedFrom(env, id, cs, n);
    forall v | v in Refreshed(env, id, cs, n) ensures v.id != ServerFor(env, id, cs[n]).id {
      var k :| 0 <= k < n && Kept(env, cs, k) && v == ServerFor(env, id, cs[k]);
      assert Identity(env, cs[k]) != Identity(env, cs[n]);
    }
  }

  lemma FirstProfileStays(before: seq<Profile>, after: seq<Profile>, id: string)
    requires |before| == |after| && forall i :: 0 <= i < |before| ==> before[i].id == after[i].id
    ensures ProfileIndex(before, id) == ProfileIndex(after, id)
  {
    var j, k := ProfileIndex(before, id), ProfileIndex(after, id);
    assert j >= 0 ==> after[j].id == id;
    assert k >= 0 ==> before[k].id == id;
  }

  // Refreshing again with the same candidates changes the timestamp only.
  lemma RefreshTwice(env: Env, s: State, id: string, cs: seq<Candidate>, now: string, later: string)
    requires Planned(env, s, ReplaceServers(id, cs, now)).Some?
    ensures
      var once := Planned(env, s, ReplaceServers(id, cs, now)).value;
      var k := ProfileIndex(s.profiles, id);
      Planned(env, once, ReplaceServers(id, cs, later))
        == Some(once.(profiles := once.profiles[k := once.profiles[k].(updatedAt := later)]))
  {
    var once := Planned(env, s, ReplaceServers(id, cs, now)).value;
    var k := ProfileIndex(s.profiles, id);
    FirstProfileStays(s.profiles, once.profiles, id);
    assert once.profiles[k].servers == Refreshed(env, id, cs, |cs|);
  }

  // A refresh keeps the selection exactly when some candidate with an identity
  // hashes to the selected id, and clears it otherwise.
  lemma RefreshKeepsSelectionExactly(env: Env, s: State, id: string, cs: seq<Candidate>, now: string)
    requires Planned(env, s, ReplaceServers(id, cs, now)).Some?
    ensures Planned(env, s, ReplaceServers(id, cs, now)).value.activeServer ==
      if exists k :: 0 <= k < |cs| && Identity(env, cs[k]) != ""
          && env.serverId(id, Identity(env, cs[k])) == s.activeServer
      then s.activeServer else ""
  {
    var servers := Refreshed(env, id, cs, |cs|);
    RefreshedFrom(env, id, cs, |cs|);
    var j := ServerIndex(servers, s.activeServer);
    if j >= 0 {
      assert servers[j] in servers;
      var k :| 0 <= k < |cs| && Kept(env, cs, k) && servers[j] == ServerFor(env, id, cs[k]);
      assert Identity(env, cs[k]) != "" && env.serverId(id, Identity(env, cs[k])) == s.activeServer;
    } else if k :| 0 <= k < |cs| && Identity(env, cs[k]) != ""
                   && env.serverId(id, Identity(env, cs[k])) == s.activeServer {
      RefreshIsComplete(env, id, cs, k);
    }
  }

  // In terms of the selected server: it survives exactly when the refreshed
  // profile is its own and a candidate still has its identity.
  lemma RefreshKeepsItsOwnSelectionExactly(
    env: Env, s: State, id: string, cs: seq<Candidate>, now: string, owner: string, identity: string)
    requires env.IdsCollisionFree() && Planned(env, s, ReplaceServers(id, cs, now)).Some?
    requires s.activeServer == env.serverId(owner, identity) && s.activeServer != "" && identity != ""
    ensures Planned(env, s, ReplaceServers(id, cs, now)).value.activeServer == s.activeServer <==>
      owner == id && exists k :: 0 <= k < |cs| && Identity(env, cs[k]) == identity
  {
    RefreshKeepsSelectionExactly(env, s, id, cs, now);
    if k :| 0 <= k < |cs| && Identity(env, cs[k]) == identity {
      assert owner == id ==> env.serverId(id, Identity(env, cs[k])) == s.activeServer;
    }
  }

  // So refreshing one profile always drops a selection made in another.
  lemma RefreshDropsForeignSelection(
    env: Env, s: State, id: string, cs: seq<Candidate>, now: string, owner: string, identity: string)
    requires env.IdsCollisionFree() && Planned(env, s, ReplaceServers(id, cs, now)).Some?
    requires s.activeServer == env.serverId(owner, identity) && owner != id
    ensures Planned(env, s, ReplaceServers(id, cs, now)).value.activeServer == ""
  {
    RefreshKeepsSelectionExactly(env, s, id, cs, now);
  }
}
