// internal/state/state.go: the store object, its lock-protected mutators and
// the replacement of the state file.
module Store {
  import opened Wrappers
  import opened Text
  import opened Environment
  import opened Subscription
  import opened State
  import opened Effects

  // What a file on disk holds: a whole state, or a write cut short.
  datatype Content = Whole(state: State) | Torn

  // The state file, and the temporary file of the save in progress.
  datatype Disk = Disk(file: Option<Content>, temp: Option<Content>)

  // Where saveLocked fails; Nowhere lets it succeed.
  datatype SaveStep = MakeDirectory | Encode | CreateTemp | Protect | Write | Sync | Close | Replace | Nowhere

  // A crash between two calls finds the state file whole or absent.
  predicate Readable(disk: Disk) { disk.file.Some? ==> disk.file.value.Whole? }

  // Open on a missing or a whole file.
  function Load(file: Option<State>): State { if file.Some? then file.value else INITIAL }

  function FileOf(disk: Disk): Option<State> {
    if disk.file.Some? && disk.file.value.Whole? then Some(disk.file.value.state) else None
  }

  // A daemon as seen between calls: the state in memory and the state on disk.
  datatype Node = Node(memory: State, file: Option<State>)

  // An operation that ran to its end, saving or not, or one cut by a crash
  // before or after the rename, followed by reopening the store.
  datatype Event = Done(op: StoreOp, saved: bool) | Crashed(op: StoreOp, replaced: bool)

  predicate Saves(env: Env, s: State, op: StoreOp) {
    if op.SetVpnEnabled? then s.vpnEnabled != op.enabled else Planned(env, s, op).Some?
  }

  function NodeStep(env: Env, n: Node, e: Event): Node {
    if !Saves(env, n.memory, e.op) then
      if e.Done? then n else Node(Load(n.file), n.file)
    else
      var next := Planned(env, n.memory, e.op).value;
      match e
      case Done(op, saved) =>
        if saved then Node(next, Some(next))
        else Node(if op.SetVpnEnabled? then n.memory else next, n.file)
      case Crashed(_, replaced) =>
        if replaced then Node(next, Some(next)) else Node(Load(n.file), n.file)
  }

  // One call of a method did `op`, with its save failing at `fault`.
  predicate Did(env: Env, op: StoreOp, fault: SaveStep, before: Node, after: Node, ok: bool) {
    && after == NodeStep(env, before, Done(op, fault == Nowhere))
    && ok == ((op.SetVpnEnabled? && before.memory.vpnEnabled == op.enabled)
              || (Saves(env, before.memory, op) && fault == Nowhere))
  }

  // Every disk content passed on the way holds the old file or the complete new one.
  ghost predicate Atomic(env: Env, op: StoreOp, before: Node, trail: seq<Disk>, longer: seq<Disk>) {
    && trail <= longer
    && forall k :: |trail| <= k < |longer| ==>
         Readable(longer[k])
         && (FileOf(longer[k]) == before.file
             || (Saves(env, before.memory, op) && FileOf(longer[k]) == Planned(env, before.memory, op)))
  }

  // A planned state in memory, once SaveLocked has run, is what Did asks for.
  lemma SavedAsPlanned(
      env: Env, op: StoreOp, fault: SaveStep, before: Node, disk: Disk, trail: seq<Disk>,
      next: State, newDisk: Disk, longer: seq<Disk>)
    requires !op.SetVpnEnabled? && Planned(env, before.memory, op) == Some(next)
    requires Readable(disk) && before.file == FileOf(disk)
    requires newDisk.file == if fault == Nowhere then Some(Whole(next)) else disk.file
    requires trail <= longer
    requires forall k :: |trail| <= k < |longer| ==> longer[k].file == disk.file || longer[k].file == Some(Whole(next))
    ensures Did(env, op, fault, before, Node(next, FileOf(newDisk)), fault == Nowhere)
    ensures Atomic(env, op, before, trail, longer) && Readable(newDisk)
  {}

  class Store {
    const env: Env
    var data: State
    var disk: Disk
    // Every disk content a crash could have left behind so far.
    ghost var trail: seq<Disk>

    function View(): Node
      reads this
    {
      Node(data, FileOf(disk))
    }

    // Open: a file that is whole, or none.
    constructor (env: Env, disk: Disk)
      requires Readable(disk)
      ensures this.env == env && this.disk == disk && trail == [disk]
      ensures View() == Node(Load(FileOf(disk)), FileOf(disk))
    {
      this.env := env;
      this.disk := disk;
      this.data := if disk.file.Some? && disk.file.value.Whole? then disk.file.value.state else INITIAL;
      this.trail := [disk];
    }

    method SetDisk(next: Disk)
      modifies `disk, `trail
      ensures disk == next && trail == old(trail) + [next]
    {
      disk := next;
      trail := trail + [next];
    }

    method SaveLocked(fault: SaveStep) returns (ok: bool)
      requires Readable(disk)
      modifies `disk, `trail
      ensures Readable(disk) && ok == (fault == Nowhere)
      ensures disk.temp == None || fault == MakeDirectory || fault == Encode || fault == CreateTemp
      ensures disk.file == if ok then Some(Whole(data)) else old(disk.file)
      ensures old(trail) <= trail
      ensures forall k :: |old(trail)| <= k < |trail| ==>
        trail[k].file == old(disk.file) || trail[k].file == Some(Whole(data))
    {
      if fault == MakeDirectory || fault == Encode || fault == CreateTemp {
        return false;
      }
      SetDisk(disk.(temp := Some(Torn)));
      if fault == Protect {
        SetDisk(disk.(temp := None));
        return false;
      }
      if fault == Write {
        SetDisk(disk.(temp := None));
        return false;
      }
      SetDisk(disk.(temp := Some(Whole(data))));
      if fault == Sync || fault == Close || fault == Replace {
        SetDisk(disk.(temp := None));
        return false;
      }
      SetDisk(Disk(disk.temp, None));
      return true;
    }

    method SetVPNEnabled(enabled: bool, fault: SaveStep) returns (ok: bool)
      requires Readable(disk)
      modifies this
      ensures Readable(disk) && Did(env, SetVpnEnabled(enabled), fault, old(View()), View(), ok)
      ensures Atomic(env, SetVpnEnabled(enabled), old(View()), old(trail), trail)
      ensures ok == (old(data).vpnEnabled == enabled || fault == Nowhere)
      ensures data == if ok then old(data).(vpnEnabled := enabled) else old(data)
    {
      if data.vpnEnabled == enabled {
        return true;
      }
      var previous := data.vpnEnabled;
      data := data.(vpnEnabled := enabled);
      ok := SaveLocked(fault);
      if !ok {
        data := data.(vpnEnabled := previous);
      }
    }

    // newID and time.Now are the parameters id and now.
    method CreateProfile(id: string, name: string, url: string, now: string, fault: SaveStep) returns (ok: bool)
      requires Readable(disk)
      modifies this
      ensures Readable(disk) && Did(env, StoreOp.CreateProfile(id, name, url, now), fault, old(View()), View(), ok)
      ensures Atomic(env, StoreOp.CreateProfile(id, name, url, now), old(View()), old(trail), trail)
      ensures Outcome(env, old(data), StoreOp.CreateProfile(id, name, url, now), data, ok)
    {
      PlannedMeans(env, data, StoreOp.CreateProfile(id, name, url, now));
      var trimmedName, trimmedUrl := TrimSpace(name), TrimSpace(url);
      if trimmedName == "" || trimmedUrl == "" {
        return false;
      }
      data := data.(profiles := data.profiles + [Profile(id, trimmedName, trimmedUrl, now, "", "", [])]);
      ok := SaveLocked(fault);
      SavedAsPlanned(env, StoreOp.CreateProfile(id, name, url, now), fault, old(View()), old(disk), old(trail), data,
          disk, trail);
    }

    method DeleteProfile(id: string, fault: SaveStep) returns (ok: bool)
      requires Readable(disk)
      modifies this
      ensures Readable(disk) && Did(env, StoreOp.DeleteProfile(id), fault, old(View()), View(), ok)
      ensures Atomic(env, StoreOp.DeleteProfile(id), old(View()), old(trail), trail)
      ensures Outcome(env, old(data), StoreOp.DeleteProfile(id), data, ok)
    {
      PlannedMeans(env, data, StoreOp.DeleteProfile(id));
      var index := ProfileIndex(data.profiles, id);
      if index < 0 {
        return false;
      }
      var servers, active := data.profiles[index].servers, data.activeServer;
      for i := 0 to |servers|
        invariant data == old(data) && disk == old(disk) && trail == old(trail)
        invariant forall j :: 0 <= j < i ==> servers[j].id != active
      {
        if servers[i].id == data.activeServer {
          data := data.(activeServer := "");
          break;
        }
      }
      data := data.(profiles := Delete(data.profiles, index));
      ok := SaveLocked(fault);
      SavedAsPlanned(env, StoreOp.DeleteProfile(id), fault, old(View()), old(disk), old(trail), data, disk, trail);
    }

    // The loop of ReplaceServers.
    method UniqueServers(profileId: string, candidates: seq<Candidate>) returns (servers: seq<Server>)
      ensures servers == Refreshed(env, profileId, candidates, |candidates|)
    {
      servers := [];
      var seen: set<string> := {};
      for i := 0 to |candidates|
        invariant servers == Refreshed(env, profileId, candidates, i)
        invariant forall j :: 0 <= j < i && Identity(env, candidates[j]) != "" ==> Identity(env, candidates[j]) in seen
        invariant forall x :: x in seen ==> exists j :: 0 <= j < i && Identity(env, candidates[j]) == x
      {
        var candidate := candidates[i];
        var identity := candidate.source;
        if identity == "" && candidate.outbound.Some? {
          identity := env.encode(candidate.outbound.value);
        }
        if identity == "" || identity in seen {
          continue;
        }
        seen := seen + {identity};
        servers := servers + [ServerFor(env, profileId, candidate)];
      }
    }

    // The changes of ReplaceServers in memory.
    method PutServers(index: nat, servers: seq<Server>, now: string)
      requires index < |data.profiles|
      modifies `data
      ensures data == old(data).(
        profiles := old(data).profiles[index :=
                      old(data).profiles[index].(servers := servers, updatedAt := now, lastError := "")],
        activeServer := if ServerIndex(servers, old(data).activeServer) < 0 then "" else old(data).activeServer)
    {
      if data.activeServer != "" {
        if ServerIndex(servers, data.activeServer) < 0 {
          data := data.(activeServer := "");
        }
      }
      var refreshed := data.profiles[index].(servers := servers, updatedAt := now, lastError := "");
      data := data.(profiles := data.profiles[index := refreshed]);
    }

    method ReplaceServers(profileId: string, candidates: seq<Candidate>, now: string, fault: SaveStep)
      returns (ok: bool)
      requires Readable(disk)
      modifies this
      ensures Readable(disk)
          && Did(env, StoreOp.ReplaceServers(profileId, candidates, now), fault, old(View()), View(), ok)
      ensures Atomic(env, StoreOp.ReplaceServers(profileId, candidates, now), old(View()), old(trail), trail)
      ensures Outcome(env, old(data), StoreOp.ReplaceServers(profileId, candidates, now), data, ok)
    {
      PlannedMeans(env, data, StoreOp.ReplaceServers(profileId, candidates, now));
      if |candidates| == 0 {
        return false;
      }
      var index := ProfileIndex(data.profiles, profileId);
      if index < 0 {
        return false;
      }
      var servers := UniqueServers(profileId, candidates);
      if |servers| == 0 {
        return false;
      }
      PutServers(index, servers, now);
      ok := SaveLocked(fault);
      SavedAsPlanned(env, StoreOp.ReplaceServers(profileId, candidates, now), fault, old(View()), old(disk),
          old(trail), data, disk, trail);
    }

    method RecordProfileError(profileId: string, message: string, fault: SaveStep) returns (ok: bool)
      requires Readable(disk)
      modifies this
      ensures Readable(disk) && Did(env, StoreOp.RecordProfileError(profileId, message), fault, old(View()), View(), ok)
      ensures Atomic(env, StoreOp.RecordProfileError(profileId, message), old(View()), old(trail), trail)
      ensures Outcome(env, old(data), StoreOp.RecordProfileError(profileId, message), data, ok)
    {
      PlannedMeans(env, data, StoreOp.RecordProfileError(profileId, message));
      var index := ProfileIndex(data.profiles, profileId);
      if index < 0 {
        return false;
      }
      data := data.(profiles := data.profiles[index := data.profiles[index].(lastError := message)]);
      ok := SaveLocked(fault);
      SavedAsPlanned(env, StoreOp.RecordProfileError(profileId, message), fault, old(View()), old(disk), old(trail),
          data, disk, trail);
    }

    // The nested search of SelectServer.
    method Finds(id: string) returns (found: bool)
      ensures found <==> FindServer(data.profiles, id).Some?
    {
      found := false;
      for i := 0 to |data.profiles|
        invariant !found
        invariant forall p, v :: p in data.profiles[..i] && v in p.servers ==> v.id != id
      {
        var servers := data.profiles[i].servers;
        for j := 0 to |servers|
          invariant !found
          invariant forall v :: v in servers[..j] ==> v.id != id
        {
          if servers[j].id != id {
            continue;
          }
          found := true;
          assert data.profiles[i] in data.profiles && servers[j] in servers;
          break;
        }
        if found {
          break;
        }
      }
    }

    method SelectServer(id: string, fault: SaveStep) returns (ok: bool)
      requires Readable(disk)
      modifies this
      ensures Readable(disk) && Did(env, StoreOp.SelectServer(id), fault, old(View()), View(), ok)
      ensures Atomic(env, StoreOp.SelectServer(id), old(View()), old(trail), trail)
      ensures Outcome(env, old(data), StoreOp.SelectServer(id), data, ok)
    {
      PlannedMeans(env, data, StoreOp.SelectServer(id));
      var found := Finds(id);
      if !found {
        return false;
      }
      data := data.(activeServer := id);
      ok := SaveLocked(fault);
      SavedAsPlanned(env, StoreOp.SelectServer(id), fault, old(View()), old(disk), old(trail), data, disk, trail);
    }

    method CreateRoute(id: string, name: string, defaultOutbound: string, now: string, fault: SaveStep)
      returns (ok: bool)
      requires Readable(disk)
      modifies this
      ensures Readable(disk)
          && Did(env, StoreOp.CreateRoute(id, name, defaultOutbound, now), fault, old(View()), View(), ok)
      ensures Atomic(env, StoreOp.CreateRoute(id, name, defaultOutbound, now), old(View()), old(trail), trail)
      ensures Outcome(env, old(data), StoreOp.CreateRoute(id, name, defaultOutbound, now), data, ok)
    {
      PlannedMeans(env, data, StoreOp.CreateRoute(id, name, defaultOutbound, now));
      var trimmed := TrimSpace(name);
      if trimmed == "" || !ValidOutbound(defaultOutbound) {
        return false;
      }
      data := data.(routes := data.routes + [RouteProfile(id, trimmed, defaultOutbound, [], now)]);
      if data.activeRoute == "" {
        data := data.(activeRoute := id);
      }
      ok := SaveLocked(fault);
      SavedAsPlanned(env, StoreOp.CreateRoute(id, name, defaultOutbound, now), fault, old(View()), old(disk),
          old(trail), data, disk, trail);
    }

    method DeleteRoute(id: string, fault: SaveStep) returns (ok: bool)
      requires Readable(disk)
      modifies this
      ensures Readable(disk) && Did(env, StoreOp.DeleteRoute(id), fault, old(View()), View(), ok)
      ensures Atomic(env, StoreOp.DeleteRoute(id), old(View()), old(trail), trail)
      ensures Outcome(env, old(data), StoreOp.DeleteRoute(id), data, ok)
    {
      PlannedMeans(env, data, StoreOp.DeleteRoute(id));
      var index := RouteIndex(data.routes, id);
      if index < 0 {
        return false;
      }
      var left := Delete(data.routes, index);
      data := data.(routes := left);
      if data.activeRoute == id {
        data := data.(activeRoute := "");
        if |left| > 0 {
          data := data.(activeRoute := left[0].id);
        }
      }
      assert data == WithoutRoute(old(data), index);
      ok := SaveLocked(fault);
      SavedAsPlanned(env, StoreOp.DeleteRoute(id), fault, old(View()), old(disk), old(trail), data, disk, trail);
    }

    method ActivateRoute(id: string, fault: SaveStep) returns (ok: bool)
      requires Readable(disk)
      modifies this
      ensures Readable(disk) && Did(env, StoreOp.ActivateRoute(id), fault, old(View()), View(), ok)
      ensures Atomic(env, StoreOp.ActivateRoute(id), old(View()), old(trail), trail)
      ensures Outcome(env, old(data), StoreOp.ActivateRoute(id), data, ok)
    {
      PlannedMeans(env, data, StoreOp.ActivateRoute(id));
      if RouteIndex(data.routes, id) < 0 {
        return false;
      }
      data := data.(activeRoute := id);
      ok := SaveLocked(fault);
      SavedAsPlanned(env, StoreOp.ActivateRoute(id), fault, old(View()), old(disk), old(trail), data, disk, trail);
    }

    method SetAppRule(routeId: string, submitted: AppRule, fault: SaveStep) returns (ok: bool)
      requires Readable(disk)
      modifies this
      ensures Readable(disk) && Did(env, StoreOp.SetAppRule(routeId, submitted), fault, old(View()), View(), ok)
      ensures Atomic(env, StoreOp.SetAppRule(routeId, submitted), old(View()), old(trail), trail)
      ensures Outcome(env, old(data), StoreOp.SetAppRule(routeId, submitted), data, ok)
    {
      PlannedMeans(env, data, StoreOp.SetAppRule(routeId, submitted));
      var rule := submitted.(processPath := env.clean(TrimSpace(submitted.processPath)));
      if !IsAbs(rule.processPath) || !ValidOutbound(rule.outbound) {
        return false;
      }
      var routeIndex := RouteIndex(data.routes, routeId);
      if routeIndex < 0 {
        return false;
      }
      var apps := data.routes[routeIndex].apps;
      var appIndex := ClashIndex(apps, rule);
      if appIndex < 0 {
        apps := apps + [rule];
      } else {
        apps := apps[appIndex := rule];
      }
      data := data.(routes := data.routes[routeIndex := data.routes[routeIndex].(apps := apps)]);
      ok := SaveLocked(fault);
      SavedAsPlanned(env, StoreOp.SetAppRule(routeId, submitted), fault, old(View()), old(disk), old(trail), data,
          disk, trail);
    }

    method RemoveAppRule(routeId: string, path: string, fault: SaveStep) returns (ok: bool)
      requires Readable(disk)
      modifies this
      ensures Readable(disk) && Did(env, StoreOp.RemoveAppRule(routeId, path), fault, old(View()), View(), ok)
      ensures Atomic(env, StoreOp.RemoveAppRule(routeId, path), old(View()), old(trail), trail)
      ensures Outcome(env, old(data), StoreOp.RemoveAppRule(routeId, path), data, ok)
    {
      PlannedMeans(env, data, StoreOp.RemoveAppRule(routeId, path));
      var routeIndex := RouteIndex(data.routes, routeId);
      if routeIndex < 0 {
        return false;
      }
      var apps := data.routes[routeIndex].apps;
      var appIndex := PathIndex(apps, path);
      if appIndex < 0 {
        return false;
      }
      data := data.(routes := data.routes[routeIndex := data.routes[routeIndex].(apps := Delete(apps, appIndex))]);
      ok := SaveLocked(fault);
      SavedAsPlanned(env, StoreOp.RemoveAppRule(routeId, path), fault, old(View()), old(disk), old(trail), data, disk,
          trail);
    }
  }
}
