// The daemon, the compiler and the validator together: what runs in the engine
// is what the other side of the process boundary accepts.
module EndToEnd {
  import opened Wrappers
  import opened Environment
  import opened State
  import opened Config
  import opened Json
  import Text
  import Validate
  import StoreRuns
  import Acceptance
  import EngineRuns
  import Documents
  import opened Daemon

  // Servers come from subscriptions, route ids are never empty, and fresh
  // options have an allowed port and two users.
  ghost predicate Proper(env: Env, e: DaemonEvent) {
    && (e.Mutate? ==> StoreRuns.Fed(env, e.op))
    && (e.Choose? ==> Acceptance.SoundNetcheck(e.renewed))
  }

  ghost predicate SoundState(env: Env, s: State) {
    StoreRuns.Referential(s) && StoreRuns.GenuineServers(env, s.profiles)
  }

  lemma MutationKeepsSound(env: Env, s: State, op: StoreOp)
    requires SoundState(env, s) && Planned(env, s, op).Some? && StoreRuns.Fed(env, op)
    ensures SoundState(env, Planned(env, s, op).value)
  {
    StoreRuns.PlannedKeepsReferential(env, s, op);
    StoreRuns.PlannedKeepsGenuine(env, s, op);
  }

  // The intent is no part of it.
  lemma IntentKeepsSound(env: Env, s: State, t: State)
    requires SoundState(env, s) && t == s.(vpnEnabled := t.vpnEnabled)
    ensures SoundState(env, t)
  {}

  lemma AdvanceKeepsProper(env: Env, w: World, e: DaemonEvent, compiled: Option<EngineRuns.ConfigText>, buildable: bool)
    requires SoundState(env, w.store) && Acceptance.SoundNetcheck(w.options) && MayAdvance(w, e) && Proper(env, e)
    ensures var next := Advance(w, e, compiled, buildable);
      SoundState(env, next.store) && Acceptance.SoundNetcheck(next.options)
  {
    AdvanceKeepsStore(w, e, compiled, buildable);
    IntentKeepsSound(env, w.store, Advance(w, e, compiled, buildable).store);
  }

  lemma MoveKeepsSound(env: Env, w: World, e: DaemonEvent)
    requires SoundState(env, w.store) && Acceptance.SoundNetcheck(w.options) && Can(env, w, e) && Proper(env, e)
    ensures SoundState(env, Move(env, w, e).store) && Acceptance.SoundNetcheck(Move(env, w, e).options)
  {
    if e.Mutate? || e.AddProfile? {
      MutationKeepsSound(env, w.store, e.op);
    } else if !e.CheckServer? {
      AdvanceKeepsProper(env, w, e, Compiled(env, w.store, w.options), Daemon.Buildable(w.store));
    }
  }

  lemma {:induction false} RunKeepsSound(env: Env, w: World, events: seq<DaemonEvent>)
    requires SoundState(env, w.store) && Acceptance.SoundNetcheck(w.options) && Possible(env, w, events)
    requires forall e :: e in events ==> Proper(env, e)
    ensures SoundState(env, RunFrom(env, w, events).store) && Acceptance.SoundNetcheck(RunFrom(env, w, events).options)
    decreases |events|
  {
    if events != [] {
      assert events[0] in events;
      MoveKeepsSound(env, w, events[0]);
      RunKeepsSound(env, Move(env, w, events[0]), events[1..]);
    }
  }

  // In every interleaving, an active engine runs a configuration that the
  // validator accepts, provided it fits the size limit.
  lemma ActiveEngineRunsAcceptedConfig(env: Env, found: bool, s: State, o: NetcheckOptions, events: seq<DaemonEvent>)
    requires env.JsonRoundTrips() && SoundState(env, s) && Acceptance.SoundNetcheck(o)
    requires Possible(env, Fresh(found, s, o), events) && forall e :: e in events ==> Proper(env, e)
    ensures var w := RunFrom(env, Fresh(found, s, o), events);
      Up(w) ==> Running(w.machine).Some?
                && (|Running(w.machine).value| <= Validate.MAX_SIZE
                    <==> Validate.Accepted(env, Running(w.machine).value))
  {
    var w := RunFrom(env, Fresh(found, s, o), events);
    RunKeepsSound(env, Fresh(found, s, o), events);
    ActiveEngineAgreesWithStore(env, found, s, o, events);
    if Up(w) { Acceptance.BuiltIsAccepted(env, w.store, w.options); }
  }

  // What the text of a built document decodes to, read key by key.
  lemma BuiltTextReads(env: Env, s: State, n: NetcheckOptions)
    requires env.JsonRoundTrips() && Build(s, n).Some?
    ensures var decoded := env.decode(env.encode(Object(Build(s, n).value)));
      && decoded == Some(Object(Build(s, n).value))
      && Documents.ServesNetcheck(decoded.value.fields, n)
      && Documents.ServesSelected(decoded.value.fields, s)
  {
    Documents.InboundsAre(s, n);
    Documents.BuiltServesSelected(s, n);
  }

  // In every interleaving, the text an active engine runs decodes to a document
  // whose netcheck inbound authenticates exactly the two users of the current
  // options, and whose proxy is the outbound of the server selected now.
  lemma ActiveEngineServesOptionsAndSelection(
    env: Env, found: bool, s: State, o: NetcheckOptions, events: seq<DaemonEvent>)
    requires env.JsonRoundTrips() && Possible(env, Fresh(found, s, o), events)
    ensures var w := RunFrom(env, Fresh(found, s, o), events);
      Up(w) ==> Running(w.machine).Some? && env.decode(Running(w.machine).value).Some?
                && env.decode(Running(w.machine).value).value.Object?
                && Documents.ServesNetcheck(env.decode(Running(w.machine).value).value.fields, w.options)
                && Documents.ServesSelected(env.decode(Running(w.machine).value).value.fields, w.store)
  {
    var w := RunFrom(env, Fresh(found, s, o), events);
    ActiveEngineAgreesWithStore(env, found, s, o, events);
    if Up(w) { BuiltTextReads(env, w.store, w.options); }
  }

  // ---------- a selected server can always be compiled ----------

  // What servers.select has validated still holds when it comes to select it.
  predicate SelectionHolds(w: World) { w.pc.Selecting? ==> Validated(w.store, w.pc.serverId) }

  ghost predicate Selectable(env: Env, w: World) { StoreRuns.Buildable(env, w.store) && SelectionHolds(w) }

  // profiles.create, which may come in between, hides no server.
  lemma CreatingKeepsValidated(env: Env, s: State, op: StoreOp, id: string)
    requires op.CreateProfile? && Planned(env, s, op).Some?
    ensures Validated(Planned(env, s, op).value, id) == Validated(s, id)
  {
    var p := Profile(op.profileId, Text.TrimSpace(op.name), Text.TrimSpace(op.url), op.now, "", "", []);
    AppendingAnEmptyProfile(s.profiles, p, id);
  }

  // What the store is asked to do is guarded, whatever came in between.
  lemma StoreStepKeepsBuildable(env: Env, s: State, op: StoreOp)
    requires env.JsonRoundTrips() && env.IdsCollisionFree()
    requires StoreRuns.Buildable(env, s) && Planned(env, s, op).Some? && StoreRuns.Fed(env, op)
    requires op.SelectServer? ==> Validated(s, op.serverId)
    ensures StoreRuns.Buildable(env, Planned(env, s, op).value)
  {
    StoreRuns.PlannedKeepsBuildable(env, s, op);
  }

  lemma IntentKeepsBuildable(env: Env, s: State, t: State)
    requires StoreRuns.Buildable(env, s) && t == s.(vpnEnabled := t.vpnEnabled)
    ensures StoreRuns.Buildable(env, t)
  {}

  lemma AdvanceKeepsSelectable(env: Env, w: World, e: DaemonEvent, compiled: Option<EngineRuns.ConfigText>,
      buildable: bool)
    requires Selectable(env, w) && MayAdvance(w, e)
    ensures Selectable(env, Advance(w, e, compiled, buildable))
  {
    var next := Advance(w, e, compiled, buildable);
    AdvanceKeepsStore(w, e, compiled, buildable);
    AdvanceSelectsNothing(w, e, compiled, buildable);
    IntentKeepsBuildable(env, w.store, next.store);
  }

  lemma AdvanceSelectsNothing(w: World, e: DaemonEvent, compiled: Option<EngineRuns.ConfigText>, buildable: bool)
    requires MayAdvance(w, e)
    ensures var next := Advance(w, e, compiled, buildable);
      next.pc.Selecting? ==> next.pc == w.pc && next.store == w.store
  {}

  lemma MoveKeepsSelectable(env: Env, w: World, e: DaemonEvent)
    requires env.JsonRoundTrips() && env.IdsCollisionFree()
    requires Selectable(env, w) && Can(env, w, e) && Proper(env, e)
    ensures Selectable(env, Move(env, w, e))
  {
    if e.AddProfile? {
      StoreStepKeepsBuildable(env, w.store, e.op);
      if w.pc.Selecting? { CreatingKeepsValidated(env, w.store, e.op, w.pc.serverId); }
    } else if e.Mutate? {
      StoreStepKeepsBuildable(env, w.store, e.op);
    } else if !e.CheckServer? {
      AdvanceKeepsSelectable(env, w, e, Compiled(env, w.store, w.options), Daemon.Buildable(w.store));
    }
  }

  lemma {:induction false} RunKeepsSelectable(env: Env, w: World, events: seq<DaemonEvent>)
    requires env.JsonRoundTrips() && env.IdsCollisionFree()
    requires Selectable(env, w) && Possible(env, w, events) && forall e :: e in events ==> Proper(env, e)
    ensures Selectable(env, RunFrom(env, w, events))
    decreases |events|
  {
    if events != [] {
      assert events[0] in events;
      MoveKeepsSelectable(env, w, events[0]);
      RunKeepsSelectable(env, Move(env, w, events[0]), events[1..]);
    }
  }

  lemma SelectedIsCompiled(env: Env, s: State, o: NetcheckOptions)
    requires StoreRuns.Buildable(env, s)
    ensures s.activeServer != "" <==> Compiled(env, s, o).Some?
  {}

  // In every interleaving, with profiles.create between the validation and the
  // selection of a server, and from any state in which it holds, such as the empty
  // one: a server is selected exactly when store and options compile.
  lemma SelectedServerAlwaysCompiles(env: Env, found: bool, s: State, o: NetcheckOptions, events: seq<DaemonEvent>)
    requires env.JsonRoundTrips() && env.IdsCollisionFree() && StoreRuns.Buildable(env, s)
    requires Possible(env, Fresh(found, s, o), events) && forall e :: e in events ==> Proper(env, e)
    ensures var w := RunFrom(env, Fresh(found, s, o), events);
      w.store.activeServer != "" <==> Compiled(env, w.store, w.options).Some?
    ensures StoreRuns.Buildable(env, INITIAL)
  {
    RunKeepsSelectable(env, Fresh(found, s, o), events);
    var w := RunFrom(env, Fresh(found, s, o), events);
    SelectedIsCompiled(env, w.store, w.options);
  }
}
