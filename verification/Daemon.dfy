// internal/daemon/server.go: requests, the store and the engine under every
// interleaving. Requests that touch the configuration or the tunnel hold vpnMu
// over several sections; profiles.create, status reads, child exits and timers
// come in between.
module Daemon {
  import opened Wrappers
  import opened Json
  import opened Text
  import opened Environment
  import opened State
  import opened Config
  import Engine
  import opened EngineRuns

  datatype Request =
    | SetEnabled(goal: bool)   // vpn.connect, vpn.disconnect, vpn.setEnabled
    | Restore                  // restoreDesiredState
    | Change                   // every mutation of the configuration
    | Shutdown                 // the deferred stop of ListenAndServe

  // Where the holder of vpnMu stands; Free when nobody holds it.
  datatype Pc =
    | Free
    | Entered(request: Request)
    | Changing                                          // requireStopped has passed
    | Selecting(serverId: string)                       // ValidateServer has passed
    | Checked(goal: bool)                               // Build has passed, or was not asked
    | Reconciling(goal: bool, restoring: bool)          // reconcileVPN, before Status
    | Choosing(restoring: bool)                         // inactive: choose the options
    | Building(restoring: bool)                         // options chosen: build
    | Calling(restoring: bool, config: ConfigText)          // built: call engine.Start
    | InStart(restoring: bool, config: ConfigText)
    | Ending(shutdown: bool)                            // call engine.Stop
    | InStop(shutdown: bool)

  datatype Verdict = Done | VpnActive | Refused | Incomplete | StateFailed | NotStarted | NotStopped | EngineStopping

  // The last answer: what it was, for which goal, and what it rests on: the state
  // and the tracked configuration that the engine's own section found or left.
  datatype Answer =
    | NoAnswer
    | ChangeAnswer(verdict: Verdict)
    | VpnAnswer(goal: bool, verdict: Verdict, seen: Engine.Phase, ran: Option<ConfigText>)

  datatype World = World(machine: Machine, store: State, options: NetcheckOptions, pc: Pc, answer: Answer)

  datatype DaemonEvent =
    | EngineMoves(event: Event)                   // anything but the daemon's own calls
    | AddProfile(op: StoreOp)                     // profiles.create takes no lock
    | Acquire(request: Request)
    | RequireStopped(found: bool)
    | CheckServer(id: string)                     // servers.select: Server and ValidateServer
    | Mutate(op: StoreOp) | Abandon               // the change, or its refusal for bad parameters
    | CheckBuild | Persist(saved: bool)
    | ReadIntent                                  // restoreDesiredState's snapshot
    | Observe(found: bool)
    | Choose(portFree: bool, renewed: NetcheckOptions)
    | BuildConfig | CallEngineStart | ReturnFromStart | CallEngineStop | ReturnFromStop
    | CheckActive(found: bool)                    // the deferred stop's look at the engine

  // The configuration text of a store and options.
  function Compiled(env: Env, s: State, o: NetcheckOptions): Option<ConfigText> {
    var document := Build(s, o);
    if document.None? then None else Some(env.encode(Object(document.value)))
  }

  function Phase(w: World): Engine.Phase { EngineRuns.State(w.machine) }
  predicate Active(m: Machine) { Engine.IsActive(EngineRuns.State(m)) }
  predicate Up(w: World) { Active(w.machine) }

  // What the lock holder may do next, whatever the configuration.
  predicate MayAdvance(w: World, e: DaemonEvent) {
    match e
    case EngineMoves(event) => Own(w.machine, event)
    case AddProfile(_) => false
    case Acquire(_) => w.pc.Free?
    case RequireStopped(_) => w.pc == Entered(Change)
    case CheckServer(_) => false
    case Mutate(_) => false
    case Abandon => w.pc.Changing?
    case CheckBuild => w.pc.Entered? && w.pc.request.SetEnabled?
    case Persist(_) => w.pc.Checked?
    case ReadIntent => w.pc == Entered(Restore)
    case Observe(_) => w.pc.Reconciling?
    case Choose(_, _) => w.pc.Choosing?
    case BuildConfig => w.pc.Building?
    case CallEngineStart => w.pc.Calling? && w.machine.op.Idle?
    case ReturnFromStart => w.pc.InStart? && w.machine.op.Idle?
    case CallEngineStop => w.pc.Ending? && w.machine.op.Idle?
    case ReturnFromStop => w.pc.InStop? && w.machine.op.Idle?
    case CheckActive(_) => w.pc == Entered(Shutdown)
  }

  // The engine's own steps: everything but the daemon's calls.
  predicate Own(m: Machine, e: Event) { Enabled(m, e) && !e.CallStart? && !e.CallStop? }

  // An answer from the status just read.
  function Reply(w: World, goal: bool, verdict: Verdict): World {
    w.(pc := Free, answer := VpnAnswer(goal, verdict, Phase(w), Tracked(w.machine)))
  }

  // An answer from the engine call that has returned.
  function Report(w: World, goal: bool, verdict: Verdict): World {
    w.(pc := Free, answer := VpnAnswer(goal, verdict, w.machine.seen, w.machine.ran))
  }

  function Look(w: World, found: bool): World { w.(machine := Step(w.machine, ReadStatus(found))) }

  // reconcileVPN on the status just read.
  function Reconciled(w: World): World
    requires w.pc.Reconciling?
  {
    var phase := Phase(w);
    if w.pc.goal then
      if phase == Engine.Connected || phase == Engine.Starting then Reply(w, true, Done)
      else if phase == Engine.Stopping then Reply(w, true, EngineStopping)
      else w.(pc := Choosing(w.pc.restoring))
    else if phase == Engine.Unavailable || phase == Engine.Stopped || phase == Engine.Stopping
        then Reply(w, false, Done)
    else w.(pc := Ending(false))
  }

  // One event, given what store and options compile to and whether the store
  // builds at all.
  function Advance(w: World, e: DaemonEvent, compiled: Option<ConfigText>, buildable: bool): World
    requires MayAdvance(w, e)
  {
    match e
    case EngineMoves(event) => w.(machine := Step(w.machine, event))
    case Acquire(request) => w.(pc := Entered(request), answer := NoAnswer)
    case RequireStopped(found) =>
      var seen := Look(w, found);
      if Up(seen) then seen.(pc := Free, answer := ChangeAnswer(VpnActive)) else seen.(pc := Changing)
    case Abandon => w.(pc := Free, answer := ChangeAnswer(Refused))
    case CheckBuild =>
      var goal := w.pc.request.goal;
      if goal && !buildable then Reply(w, goal, Incomplete) else w.(pc := Checked(goal))
    case Persist(saved) =>
      var goal := w.pc.goal;
      if w.store.vpnEnabled != goal && !saved then Reply(w, goal, StateFailed)
      else w.(store := w.store.(vpnEnabled := goal), pc := Reconciling(goal, false))
    case ReadIntent => w.(pc := Reconciling(w.store.vpnEnabled, true))
    case Observe(found) => Reconciled(Look(w, found))
    case Choose(portFree, renewed) =>
      w.(options := if portFree then w.options else renewed, pc := Building(w.pc.restoring))
    case BuildConfig =>
      if compiled.None? then Reply(w, true, Incomplete) else w.(pc := Calling(w.pc.restoring, compiled.value))
    case CallEngineStart =>
      w.(machine := Step(w.machine, CallStart(w.pc.config)), pc := InStart(w.pc.restoring, w.pc.config))
    case ReturnFromStart =>
      var started := w.machine.last == Engine.Started || w.machine.last == Engine.StartRefused(Engine.AlreadyRunning);
      Report(w, true, if started then Done else NotStarted)
    case CallEngineStop => w.(machine := Step(w.machine, CallStop), pc := InStop(w.pc.shutdown))
    case ReturnFromStop =>
      if w.pc.shutdown then w.(pc := Free)
      else Report(w, false, if w.machine.last == Engine.StopFailed then NotStopped else Done)
    case CheckActive(found) => Look(w, found).(pc := if Up(Look(w, found)) then Ending(true) else Free)
  }

  // servers.select runs its operation only on the server it has validated.
  predicate MayMutate(pc: Pc, op: StoreOp) {
    if op.SelectServer? then pc == Selecting(op.serverId) else pc.Changing? && !op.SetVpnEnabled?
  }

  // What servers.select looks up and validates.
  predicate Validated(s: State, id: string) {
    FindServer(s.profiles, id).Some? && Ready(FindServer(s.profiles, id).value)
  }

  predicate Can(env: Env, w: World, e: DaemonEvent) {
    match e
    case AddProfile(op) => op.CreateProfile? && Planned(env, w.store, op).Some?
    case CheckServer(_) => w.pc.Changing?
    case Mutate(op) => MayMutate(w.pc, op) && Planned(env, w.store, op).Some?
    case _ => MayAdvance(w, e)
  }

  predicate Buildable(s: State) { Build(s, NO_NETCHECK).Some? }

  function Move(env: Env, w: World, e: DaemonEvent): World
    requires Can(env, w, e)
  {
    match e
    case AddProfile(op) => w.(store := Planned(env, w.store, op).value)
    case CheckServer(id) =>
      if Validated(w.store, id) then w.(pc := Selecting(id)) else w.(pc := Free, answer := ChangeAnswer(Refused))
    case Mutate(op) => w.(store := Planned(env, w.store, op).value, pc := Free, answer := ChangeAnswer(Done))
    case _ => Advance(w, e, Compiled(env, w.store, w.options), Buildable(w.store))
  }

  // ---------- the invariant ----------

  predicate InStartOp(op: Op) {
    op.StartCalled? || op.Preparing? || op.Checking? || op.Spawned? || op.Grace? || op.SawExit? || op.StartFailing?
  }
  predicate InStopOp(op: Op) {
    op.StopCalled? || op.Signalling? || op.Draining? || op.Killed? || op.StopFailing?
  }

  // The configuration the engine runs, or is about to run.
  function Running(m: Machine): Option<ConfigText> {
    if m.op.Preparing? || m.op.Checking? || m.op.Spawned? || m.op.StartFailing? then Some(m.op.config) else Tracked(m)
  }

  // The invariant, over what it reads of the world: the engine, the lock holder,
  // what store and options compile to, the stored intent, and whether the store
  // builds at all.
  predicate Core(m: Machine, pc: Pc, compiled: Option<ConfigText>, intent: bool, buildable: bool) {
    && EngineRuns.Inv(m)
    && (Active(m) ==> compiled.Some? && Running(m) == compiled)
    && (!m.op.Idle? ==> pc.InStart? || pc.InStop?)
    && (pc.Changing? || pc.Selecting? || pc.Choosing? || pc.Building? || pc.Calling? ==> !Active(m))
    && (pc.Calling? || pc.InStart? ==> compiled == Some(pc.config))
    && (pc.InStart? ==> StartAgrees(m, pc.config))
    && (pc.InStop? ==> StopAgrees(m))
    && IntentAgrees(pc, intent)
    && BuildAgrees(pc, buildable)
  }

  predicate StartAgrees(m: Machine, config: ConfigText) {
    && (InStartOp(m.op) || m.op.Idle?)
    && (InStartOp(m.op) ==> m.op.config == config && m.last == Engine.Nothing)
    && (m.op.StartCalled? ==> !Active(m))
    && (m.op.Idle? ==>
          m.last == Engine.Started || m.last == Engine.StartRefused(Engine.NotAvailable)
            || m.last == Engine.StartFailed)
    && (m.op.Idle? && m.last == Engine.Started ==> m.seen == Engine.Connected && m.ran == Some(config))
  }

  predicate StopAgrees(m: Machine) {
    && (InStopOp(m.op) || m.op.Idle?)
    && (InStopOp(m.op) ==> m.last == Engine.Nothing)
    && (m.op.Idle? ==>
          (m.last == Engine.StopDone || m.last == Engine.StopRefused || m.last == Engine.StopFailed)
          && !Active(m) && !Engine.IsActive(m.seen))
  }

  // Once persisted, the intent is the goal until the answer.
  predicate IntentAgrees(pc: Pc, intent: bool) {
    match pc
    case Reconciling(goal, _) => intent == goal
    case Choosing(_) => intent
    case Building(_) => intent
    case Calling(_, _) => intent
    case InStart(_, _) => intent
    case Ending(shutdown) => !shutdown ==> !intent
    case InStop(shutdown) => !shutdown ==> !intent
    case _ => true
  }

  // What setVPNEnabled checked stays buildable until it is built.
  predicate BuildAgrees(pc: Pc, buildable: bool) {
    match pc
    case Checked(goal) => goal ==> buildable
    case Reconciling(goal, restoring) => goal && !restoring ==> buildable
    case Choosing(restoring) => !restoring ==> buildable
    case Building(restoring) => !restoring ==> buildable
    case _ => true
  }

  predicate Sound(w: World, compiled: Option<ConfigText>, buildable: bool) {
    Core(w.machine, w.pc, compiled, w.store.vpnEnabled, buildable)
  }

  predicate Inv(env: Env, w: World) { Sound(w, Compiled(env, w.store, w.options), Buildable(w.store)) }

  // ---------- each step keeps it ----------

  // profiles.create changes no build, and neither does the stored intent.
  lemma CreatingAProfileKeepsBuild(env: Env, s: State, op: StoreOp, o: NetcheckOptions)
    requires op.CreateProfile? && Planned(env, s, op).Some?
    ensures Build(Planned(env, s, op).value, o) == Build(s, o)
    ensures Planned(env, s, op).value.vpnEnabled == s.vpnEnabled
  {
    var p := Profile(op.profileId, TrimSpace(op.name), TrimSpace(op.url), op.now, "", "", []);
    AppendingAnEmptyProfile(s.profiles, p, s.activeServer);
    BuildReads(Planned(env, s, op).value, s, o);
  }

  lemma IntentKeepsBuild(s: State, enabled: bool, o: NetcheckOptions)
    ensures Build(s.(vpnEnabled := enabled), o) == Build(s, o)
  {
    BuildReads(s.(vpnEnabled := enabled), s, o);
  }

  // With no operation in progress, the engine never becomes active.
  lemma IdleEngineStaysDown(m: Machine, e: Event)
    requires EngineRuns.Inv(m) && Own(m, e) && m.op.Idle?
    ensures var n := Step(m, e);
      n.op.Idle? && n.last == m.last && n.seen == m.seen && n.ran == m.ran && (Active(n) ==> Active(m))
  {}

  // It becomes active only by Start's first section, and then keeps what it runs.
  lemma RunningIsKept(m: Machine, e: Event)
    requires EngineRuns.Inv(m) && Own(m, e) && Active(Step(m, e))
    ensures Running(Step(m, e)) == if Active(m) then Running(m)
                                   else if m.op.StartCalled? then Some(m.op.config) else None
    ensures Active(m) || m.op.StartCalled?
  {
    StepKeepsInv(m, e);
  }

  lemma StartProceeds(m: Machine, e: Event, config: ConfigText)
    requires EngineRuns.Inv(m) && Own(m, e) && !m.op.Idle? && StartAgrees(m, config)
    ensures StartAgrees(Step(m, e), config)
  {}

  lemma StopProceeds(m: Machine, e: Event)
    requires EngineRuns.Inv(m) && Own(m, e) && !m.op.Idle? && StopAgrees(m)
    ensures StopAgrees(Step(m, e))
  {}

  // Another engine under the same lock holder.
  lemma EngineReplaced(m: Machine, n: Machine, pc: Pc, compiled: Option<ConfigText>, intent: bool, buildable: bool)
    requires Core(m, pc, compiled, intent, buildable) && EngineRuns.Inv(n)
    requires Active(n) ==> (Active(m) && Running(n) == Running(m)) || (pc.InStart? && Running(n) == Some(pc.config))
    requires m.op.Idle? ==> n.op.Idle? && (Active(n) ==> Active(m))
    requires pc.InStart? ==> StartAgrees(n, pc.config)
    requires pc.InStop? ==> StopAgrees(n)
    ensures Core(n, pc, compiled, intent, buildable)
  {}

  lemma EngineStepKeepsCore(
    m: Machine, e: Event, pc: Pc, compiled: Option<ConfigText>, intent: bool, buildable: bool)
    requires Core(m, pc, compiled, intent, buildable) && Own(m, e)
    ensures Core(Step(m, e), pc, compiled, intent, buildable)
  {
    StepKeepsInv(m, e);
    if Active(Step(m, e)) { RunningIsKept(m, e); }
    if m.op.Idle? {
      IdleEngineStaysDown(m, e);
    } else if pc.InStart? {
      StartProceeds(m, e, pc.config);
    } else {
      StopProceeds(m, e);
    }
    EngineReplaced(m, Step(m, e), pc, compiled, intent, buildable);
  }

  // Status, whoever asks, neither starts nor stops anything.
  lemma LookKeepsSound(w: World, found: bool, compiled: Option<ConfigText>, buildable: bool)
    requires Sound(w, compiled, buildable) && w.machine.op.Idle?
    ensures Sound(Look(w, found), compiled, buildable)
    ensures var n := Look(w, found).machine;
      n.op.Idle? && (Active(w.machine) <==> Active(n)) && (Active(n) ==> n == w.machine)
  {
    EngineStepKeepsCore(w.machine, ReadStatus(found), w.pc, compiled, w.store.vpnEnabled, buildable);
  }

  // The lock holder moves on, the engine idle.
  lemma HolderMoves(m: Machine, pc: Pc, to: Pc, compiled: Option<ConfigText>, intent: bool, buildable: bool)
    requires Core(m, pc, compiled, intent, buildable) && m.op.Idle?
    requires to.Changing? || to.Selecting? || to.Choosing? || to.Building? || to.Calling? ==> !Active(m)
    requires to.Calling? ==> compiled == Some(to.config)
    requires !to.InStart? && !to.InStop?
    requires IntentAgrees(to, intent) && BuildAgrees(to, buildable)
    ensures Core(m, to, compiled, intent, buildable)
  {}

  // Between its engine calls, the lock holder finds the engine at rest.
  lemma AtRestBetweenCalls(w: World, compiled: Option<ConfigText>, buildable: bool)
    requires Sound(w, compiled, buildable) && !w.pc.InStart? && !w.pc.InStop?
    ensures w.machine.op.Idle? && Phase(w) != Engine.Starting && Phase(w) != Engine.Stopping
    ensures Phase(w) == Engine.Connected ==> compiled.Some? && Tracked(w.machine) == compiled
  {}

  lemma LookingKeepsSound(w: World, e: DaemonEvent, compiled: Option<ConfigText>, buildable: bool)
    requires Sound(w, compiled, buildable) && MayAdvance(w, e)
    requires e.RequireStopped? || e.CheckActive? || e.Observe?
    ensures Sound(Advance(w, e, compiled, buildable), compiled, buildable)
  {
    LookKeepsSound(w, e.found, compiled, buildable);
    var seen := Look(w, e.found);
    HolderMoves(seen.machine, seen.pc, Advance(w, e, compiled, buildable).pc, compiled, w.store.vpnEnabled, buildable);
  }

  lemma DecidingKeepsSound(w: World, e: DaemonEvent, compiled: Option<ConfigText>, buildable: bool)
    requires Sound(w, compiled, buildable) && MayAdvance(w, e)
    requires e.Acquire? || e.Abandon? || e.CheckBuild? || e.Persist? || e.ReadIntent? || e.BuildConfig?
             || e.ReturnFromStart? || e.ReturnFromStop?
    ensures Sound(Advance(w, e, compiled, buildable), compiled, buildable)
  {}

  // Options are chosen only while the engine is down, so they may compile to anything.
  lemma ChoosingKeepsSound(w: World, e: DaemonEvent, compiled: Option<ConfigText>, renewed: Option<ConfigText>,
      buildable: bool)
    requires Sound(w, compiled, buildable) && MayAdvance(w, e) && e.Choose?
    ensures Sound(Advance(w, e, compiled, buildable), renewed, buildable)
  {}

  lemma StartCallKeepsCore(m: Machine, pc: Pc, compiled: Option<ConfigText>, intent: bool, buildable: bool)
    requires Core(m, pc, compiled, intent, buildable) && pc.Calling? && m.op.Idle?
    ensures Core(Step(m, CallStart(pc.config)), InStart(pc.restoring, pc.config), compiled, intent, buildable)
  {
    StepKeepsInv(m, CallStart(pc.config));
  }

  lemma StopCallKeepsCore(m: Machine, pc: Pc, compiled: Option<ConfigText>, intent: bool, buildable: bool)
    requires Core(m, pc, compiled, intent, buildable) && pc.Ending? && m.op.Idle?
    ensures Core(Step(m, CallStop), InStop(pc.shutdown), compiled, intent, buildable)
  {
    StepKeepsInv(m, CallStop);
    assert Running(Step(m, CallStop)) == Running(m);
  }

  lemma AdvanceKeepsSound(w: World, e: DaemonEvent, compiled: Option<ConfigText>, buildable: bool)
    requires Sound(w, compiled, buildable) && MayAdvance(w, e) && !e.Choose?
    ensures Sound(Advance(w, e, compiled, buildable), compiled, buildable)
  {
    var intent := w.store.vpnEnabled;
    match e
    case EngineMoves(event) => EngineStepKeepsCore(w.machine, event, w.pc, compiled, intent, buildable);
    case RequireStopped(_) => LookingKeepsSound(w, e, compiled, buildable);
    case Observe(_) => LookingKeepsSound(w, e, compiled, buildable);
    case CheckActive(_) => LookingKeepsSound(w, e, compiled, buildable);
    case CallEngineStart => StartCallKeepsCore(w.machine, w.pc, compiled, intent, buildable);
    case CallEngineStop => StopCallKeepsCore(w.machine, w.pc, compiled, intent, buildable);
    case _ => DecidingKeepsSound(w, e, compiled, buildable);
  }

  // A change of the configuration happens only while the engine is down.
  lemma ChangingKeepsSound(
    w: World, changed: State, compiled: Option<ConfigText>, buildable: bool,
    recompiled: Option<ConfigText>, rebuildable: bool)
    requires Sound(w, compiled, buildable) && (w.pc.Changing? || w.pc.Selecting?)
    ensures Sound(w.(store := changed, pc := Free, answer := ChangeAnswer(Done)), recompiled, rebuildable)
  {}

  lemma CheckingAServerKeepsSound(w: World, to: Pc, a: Answer, compiled: Option<ConfigText>, buildable: bool)
    requires Sound(w, compiled, buildable) && w.pc.Changing? && (to.Selecting? || to.Free?)
    ensures Sound(w.(pc := to, answer := a), compiled, buildable)
  {}

  lemma CreateKeepsInv(env: Env, w: World, op: StoreOp)
    requires Inv(env, w) && Can(env, w, AddProfile(op))
    ensures Inv(env, Move(env, w, AddProfile(op)))
  {
    CreatingAProfileKeepsBuild(env, w.store, op, w.options);
    CreatingAProfileKeepsBuild(env, w.store, op, NO_NETCHECK);
  }

  // Only the choice of options and changes of the store change what they compile to.
  lemma AdvanceKeepsStore(w: World, e: DaemonEvent, compiled: Option<ConfigText>, buildable: bool)
    requires MayAdvance(w, e)
    ensures var next := Advance(w, e, compiled, buildable);
      && next.store == w.store.(vpnEnabled := next.store.vpnEnabled)
      && (next.options == w.options || (e.Choose? && next.options == e.renewed))
      && (!e.Persist? ==> next.store == w.store)
  {}

  lemma AdvanceKeepsBuild(env: Env, w: World, e: DaemonEvent, compiled: Option<ConfigText>, buildable: bool)
    requires MayAdvance(w, e)
    ensures var next := Advance(w, e, compiled, buildable);
      && Buildable(next.store) == Buildable(w.store)
      && (!e.Choose? ==> Compiled(env, next.store, next.options) == Compiled(env, w.store, w.options))
  {
    AdvanceKeepsStore(w, e, compiled, buildable);
    var next := Advance(w, e, compiled, buildable);
    IntentKeepsBuild(w.store, next.store.vpnEnabled, w.options);
    IntentKeepsBuild(w.store, next.store.vpnEnabled, NO_NETCHECK);
  }

  lemma MoveKeepsInv(env: Env, w: World, e: DaemonEvent)
    requires Inv(env, w) && Can(env, w, e)
    ensures Inv(env, Move(env, w, e))
  {
    var compiled, buildable := Compiled(env, w.store, w.options), Buildable(w.store);
    var next := Move(env, w, e);
    if e.AddProfile? {
      CreateKeepsInv(env, w, e.op);
    } else if e.CheckServer? {
      CheckingAServerKeepsSound(w, next.pc, next.answer, compiled, buildable);
    } else if e.Mutate? {
      ChangingKeepsSound(w, next.store, compiled, buildable,
                         Compiled(env, next.store, next.options), Buildable(next.store));
    } else if e.Choose? {
      ChoosingKeepsSound(w, e, compiled, Compiled(env, next.store, next.options), buildable);
      AdvanceKeepsBuild(env, w, e, compiled, buildable);
    } else {
      AdvanceKeepsSound(w, e, compiled, buildable);
      AdvanceKeepsBuild(env, w, e, compiled, buildable);
    }
  }

  // ---------- runs ----------

  function Fresh(found: bool, s: State, o: NetcheckOptions): World {
    World(Initial(found), s, o, Free, NoAnswer)
  }

  predicate Possible(env: Env, w: World, events: seq<DaemonEvent>)
    decreases |events|
  {
    events == [] || (Can(env, w, events[0]) && Possible(env, Move(env, w, events[0]), events[1..]))
  }

  function RunFrom(env: Env, w: World, events: seq<DaemonEvent>): World
    requires Possible(env, w, events)
    decreases |events|
  {
    if events == [] then w else RunFrom(env, Move(env, w, events[0]), events[1..])
  }

  lemma {:induction false} EveryRunKeepsInv(env: Env, w: World, events: seq<DaemonEvent>)
    requires Inv(env, w) && Possible(env, w, events)
    ensures Inv(env, RunFrom(env, w, events))
    decreases |events|
  {
    if events != [] {
      MoveKeepsInv(env, w, events[0]);
      EveryRunKeepsInv(env, Move(env, w, events[0]), events[1..]);
    }
  }

  lemma ActiveEngineRunsCompiled(env: Env, found: bool, s: State, o: NetcheckOptions, events: seq<DaemonEvent>)
    requires Possible(env, Fresh(found, s, o), events)
    ensures var w := RunFrom(env, Fresh(found, s, o), events); Core(
      w.machine, w.pc, Compiled(env, w.store, w.options), w.store.vpnEnabled, Buildable(w.store))
  {
    InitialHolds(found);
    EveryRunKeepsInv(env, Fresh(found, s, o), events);
  }

  lemma CoreRunsIt(m: Machine, pc: Pc, compiled: Option<ConfigText>, intent: bool, buildable: bool)
    requires Core(m, pc, compiled, intent, buildable) && Active(m)
    ensures compiled.Some? && Running(m) == compiled
    ensures m.shared.command.Some? ==>
      m.shared.command.value in m.configs && m.file == compiled && Some(m.configs[m.shared.command.value]) == compiled
    ensures EngineRuns.State(m) == Engine.Connected ==> m.shared.command.Some?
  {}

  lemma CompiledIsBuilt(env: Env, s: State, o: NetcheckOptions)
    requires Compiled(env, s, o).Some?
    ensures Build(s, o).Some? && Compiled(env, s, o) == Some(env.encode(Object(Build(s, o).value)))
  {}

  // The configuration lock: in every interleaving, an active engine runs exactly
  // the encoded document that the current store and the current options are built
  // into, and so does the tracked child, whose file holds it too.
  lemma ActiveEngineAgreesWithStore(env: Env, found: bool, s: State, o: NetcheckOptions, events: seq<DaemonEvent>)
    requires Possible(env, Fresh(found, s, o), events)
    ensures var w := RunFrom(env, Fresh(found, s, o), events);
      Up(w) ==> Build(w.store, w.options).Some?
                && Running(w.machine) == Some(env.encode(Object(Build(w.store, w.options).value)))
    ensures var w := RunFrom(env, Fresh(found, s, o), events); var child := w.machine.shared.command;
      && (Phase(w) == Engine.Connected ==> child.Some?)
      && (Up(w) && child.Some? ==>
            Build(w.store, w.options).Some? && child.value in w.machine.configs
            && w.machine.configs[child.value] == env.encode(Object(Build(w.store, w.options).value))
            && w.machine.file == Some(env.encode(Object(Build(w.store, w.options).value))))
  {
    ActiveEngineRunsCompiled(env, found, s, o, events);
    var w := RunFrom(env, Fresh(found, s, o), events);
    if Up(w) {
      CoreRunsIt(w.machine, w.pc, Compiled(env, w.store, w.options), w.store.vpnEnabled, Buildable(w.store));
      CompiledIsBuilt(env, w.store, w.options);
    }
  }

  // ---------- what a request answers ----------

  // A request to enable that is still being checked, or was refused as incomplete.
  predicate EnableRefused(w: World) {
    || w.pc == Entered(SetEnabled(true))
    || (w.pc.Free? && w.answer.VpnAnswer? && w.answer.goal && w.answer.verdict == Incomplete)
  }

  // The store but for profiles, which profiles.create may add at any time.
  predicate SameButProfiles(s: State, t: State) { t == s.(profiles := t.profiles) }

  // What can happen until the next request: the engine's own steps, new profiles
  // and the refusal itself; no save, no change and no call of the engine.
  predicate Harmless(e: DaemonEvent) { e.EngineMoves? || e.AddProfile? || e.CheckBuild? }

  lemma RefusalStep(env: Env, w: World, e: DaemonEvent)
    requires EnableRefused(w) && !Buildable(w.store) && Can(env, w, e) && !e.Acquire?
    ensures var next := Move(env, w, e);
      && EnableRefused(next) && !Buildable(next.store)
      && SameButProfiles(w.store, next.store) && next.options == w.options && Harmless(e)
  {
    if e.AddProfile? { CreatingAProfileKeepsBuild(env, w.store, e.op, NO_NETCHECK); }
  }

  // Enabling what cannot be built is refused, in every interleaving and until the
  // next request: the intent, the selection, the routes and the options stay, and
  // the engine makes no step but its own.
  lemma {:induction false} RefusedEnableChangesNothing(env: Env, w: World, events: seq<DaemonEvent>)
    requires EnableRefused(w) && !Buildable(w.store) && Possible(env, w, events)
    requires forall i :: 0 <= i < |events| ==> !events[i].Acquire?
    ensures var after := RunFrom(env, w, events);
      EnableRefused(after) && SameButProfiles(w.store, after.store) && after.options == w.options
    ensures forall i :: 0 <= i < |events| ==> Harmless(events[i])
    decreases |events|
  {
    if events != [] {
      RefusalStep(env, w, events[0]);
      RefusedEnableChangesNothing(env, Move(env, w, events[0]), events[1..]);
      forall i | 0 <= i < |events| ensures Harmless(events[i]) {
        if i > 0 { assert events[i] == events[1..][i - 1]; }
      }
    }
  }

  // What an answer promises: the intent is its goal; a success towards enabled
  // rests on a section of the engine that left it connected, tracking a child
  // that runs what store and options compile to; one towards disabled rests on a
  // section that left it inactive, and it still is.
  predicate TrueAnswer(a: Answer, intent: bool, compiled: Option<ConfigText>, active: bool) {
    && a.VpnAnswer?
    && intent == a.goal
    && (a.verdict == Done
        || (if a.goal then a.verdict == Incomplete || a.verdict == NotStarted else a.verdict == NotStopped))
    && (a.goal && a.verdict == Done ==> a.seen == Engine.Connected && a.ran.Some? && a.ran == compiled)
    && (!a.goal && a.verdict == Done ==> !Engine.IsActive(a.seen) && !active)
  }

  // The events that can answer a request for the tunnel once its intent is stored,
  // or a restore of the stored intent.
  predicate Answers(w: World, e: DaemonEvent) {
    e.Observe? || e.BuildConfig? || e.ReturnFromStart? || (e.ReturnFromStop? && w.pc.InStop? && !w.pc.shutdown)
  }

  lemma AnswersAreTrue(w: World, e: DaemonEvent, compiled: Option<ConfigText>, buildable: bool)
    requires Sound(w, compiled, buildable) && MayAdvance(w, e) && Answers(w, e)
    requires Advance(w, e, compiled, buildable).pc.Free?
    ensures var after := Advance(w, e, compiled, buildable);
      TrueAnswer(after.answer, after.store.vpnEnabled, compiled, Up(after))
  {
    if e.Observe? {
      LookKeepsSound(w, e.found, compiled, buildable);
      AtRestBetweenCalls(Look(w, e.found), compiled, buildable);
    }
  }

  lemma MoveAnswersTruly(env: Env, w: World, e: DaemonEvent)
    requires Inv(env, w) && Can(env, w, e) && Answers(w, e) && Move(env, w, e).pc.Free?
    ensures var after := Move(env, w, e);
      TrueAnswer(after.answer, after.store.vpnEnabled, Compiled(env, after.store, after.options), Up(after))
  {
    AnswersAreTrue(w, e, Compiled(env, w.store, w.options), Buildable(w.store));
    AdvanceKeepsBuild(env, w, e, Compiled(env, w.store, w.options), Buildable(w.store));
  }

  // In every interleaving every answer is true.
  lemma EveryAnswerIsTrue(
    env: Env, found: bool, s: State, o: NetcheckOptions, events: seq<DaemonEvent>, e: DaemonEvent)
    requires Possible(env, Fresh(found, s, o), events) && Can(env, RunFrom(env, Fresh(found, s, o), events), e)
    requires var w := RunFrom(env, Fresh(found, s, o), events); Answers(w, e) && Move(env, w, e).pc.Free?
    ensures var after := Move(env, RunFrom(env, Fresh(found, s, o), events), e);
      TrueAnswer(after.answer, after.store.vpnEnabled, Compiled(env, after.store, after.options), Up(after))
    ensures var after := Move(env, RunFrom(env, Fresh(found, s, o), events), e);
      && after.answer.VpnAnswer? && after.store.vpnEnabled == after.answer.goal
      && (after.answer.verdict == Done && after.answer.goal ==>
            && Build(after.store, after.options).Some? && after.answer.seen == Engine.Connected
            && after.answer.ran == Some(env.encode(Object(Build(after.store, after.options).value))))
      && (after.answer.verdict == Done && !after.answer.goal ==> !Up(after))
  {
    InitialHolds(found);
    EveryRunKeepsInv(env, Fresh(found, s, o), events);
    MoveAnswersTruly(env, RunFrom(env, Fresh(found, s, o), events), e);
    var after := Move(env, RunFrom(env, Fresh(found, s, o), events), e);
    if Compiled(env, after.store, after.options).Some? { CompiledIsBuilt(env, after.store, after.options); }
  }

  // The deferred stop leaves an engine that is not active: it found it so, or its
  // call of Stop has ended.
  predicate EndsShutdown(w: World, e: DaemonEvent) {
    e.CheckActive? || (e.ReturnFromStop? && w.pc.InStop? && w.pc.shutdown)
  }

  lemma ShutdownEndsDown(w: World, e: DaemonEvent, compiled: Option<ConfigText>, buildable: bool)
    requires Sound(w, compiled, buildable) && MayAdvance(w, e) && EndsShutdown(w, e)
    requires Advance(w, e, compiled, buildable).pc.Free?
    ensures !Up(Advance(w, e, compiled, buildable)) && Advance(w, e, compiled, buildable).store == w.store
  {}

  lemma EveryShutdownEndsDown(
    env: Env, found: bool, s: State, o: NetcheckOptions, events: seq<DaemonEvent>, e: DaemonEvent)
    requires Possible(env, Fresh(found, s, o), events) && Can(env, RunFrom(env, Fresh(found, s, o), events), e)
    requires var w := RunFrom(env, Fresh(found, s, o), events); EndsShutdown(w, e) && Move(env, w, e).pc.Free?
    ensures var w := RunFrom(env, Fresh(found, s, o), events);
      !Up(Move(env, w, e)) && Move(env, w, e).store == w.store
  {
    InitialHolds(found);
    EveryRunKeepsInv(env, Fresh(found, s, o), events);
    var w := RunFrom(env, Fresh(found, s, o), events);
    ShutdownEndsDown(w, e, Compiled(env, w.store, w.options), Buildable(w.store));
  }

  // Success is answered exactly when the engine had started, and a start never
  // finds another one running.
  lemma StartAnswerRestsOnStarted(w: World, compiled: Option<ConfigText>, buildable: bool)
    requires Sound(w, compiled, buildable) && MayAdvance(w, ReturnFromStart)
    ensures w.machine.last != Engine.StartRefused(Engine.AlreadyRunning)
    ensures Advance(w, ReturnFromStart, compiled, buildable).answer.verdict == Done
        <==> w.machine.last == Engine.Started
  {}

  // Repeating a successful enable starts nothing while the engine is up.
  lemma EnableIsIdempotent(w: World, found: bool, compiled: Option<ConfigText>, buildable: bool)
    requires Sound(w, compiled, buildable) && MayAdvance(w, Observe(found)) && w.pc.goal && Up(w)
    ensures Advance(w, Observe(found), compiled, buildable)
         == w.(pc := Free, answer := VpnAnswer(true, Done, Engine.Connected, compiled))
  {
    LookKeepsSound(w, found, compiled, buildable);
    AtRestBetweenCalls(w, compiled, buildable);
  }

  // Whether it compiles does not depend on the options.
  lemma CompiledWhenBuildable(env: Env, s: State, o: NetcheckOptions)
    ensures Compiled(env, s, o).Some? <==> Buildable(s)
  {
    BuildableWithAnyOptions(s, o, NO_NETCHECK);
  }

  // What setVPNEnabled checked before persisting the intent is still buildable
  // inside reconcileVPN.
  lemma IncompleteIsUnreachable(env: Env, w: World)
    requires Inv(env, w) && Can(env, w, BuildConfig) && !w.pc.restoring
    ensures Move(env, w, BuildConfig).pc.Calling?
  {
    CompiledWhenBuildable(env, w.store, w.options);
  }
}
