// internal/daemon/server.go: the server object. Each request runs here from its
// lock to its answer, and is shown to be one of the runs of module Daemon.
module Server {
  import opened Wrappers
  import opened Json
  import opened Environment
  import opened State
  import opened Config
  import Store
  import Engine
  import EngineRuns
  import opened Daemon

  // What the surroundings do during one request: where a save fails, whether
  // sing-box is found, whether the test port is still free, and what the child does.
  datatype Around = Around(
    fault: Store.SaveStep, found: bool, portFree: bool, renewed: NetcheckOptions,
    launch: Engine.Launch, halt: Engine.Halt)

  // A run of the daemon: the worlds it went through, the events between them,
  // and the world it stands in.
  datatype Course = Course(worlds: seq<World>, trail: seq<DaemonEvent>, world: World)

  predicate IsFresh(w: World) {
    (w.machine == EngineRuns.Initial(true) || w.machine == EngineRuns.Initial(false)) && w.pc.Free?
      && w.answer.NoAnswer?
  }

  predicate Runs(env: Env, c: Course) {
    && |c.worlds| == |c.trail| + 1 && IsFresh(c.worlds[0]) && c.worlds[|c.trail|] == c.world
    && forall i {:trigger c.trail[i]} :: 0 <= i < |c.trail| ==>
         Can(env, c.worlds[i], c.trail[i]) && c.worlds[i + 1] == Move(env, c.worlds[i], c.trail[i])
  }

  // The same run, some events later.
  predicate Extends(c: Course, d: Course) { c.worlds <= d.worlds && c.trail <= d.trail }

  lemma ExtendsFurther(c: Course, d: Course, e: Course)
    requires Extends(c, d) && Extends(d, e)
    ensures Extends(c, e)
  {}

  // It is a run in the sense of module Daemon.
  lemma {:induction false} RunsFrom(env: Env, c: Course, k: nat)
    requires Runs(env, c) && k <= |c.trail|
    ensures Possible(env, c.worlds[k], c.trail[k..]) && RunFrom(env, c.worlds[k], c.trail[k..]) == c.world
    decreases |c.trail| - k
  {
    if k < |c.trail| {
      assert c.trail[k..][0] == c.trail[k] && c.trail[k..][1..] == c.trail[k + 1..];
      RunsFrom(env, c, k + 1);
    }
  }

  lemma RunsSoundly(env: Env, c: Course)
    requires Runs(env, c)
    ensures Possible(env, c.worlds[0], c.trail) && RunFrom(env, c.worlds[0], c.trail) == c.world
    ensures Inv(env, c.world)
  {
    RunsFrom(env, c, 0);
    assert c.trail[0..] == c.trail;
    EngineRuns.InitialHolds(c.worlds[0].machine == EngineRuns.Initial(true));
    EveryRunKeepsInv(env, c.worlds[0], c.trail);
  }

  lemma Then(env: Env, c: Course, e: DaemonEvent) returns (d: Course)
    requires Runs(env, c) && Can(env, c.world, e)
    ensures Runs(env, d) && Extends(c, d) && d.world == Move(env, c.world, e)
  {
    var next := Move(env, c.world, e);
    d := Course(c.worlds + [next], c.trail + [e], next);
  }

  // What the engine does on its own, the daemon lets it do.
  lemma {:induction false} EngineRunsOn(env: Env, c: Course, events: seq<EngineRuns.Event>) returns (d: Course)
    requires Runs(env, c) && EngineRuns.Possible(c.world.machine, events)
    requires forall e :: e in events ==> EngineRuns.Internal(e)
    ensures Runs(env, d) && Extends(c, d)
    ensures d.world == c.world.(machine := EngineRuns.RunFrom(c.world.machine, events))
    decreases |events|
  {
    if events == [] {
      d := c;
    } else {
      assert events[0] in events;
      var next := Then(env, c, EngineMoves(events[0]));
      d := EngineRunsOn(env, next, events[1..]);
      ExtendsFurther(c, next, d);
    }
  }

  lemma EngineLeads(env: Env, c: Course, n: EngineRuns.Machine) returns (d: Course)
    requires Runs(env, c) && EngineRuns.Leads(c.world.machine, n)
    ensures Runs(env, d) && Extends(c, d) && d.world == c.world.(machine := n)
  {
    var events :| EngineRuns.Possible(c.world.machine, events) && EngineRuns.RunFrom(c.world.machine, events) == n
                  && forall e :: e in events ==> EngineRuns.Internal(e);
    d := EngineRunsOn(env, c, events);
  }

  // Where the engine stands connected, its file holds the document that the store
  // and the options are built into.
  lemma ConnectedRunsDocument(env: Env, c: Course)
    requires Runs(env, c) && Phase(c.world) == Engine.Connected
    ensures Build(c.world.store, c.world.options).Some?
    ensures c.world.machine.file == Some(env.encode(Object(Build(c.world.store, c.world.options).value)))
  {
    RunsSoundly(env, c);
    var w := c.world;
    CoreRunsIt(w.machine, w.pc, Compiled(env, w.store, w.options), w.store.vpnEnabled, Buildable(w.store));
    CompiledIsBuilt(env, w.store, w.options);
  }

  // A connected engine tracks a child, when the daemon comes to stop it.
  lemma ConnectedTracks(env: Env, c: Course)
    requires Runs(env, c) && Phase(c.world) == Engine.Connected
    ensures c.world.machine.shared.command.Some?
  {
    RunsSoundly(env, c);
    var w := c.world;
    CoreRunsIt(w.machine, w.pc, Compiled(env, w.store, w.options), w.store.vpnEnabled, Buildable(w.store));
  }

  // ---------- the parts of a request, as runs ----------

  // reconcileVPN's look at the engine.
  lemma Observing(w: World, found: bool, compiled: Option<EngineRuns.ConfigText>, buildable: bool)
    requires Sound(w, compiled, buildable) && w.pc.Reconciling?
    ensures var after := Advance(w, Observe(found), compiled, buildable);
      && after.store == w.store && after.options == w.options && after.machine.op.Idle?
      && after.machine == w.machine.(shared := Engine.StatusRead(w.machine.shared, found))
      && (Up(w) <==> Up(after)) && Phase(after) != Engine.Starting && Phase(after) != Engine.Stopping
      && after.pc == (
        if w.pc.goal then (if Phase(after) == Engine.Connected then Free else Choosing(w.pc.restoring))
        else (if Phase(after) == Engine.Unavailable || Phase(after) == Engine.Stopped then Free else Ending(false)))
      && (after.pc.Free? ==> after.answer.VpnAnswer? && after.answer.goal == w.pc.goal && after.answer.verdict == Done)
  {
    LookKeepsSound(w, found, compiled, buildable);
    AtRestBetweenCalls(Look(w, found), compiled, buildable);
  }

  lemma ObservingRun(env: Env, c: Course, found: bool) returns (d: Course)
    requires Runs(env, c) && c.world.pc.Reconciling?
    ensures Runs(env, d) && Extends(c, d)
    ensures var w, after := c.world, d.world;
      && after.store == w.store && after.options == w.options && after.machine.op.Idle?
      && after.machine == w.machine.(shared := Engine.StatusRead(w.machine.shared, found))
      && (Up(w) <==> Up(after)) && Phase(after) != Engine.Starting && Phase(after) != Engine.Stopping
      && after.pc == (
        if w.pc.goal then (if Phase(after) == Engine.Connected then Free else Choosing(w.pc.restoring))
        else (if Phase(after) == Engine.Unavailable || Phase(after) == Engine.Stopped then Free else Ending(false)))
      && (after.pc.Free? ==> after.answer.VpnAnswer? && after.answer.goal == w.pc.goal && after.answer.verdict == Done)
  {
    RunsSoundly(env, c);
    Observing(c.world, found, Compiled(env, c.world.store, c.world.options), Buildable(c.world.store));
    d := Then(env, c, Observe(found));
  }

  // Its choice of options.
  lemma ChoosingRun(env: Env, c: Course, portFree: bool, renewed: NetcheckOptions) returns (d: Course)
    requires Runs(env, c) && c.world.pc.Choosing?
    ensures Runs(env, d) && Extends(c, d)
    ensures d.world ==
      c.world.(options := if portFree then c.world.options else renewed, pc := Building(c.world.pc.restoring))
  {
    d := Then(env, c, Choose(portFree, renewed));
  }

  // Its build.
  lemma Compiling(w: World, compiled: Option<EngineRuns.ConfigText>, buildable: bool)
    requires Sound(w, compiled, buildable) && w.pc.Building? && (compiled.Some? <==> buildable)
    ensures var after := Advance(w, BuildConfig, compiled, buildable);
      && after.store == w.store && after.options == w.options && after.machine == w.machine
      && if compiled.Some? then after.pc == Calling(w.pc.restoring, compiled.value)
         else w.pc.restoring && after.pc.Free?
              && after.answer.VpnAnswer? && after.answer.goal && after.answer.verdict == Incomplete
  {}

  lemma BuildingRun(env: Env, c: Course) returns (d: Course)
    requires Runs(env, c) && c.world.pc.Building?
    ensures Runs(env, d) && Extends(c, d)
    ensures var w, after := c.world, d.world; var config := Compiled(env, w.store, w.options);
      && after.store == w.store && after.options == w.options && after.machine == w.machine
      && if config.Some? then after.pc == Calling(w.pc.restoring, config.value)
         else w.pc.restoring && after.pc.Free?
              && after.answer.VpnAnswer? && after.answer.goal && after.answer.verdict == Incomplete
  {
    RunsSoundly(env, c);
    CompiledWhenBuildable(env, c.world.store, c.world.options);
    Compiling(c.world, Compiled(env, c.world.store, c.world.options), Buildable(c.world.store));
    d := Then(env, c, BuildConfig);
  }

  // A call of the engine by the daemon, up to the engine's own steps.
  lemma CallingRun(env: Env, c: Course, e: DaemonEvent) returns (d: Course)
    requires Runs(env, c) && (e.CallEngineStart? || e.CallEngineStop?)
    requires if e.CallEngineStart? then c.world.pc.Calling? else c.world.pc.Ending?
    ensures Runs(env, d) && Extends(c, d) && EngineRuns.Inv(d.world.machine)
    ensures c.world.machine.op.Idle? && MayAdvance(c.world, e) && d.world == Advance(c.world, e, None, false)
  {
    RunsSoundly(env, c);
    d := Then(env, c, e);
    RunsSoundly(env, d);
  }

  // Its return: the answer follows from the outcome, and a success of Start from
  // a section that left the engine connected and running the given configuration.
  lemma Returning(w: World, e: DaemonEvent, compiled: Option<EngineRuns.ConfigText>, buildable: bool)
    requires Sound(w, compiled, buildable) && w.machine.op.Idle?
    requires (w.pc.InStart? && e.ReturnFromStart?) || (w.pc.InStop? && !w.pc.shutdown && e.ReturnFromStop?)
    ensures var after := Advance(w, e, compiled, buildable);
      && after.store == w.store && after.options == w.options && after.machine == w.machine && after.pc.Free?
      && after.answer.VpnAnswer? && after.answer.goal == w.pc.InStart?
      && after.answer.verdict == (
        if w.pc.InStart? then (if w.machine.last == Engine.Started then Done else NotStarted)
        else if w.machine.last == Engine.StopFailed then NotStopped else Done)
      && (w.pc.InStart? ==> w.machine.last != Engine.StartRefused(Engine.AlreadyRunning))
      && (w.pc.InStart? && w.machine.last == Engine.Started ==>
            after.answer.seen == Engine.Connected && after.answer.ran == Some(w.pc.config))
  {}

  lemma ReturningRun(env: Env, c: Course, n: EngineRuns.Machine, e: DaemonEvent) returns (d: Course)
    requires Runs(env, c) && EngineRuns.Leads(c.world.machine, n) && n.op.Idle?
    requires (c.world.pc.InStart? && e.ReturnFromStart?)
        || (c.world.pc.InStop? && !c.world.pc.shutdown && e.ReturnFromStop?)
    ensures Runs(env, d) && Extends(c, d)
    ensures var w, after := c.world, d.world;
      && after.store == w.store && after.options == w.options && after.machine == n && after.pc.Free?
      && after.answer.VpnAnswer? && after.answer.goal == w.pc.InStart?
      && after.answer.verdict == (
        if w.pc.InStart? then (if n.last == Engine.Started then Done else NotStarted)
        else if n.last == Engine.StopFailed then NotStopped else Done)
      && (w.pc.InStart? ==> n.last != Engine.StartRefused(Engine.AlreadyRunning))
      && (w.pc.InStart? && n.last == Engine.Started ==>
            after.answer.seen == Engine.Connected && after.answer.ran == Some(w.pc.config))
  {
    var back := EngineLeads(env, c, n);
    RunsSoundly(env, back);
    Returning(back.world, e, Compiled(env, back.world.store, back.world.options), Buildable(back.world.store));
    d := Then(env, back, e);
    ExtendsFurther(c, back, d);
  }

  // Its call of engine.Start.
  lemma StartingRun(env: Env, c: Course, launch: Engine.Launch) returns (d: Course)
    requires Runs(env, c) && c.world.pc.Calling? && launch.pid > 0
    ensures Runs(env, d) && Extends(c, d) && d.world.store == c.world.store && d.world.options == c.world.options
    ensures d.world.pc.Free? && d.world.answer.VpnAnswer? && d.world.answer.goal
    ensures var shared := c.world.machine.shared; var outcome := Engine.StartOutcome(shared, launch);
      && outcome != Engine.StartRefused(Engine.AlreadyRunning)
      && d.world.answer.verdict == (if outcome == Engine.Started then Done else NotStarted)
      && (outcome == Engine.Started ==>
            d.world.answer.seen == Engine.Connected && d.world.answer.ran == Some(c.world.pc.config))
    ensures var shared := c.world.machine.shared;
      var proceeds := Engine.StartReply(shared, launch.found) == Engine.Proceed;
      && d.world.machine.shared == Engine.AfterStart(shared, launch, c.world.machine.spawned)
      && d.world.machine.spawned == c.world.machine.spawned + (if proceeds && launch.Spawned() then 1 else 0)
      && d.world.machine.file == (if proceeds && launch.written then Some(c.world.pc.config) else c.world.machine.file)
  {
    var called := CallingRun(env, c, CallEngineStart);
    var n := EngineRuns.StartIsARun(called.world.machine, launch);
    d := ReturningRun(env, called, n, ReturnFromStart);
    ExtendsFurther(c, called, d);
  }

  // Its call of engine.Stop.
  lemma StoppingRun(env: Env, c: Course, halt: Engine.Halt) returns (d: Course)
    requires Runs(env, c) && c.world.pc == Ending(false)
    ensures Runs(env, d) && Extends(c, d) && d.world.store == c.world.store && d.world.options == c.world.options
    ensures d.world.pc.Free? && d.world.answer.VpnAnswer? && !d.world.answer.goal
    ensures d.world.answer.verdict
            == if Engine.StopOutcome(c.world.machine.shared, halt) == Engine.StopFailed then NotStopped else Done
    ensures d.world.machine.shared == Engine.AfterStop(c.world.machine.shared, halt)
    ensures d.world.machine.spawned == c.world.machine.spawned && d.world.machine.file == c.world.machine.file
  {
    var called := CallingRun(env, c, CallEngineStop);
    var n := EngineRuns.StopIsARun(called.world.machine, halt);
    d := ReturningRun(env, called, n, ReturnFromStop);
    ExtendsFurther(c, called, d);
  }

  // setVPNEnabled, up to its store operation.
  lemma CheckingRun(env: Env, c: Course, enabled: bool) returns (d: Course)
    requires Runs(env, c) && c.world.pc.Free?
    ensures Runs(env, d) && Extends(c, d)
    ensures var w, after := c.world, d.world;
      && after.store == w.store && after.options == w.options && after.machine == w.machine
      && if enabled && !Buildable(w.store)
         then after.pc.Free? && after.answer.VpnAnswer? && after.answer.goal == enabled
           && after.answer.verdict == Incomplete
         else after.pc == Checked(enabled)
  {
    var entered := Then(env, c, Acquire(SetEnabled(enabled)));
    d := Then(env, entered, CheckBuild);
    ExtendsFurther(c, entered, d);
  }

  // The store operation.
  lemma PersistingRun(env: Env, c: Course, saved: bool) returns (d: Course)
    requires Runs(env, c) && c.world.pc.Checked?
    ensures Runs(env, d) && Extends(c, d)
    ensures var w, after, goal := c.world, d.world, c.world.pc.goal;
      && after.options == w.options && after.machine == w.machine
      && if w.store.vpnEnabled != goal && !saved
         then after.pc.Free? && after.store == w.store
              && after.answer.VpnAnswer? && after.answer.goal == goal && after.answer.verdict == StateFailed
         else after.pc == Reconciling(goal, false) && after.store == w.store.(vpnEnabled := goal)
  {
    d := Then(env, c, Persist(saved));
  }

  // restoreDesiredState, up to its call of reconcileVPN.
  lemma ReadingRun(env: Env, c: Course) returns (d: Course)
    requires Runs(env, c) && c.world.pc.Free?
    ensures Runs(env, d) && Extends(c, d)
    ensures var w, after := c.world, d.world;
      && after.store == w.store && after.options == w.options && after.machine == w.machine
      && after.pc == Reconciling(w.store.vpnEnabled, true)
  {
    var entered := Then(env, c, Acquire(Restore));
    d := Then(env, entered, ReadIntent);
    ExtendsFurther(c, entered, d);
  }

  // A configuration request, up to its own work: requireStopped.
  lemma Guarding(w: World, found: bool, compiled: Option<EngineRuns.ConfigText>, buildable: bool)
    requires Sound(w, compiled, buildable) && w.pc == Entered(Change)
    ensures var after := Advance(w, RequireStopped(found), compiled, buildable);
      && after.store == w.store && after.options == w.options
      && after.machine == w.machine.(shared := Engine.StatusRead(w.machine.shared, found))
      && after.pc == (if Up(w) then Free else Changing)
      && (Up(w) <==> Up(after))
  {
    LookKeepsSound(w, found, compiled, buildable);
  }

  lemma GuardingRun(env: Env, c: Course, found: bool) returns (d: Course)
    requires Runs(env, c) && c.world.pc.Free?
    ensures Runs(env, d) && Extends(c, d)
    ensures var w, after := c.world, d.world;
      && after.store == w.store && after.options == w.options
      && after.machine == w.machine.(shared := Engine.StatusRead(w.machine.shared, found))
      && after.pc == (if Up(w) then Free else Changing)
      && (Up(w) <==> Up(after))
  {
    var entered := Then(env, c, Acquire(Change));
    RunsSoundly(env, entered);
    Guarding(entered.world, found, Compiled(env, c.world.store, c.world.options), Buildable(c.world.store));
    d := Then(env, entered, RequireStopped(found));
    ExtendsFurther(c, entered, d);
  }

  // servers.select: the lookup and ValidateServer.
  lemma CheckingServerRun(env: Env, c: Course, id: string) returns (d: Course)
    requires Runs(env, c) && c.world.pc.Changing?
    ensures Runs(env, d) && Extends(c, d) && d.world.machine == c.world.machine && d.world.options == c.world.options
    ensures d.world.store == c.world.store
    ensures d.world.pc == if Validated(c.world.store, id) then Selecting(id) else Free
  {
    d := Then(env, c, CheckServer(id));
  }

  // ... and its store operation.
  lemma SelectingRun(env: Env, c: Course, id: string) returns (d: Course)
    requires Runs(env, c) && c.world.pc == Selecting(id) && FindServer(c.world.store.profiles, id).Some?
    ensures Runs(env, d) && Extends(c, d) && d.world.machine == c.world.machine && d.world.options == c.world.options
    ensures d.world.pc.Free? && d.world.store == c.world.store.(activeServer := id)
  {
    d := Then(env, c, Mutate(StoreOp.SelectServer(id)));
  }

  // ---------- the object ----------

  class Server {
    const env: Env
    const store: Store.Store
    const engine: Engine.Process
    var netcheckOptions: NetcheckOptions
    var restoreErr: Option<Verdict>   // None is the empty message
    ghost var course: Course          // the run of module Daemon this object has made

    // The object stands where its run ends.
    ghost predicate Valid()
      reads `course, `netcheckOptions, store, engine
    {
      && store.env == env && Store.Readable(store.disk)
      && Runs(env, course)
      && course.world.store == store.data
      && course.world.options == netcheckOptions
      && course.world.machine.shared == engine.View()
      && course.world.machine.spawned == engine.spawned
      && course.world.machine.file == engine.file
    }

    // The run so far has answered a request for the tunnel.
    ghost predicate Answered(goal: bool, verdict: Verdict)
      reads `course
    {
      && course.world.pc.Free? && course.world.answer.VpnAnswer?
      && course.world.answer.goal == goal && course.world.answer.verdict == verdict
    }

    // The engine is connected, on what the stored selection and the options are built into.
    ghost predicate RunsDocument()
      reads `netcheckOptions, store, engine
    {
      && engine.status.state == Engine.Connected && Build(store.data, netcheckOptions).Some?
      && engine.file == Some(env.encode(Object(Build(store.data, netcheckOptions).value)))
    }

    ghost predicate Idle()
      reads `course
    {
      course.world.pc.Free?
    }

    // NewWithEngine, on a controller that has started nothing.
    constructor (store: Store.Store, engine: Engine.Process, options: NetcheckOptions, found: bool)
      requires Store.Readable(store.disk)
      requires engine.View() == EngineRuns.Initial(found).shared && engine.spawned == 0 && engine.file == None
      ensures Valid() && Idle() && course.trail == []
      ensures this.store == store && this.engine == engine && netcheckOptions == options && restoreErr == None
    {
      this.env := store.env;
      this.store := store;
      this.engine := engine;
      this.netcheckOptions := options;
      this.restoreErr := None;
      this.course := Course([Fresh(found, store.data, options)], [], Fresh(found, store.data, options));
    }

    // The daemon's call of engine.Start.
    method CallStart(config: string, launch: Engine.Launch) returns (outcome: Engine.Outcome)
      requires Valid() && course.world.pc.Calling? && course.world.pc.config == config && launch.pid > 0
      modifies `course, engine
      ensures Valid() && Extends(old(course), course)
      ensures outcome == Engine.StartOutcome(old(engine.View()), launch)
          && outcome != Engine.StartRefused(Engine.AlreadyRunning)
      ensures engine.View() == Engine.AfterStart(old(engine.View()), launch, old(engine.spawned))
      ensures engine.file == if Engine.StartReply(old(engine.View()), launch.found) == Engine.Proceed && launch.written
                             then Some(config) else old(engine.file)
      ensures Answered(true, if outcome == Engine.Started then Done else NotStarted)
      ensures outcome == Engine.Started ==>
        course.world.answer.seen == Engine.Connected && course.world.answer.ran == Some(config)
    {
      course := StartingRun(env, course, launch);
      outcome := engine.Start(config, launch);
    }

    // reconcileVPN, from its call of engine.Start on.
    method StartEngine(config: string, around: Around) returns (verdict: Verdict)
      requires Valid() && course.world.pc.Calling? && course.world.pc.config == config && around.launch.pid > 0
      modifies `course, engine
      ensures Valid() && Extends(old(course), course) && Answered(true, verdict)
      ensures verdict == if around.launch.Succeeds() then Done else NotStarted
      ensures verdict == Done ==>
        engine.status.state == Engine.Connected && engine.file == Some(config)
        && course.world.answer.seen == Engine.Connected && course.world.answer.ran == Some(config)
    {
      var outcome := CallStart(config, around.launch);
      Engine.StartSucceedsExactly(old(engine.View()), around.launch);
      if outcome != Engine.Started && outcome != Engine.StartRefused(Engine.AlreadyRunning) {
        return NotStarted;
      }
      return Done;
    }

    // reconcileVPN, from its choice of options to its call of engine.Start: the
    // configuration text, or None when nothing can be built.
    method BuildConfiguration(around: Around) returns (config: Option<string>)
      requires Valid() && course.world.pc.Choosing?
      modifies `course, `netcheckOptions
      ensures Valid() && Extends(old(course), course)
      ensures if config.Some? then course.world.pc == Calling(old(course).world.pc.restoring, config.value)
              else old(course).world.pc.restoring && Answered(true, Incomplete)
      ensures netcheckOptions == if around.portFree then old(netcheckOptions) else around.renewed
    {
      if !around.portFree {
        netcheckOptions := around.renewed;
      }
      ghost var chosen := ChoosingRun(env, course, around.portFree, around.renewed);
      var document := BuildWithOptions(store.data, netcheckOptions);
      ghost var built := BuildingRun(env, chosen);
      ExtendsFurther(course, chosen, built);
      course := built;
      config := if document.None? then None else Some(env.encode(Object(document.value)));
    }

    // reconcileVPN, from its choice of options on.
    method BuildAndStart(around: Around) returns (verdict: Verdict)
      requires Valid() && course.world.pc.Choosing? && around.launch.pid > 0
      modifies `course, `netcheckOptions, engine
      ensures Valid() && Extends(old(course), course) && Answered(true, verdict)
      ensures verdict == (if around.launch.Succeeds() then Done else NotStarted)
              || (verdict == Incomplete && old(course).world.pc.restoring)
      ensures verdict == Done ==> RunsDocument()
      ensures netcheckOptions == if around.portFree then old(netcheckOptions) else around.renewed
    {
      var config := BuildConfiguration(around);
      ghost var built := course;
      if config.None? {
        return Incomplete;
      }
      verdict := StartEngine(config.value, around);
      if verdict == Done { ConnectedRunsDocument(env, course); }
      ExtendsFurther(old(course), built, course);
    }

    // The daemon's call of engine.Stop.
    method CallStop(halt: Engine.Halt) returns (outcome: Engine.Outcome)
      requires Valid() && course.world.pc == Ending(false)
      modifies `course, engine
      ensures Valid() && Extends(old(course), course) && !Engine.IsActive(engine.status.state)
      ensures outcome == Engine.StopOutcome(old(engine.View()), halt)
      ensures Answered(false, if outcome == Engine.StopFailed then NotStopped else Done)
    {
      course := StoppingRun(env, course, halt);
      Engine.StopEndsIt(engine.View(), halt);
      outcome := engine.Stop(halt);
    }

    // reconcileVPN, from its call of engine.Stop on.
    method StopEngine(around: Around) returns (verdict: Verdict)
      requires Valid() && course.world.pc == Ending(false)
      modifies `course, engine
      ensures Valid() && Extends(old(course), course) && Answered(false, verdict)
      ensures !Engine.IsActive(engine.status.state) && (verdict == Done || verdict == NotStopped)
      ensures old(engine.status.state) == Engine.Connected ==>
        verdict == if around.halt.KillFails? then NotStopped else Done
      ensures old(engine.status.state) == Engine.Failed ==> verdict == Done
    {
      if engine.status.state == Engine.Connected { ConnectedTracks(env, course); }
      Engine.StopFailsExactly(engine.View(), around.halt);
      var outcome := CallStop(around.halt);
      if outcome != Engine.StopRefused && outcome != Engine.StopDone {
        return NotStopped;
      }
      return Done;
    }

    // reconcileVPN's look at the engine.
    method ReadEngine(found: bool) returns (state: Engine.Phase)
      requires Valid() && course.world.pc.Reconciling?
      modifies `course, engine
      ensures Valid() && Extends(old(course), course)
      ensures state == engine.status.state && state != Engine.Starting && state != Engine.Stopping
      ensures var goal, restoring := old(course).world.pc.goal, old(course).world.pc.restoring;
        course.world.pc == (
          if goal then (if state == Engine.Connected then Free else Choosing(restoring))
          else (if state == Engine.Unavailable || state == Engine.Stopped then Free else Ending(false)))
      ensures course.world.pc.Free? ==> Answered(old(course).world.pc.goal, Done)
      ensures old(Engine.IsActive(engine.status.state)) ==>
        state == Engine.Connected && engine.View() == old(engine.View())
      ensures Engine.IsActive(state) ==> old(Engine.IsActive(engine.status.state))
      ensures engine.spawned == old(engine.spawned) && engine.file == old(engine.file)
      ensures state == Engine.Connected ==> RunsDocument()
    {
      var status := engine.ReadStatus(found);
      course := ObservingRun(env, course, found);
      state := status.state;
      if state == Engine.Connected { ConnectedRunsDocument(env, course); }
    }

    // reconcileVPN towards enabled.
    method ReconcileUp(ghost restoring: bool, around: Around) returns (verdict: Verdict)
      requires Valid() && course.world.pc == Reconciling(true, restoring) && around.launch.pid > 0
      modifies `course, `netcheckOptions, engine
      ensures Valid() && Extends(old(course), course) && Answered(true, verdict)
      ensures verdict == Done ==> RunsDocument()
      ensures verdict == Done || verdict == NotStarted || (verdict == Incomplete && restoring)
      ensures netcheckOptions == if !old(Engine.IsActive(engine.status.state)) && !around.portFree
                                 then around.renewed else old(netcheckOptions)
      ensures if old(Engine.IsActive(engine.status.state))
        then verdict == Done && engine.View() == old(engine.View()) && engine.spawned == old(engine.spawned)
             && engine.file == old(engine.file)
        else verdict == Incomplete || verdict == if around.launch.Succeeds() then Done else NotStarted
    {
      var state := ReadEngine(around.found);
      ghost var seen := course;
      if state == Engine.Connected || state == Engine.Starting {
        return Done;
      }
      if state == Engine.Stopping {
        return EngineStopping;
      }
      verdict := BuildAndStart(around);
      ExtendsFurther(old(course), seen, course);
    }

    // reconcileVPN towards disabled.
    method ReconcileDown(ghost restoring: bool, around: Around) returns (verdict: Verdict)
      requires Valid() && course.world.pc == Reconciling(false, restoring)
      modifies `course, engine
      ensures Valid() && Extends(old(course), course) && Answered(false, verdict)
      ensures verdict == Done ==> !Engine.IsActive(engine.status.state)
      ensures
        verdict == if old(Engine.IsActive(engine.status.state)) && around.halt.KillFails? then NotStopped else Done
    {
      var state := ReadEngine(around.found);
      ghost var seen := course;
      if state == Engine.Unavailable || state == Engine.Stopped {
        return Done;
      }
      if state == Engine.Stopping {
        return Done;
      }
      verdict := StopEngine(around);
      ExtendsFurther(old(course), seen, course);
    }

    method ReconcileVPN(enabled: bool, ghost restoring: bool, around: Around) returns (verdict: Verdict)
      requires Valid() && course.world.pc == Reconciling(enabled, restoring) && around.launch.pid > 0
      modifies `course, `netcheckOptions, engine
      ensures Valid() && Extends(old(course), course) && Answered(enabled, verdict)
      ensures verdict == Done ==>
        if enabled then RunsDocument() else !Engine.IsActive(engine.status.state)
      ensures enabled ==> verdict == Done || verdict == NotStarted || (verdict == Incomplete && restoring)
      ensures netcheckOptions == if enabled && !old(Engine.IsActive(engine.status.state)) && !around.portFree
                                 then around.renewed else old(netcheckOptions)
      ensures enabled && !old(Engine.IsActive(engine.status.state)) ==>
        verdict == Incomplete || verdict == if around.launch.Succeeds() then Done else NotStarted
      ensures !enabled ==>
        verdict == if old(Engine.IsActive(engine.status.state)) && around.halt.KillFails? then NotStopped else Done
      ensures enabled && old(Engine.IsActive(engine.status.state)) ==>
        verdict == Done && engine.View() == old(engine.View()) && engine.spawned == old(engine.spawned)
        && engine.file == old(engine.file)
    {
      if enabled {
        verdict := ReconcileUp(restoring, around);
      } else {
        verdict := ReconcileDown(restoring, around);
      }
    }

    // The intent as setVPNEnabled stores it, restored in memory when the save fails.
    method PersistIntent(enabled: bool, fault: Store.SaveStep) returns (ok: bool)
      requires Store.Readable(store.disk)
      modifies store
      ensures Store.Readable(store.disk) && ok == (old(store.data).vpnEnabled == enabled || fault == Store.Nowhere)
      ensures store.data == if ok then old(store.data).(vpnEnabled := enabled) else old(store.data)
      ensures old(store.data).vpnEnabled == enabled || !ok ==> store.View() == old(store.View())
      ensures ok && old(store.data).vpnEnabled != enabled ==> Store.FileOf(store.disk) == Some(store.data)
    {
      ok := store.SetVPNEnabled(enabled, fault);
    }

    // setVPNEnabled, up to its call of reconcileVPN: the answer if it ends there.
    method PrepareIntent(enabled: bool, around: Around) returns (early: Option<Verdict>)
      requires Valid() && Idle()
      modifies `course, store
      ensures Valid() && Extends(old(course), course)
      ensures early == Some(Incomplete) <==> enabled && !Buildable(old(store.data))
      ensures early.Some? ==>
        (early.value == Incomplete || early.value == StateFailed) && Answered(enabled, early.value)
      ensures early.None? ==>
        course.world.pc == Reconciling(enabled, false) && store.data == old(store.data).(vpnEnabled := enabled)
      ensures early.Some? || old(store.data).vpnEnabled == enabled ==> store.View() == old(store.View())
      ensures early == Some(StateFailed) ==> old(store.data).vpnEnabled != enabled
      ensures early.None? && old(store.data).vpnEnabled != enabled ==> Store.FileOf(store.disk) == Some(store.data)
    {
      ghost var checked := CheckingRun(env, course, enabled);
      if enabled {
        var document := BuildWithOptions(store.data, NO_NETCHECK);
        if document.None? {
          course := checked;
          return Some(Incomplete);
        }
      }
      ghost var persisted := PersistingRun(env, checked, around.fault == Store.Nowhere);
      ExtendsFurther(course, checked, persisted);
      course := persisted;
      var ok := PersistIntent(enabled, around.fault);
      early := if ok then None else Some(StateFailed);
    }

    // reconcileVPN and what setVPNEnabled and restoreDesiredState make of it.
    method FinishIntent(enabled: bool, ghost restoring: bool, around: Around) returns (verdict: Verdict)
      requires Valid() && course.world.pc == Reconciling(enabled, restoring) && around.launch.pid > 0
      modifies this, engine
      ensures Valid() && Extends(old(course), course) && Answered(enabled, verdict)
      ensures verdict == Done ==>
        if enabled then RunsDocument() else !Engine.IsActive(engine.status.state)
      ensures verdict == Done
              || (if enabled then verdict == Incomplete || verdict == NotStarted else verdict == NotStopped)
      ensures enabled && !restoring ==> verdict != Incomplete
      ensures enabled && !old(Engine.IsActive(engine.status.state)) ==>
        verdict == Incomplete || verdict == if around.launch.Succeeds() then Done else NotStarted
      ensures !enabled ==>
        verdict == if old(Engine.IsActive(engine.status.state)) && around.halt.KillFails? then NotStopped else Done
      ensures netcheckOptions == if enabled && !old(Engine.IsActive(engine.status.state)) && !around.portFree
                                 then around.renewed else old(netcheckOptions)
      ensures enabled && old(Engine.IsActive(engine.status.state)) ==>
        verdict == Done && engine.View() == old(engine.View()) && engine.spawned == old(engine.spawned)
        && engine.file == old(engine.file)
      ensures restoreErr == if verdict == Done then None else old(restoreErr)
    {
      verdict := ReconcileVPN(enabled, restoring, around);
      if verdict == Done {
        restoreErr := None;
      }
    }

    method SetVPNEnabled(enabled: bool, around: Around) returns (verdict: Verdict)
      requires Valid() && Idle() && around.launch.pid > 0
      modifies this, store, engine
      // The request is a run of the daemon that ends with this answer.
      ensures Valid() && Extends(old(course), course) && Answered(enabled, verdict)
      ensures verdict == Incomplete <==> enabled && !Buildable(old(store.data))
      ensures verdict == Incomplete || verdict == StateFailed ==>
        store.View() == old(store.View()) && engine.View() == old(engine.View())
          && netcheckOptions == old(netcheckOptions)
      ensures verdict == StateFailed ==> old(store.data).vpnEnabled != enabled
      // The intent in memory and on disk.
      ensures verdict == Done || verdict == NotStarted || verdict == NotStopped ==>
        store.data == old(store.data).(vpnEnabled := enabled)
        && (old(store.data).vpnEnabled != enabled ==> Store.FileOf(store.disk) == Some(store.data))
      // On success the engine runs the built document, or is down.
      ensures verdict == Done ==>
        if enabled then RunsDocument() else !Engine.IsActive(engine.status.state)
      ensures verdict == Done || verdict == NotStarted || verdict == NotStopped ==>
        netcheckOptions == if enabled && !old(Engine.IsActive(engine.status.state)) && !around.portFree
                           then around.renewed else old(netcheckOptions)
      ensures enabled && !old(Engine.IsActive(engine.status.state)) ==>
        verdict == Incomplete || verdict == StateFailed
        || verdict == if around.launch.Succeeds() then Done else NotStarted
      ensures !enabled ==>
        verdict == StateFailed
        || verdict == if old(Engine.IsActive(engine.status.state)) && around.halt.KillFails? then NotStopped else Done
      // Once enabled and up, enabling again changes nothing but the restore error.
      ensures old(store.data).vpnEnabled == enabled ==> store.View() == old(store.View())
      ensures
        enabled && old(Engine.IsActive(engine.status.state)) && verdict != Incomplete && verdict != StateFailed ==>
        verdict == Done && engine.View() == old(engine.View()) && engine.spawned == old(engine.spawned)
        && engine.file == old(engine.file)
      ensures restoreErr == if verdict == Done then None else old(restoreErr)
    {
      var early := PrepareIntent(enabled, around);
      if early.Some? {
        return early.value;
      }
      ghost var prepared := course;
      verdict := FinishIntent(enabled, false, around);
      ExtendsFurther(old(course), prepared, course);
    }

    method RestoreDesiredState(around: Around)
      requires Valid() && Idle() && around.launch.pid > 0
      modifies this, engine
      ensures Valid() && Extends(old(course), course)
      ensures Answered(store.data.vpnEnabled, if restoreErr.Some? then restoreErr.value else Done)
      ensures restoreErr == None ==>
        if store.data.vpnEnabled then RunsDocument() else !Engine.IsActive(engine.status.state)
      ensures restoreErr.Some? ==>
        if store.data.vpnEnabled then restoreErr.value == Incomplete || restoreErr.value == NotStarted
        else restoreErr.value == NotStopped
    {
      ghost var read := ReadingRun(env, course);
      course := read;
      var enabled := store.data.vpnEnabled;
      var verdict := ReconcileVPN(enabled, true, around);
      ExtendsFurther(old(course), read, course);
      if verdict != Done {
        restoreErr := Some(verdict);
        return;
      }
      restoreErr := None;
    }

    // The store's part of servers.select.
    method StoreSelection(id: string, fault: Store.SaveStep) returns (ok: bool)
      requires Store.Readable(store.disk) && FindServer(store.data.profiles, id).Some?
      modifies store
      ensures Store.Readable(store.disk) && ok == (fault == Store.Nowhere)
      ensures store.data == old(store.data).(activeServer := id)
      ensures Store.FileOf(store.disk) == if ok then Some(store.data) else old(Store.FileOf(store.disk))
    {
      ok := store.SelectServer(id, fault);
    }

    // requireStopped, at the head of every request that changes the configuration.
    method RequireStopped(found: bool) returns (stopped: bool)
      requires Valid() && Idle()
      modifies `course, engine
      ensures Valid() && Extends(old(course), course)
      ensures stopped == !old(Engine.IsActive(engine.status.state))
      ensures stopped == !Engine.IsActive(engine.status.state)
      ensures course.world.pc == if stopped then Changing else Free
    {
      var status := engine.ReadStatus(found);
      course := GuardingRun(env, course, found);
      stopped := !Engine.IsActive(status.state);
    }

    // servers.select, once the server was found ready.
    method SelectReady(id: string, fault: Store.SaveStep) returns (ok: bool)
      requires Valid() && course.world.pc == Selecting(id) && FindServer(store.data.profiles, id).Some?
      modifies `course, store
      ensures Valid() && Idle() && Extends(old(course), course)
      ensures store.data == old(store.data).(activeServer := id)
      ensures ok ==> Store.FileOf(store.disk) == Some(store.data)
    {
      course := SelectingRun(env, course, id);
      ok := StoreSelection(id, fault);
    }

    // servers.select
    method SelectServer(id: string, found: bool, fault: Store.SaveStep) returns (ok: bool)
      requires Valid() && Idle()
      modifies `course, store, engine
      ensures Valid() && Idle() && Extends(old(course), course)
      // Selected in memory exactly when the engine is down and the server is there and ready.
      ensures store.data ==
        if !old(Engine.IsActive(engine.status.state)) && Validated(old(store.data), id)
        then old(store.data).(activeServer := id) else old(store.data)
      ensures ok ==> Store.FileOf(store.disk) == Some(store.data) && store.data.activeServer == id
      ensures Engine.IsActive(engine.status.state) <==> old(Engine.IsActive(engine.status.state))
    {
      var stopped := RequireStopped(found);
      if !stopped {
        return false;
      }
      ghost var guarded := course;
      course := CheckingServerRun(env, guarded, id);
      ghost var checked := course;
      ExtendsFurther(old(course), guarded, checked);
      var server := FindServer(store.data.profiles, id);
      if server.None? || !Ready(server.value) {
        return false;
      }
      ok := SelectReady(id, fault);
      ExtendsFurther(old(course), checked, course);
    }
  }
}
