// The controller under concurrency: Start and Stop hold the operation lock over
// several sections, while one goroutine per child waits for it, children exit
// and timers fire in between.
module EngineRuns {
  import opened Wrappers
  import Sets
  import opened Engine

  type ConfigText = string

  // Where the holder of the operation lock stands; Idle when nobody holds it.
  datatype Op =
    | Idle
    | StartCalled(config: ConfigText)             // lock taken
    | Preparing(config: ConfigText)               // Starting, configuration not yet written
    | Checking(config: ConfigText)                // configuration file written
    | Spawned(config: ConfigText, child: Child)   // child runs, not yet published
    | Grace(config: ConfigText, child: Child)     // published, waiting for done or the timer
    | SawExit(config: ConfigText, child: Child)   // done received, status not yet read
    | StartFailing(config: ConfigText)            // about to run fail
    | StopCalled
    | Signalling(target: Option<Child>)       // Stopping, child not yet signalled
    | Draining(child: Child)                  // waiting for done or the timer
    | Killed(child: Child)                    // waiting for done
    | StopFailing(target: Option<Child>)      // about to run fail

  // Where the wait goroutine of a child stands.
  datatype Waiter = Blocked | Reaped | Closing | Closed

  datatype Machine = Machine(
    shared: Shared, op: Op, file: Option<ConfigText>, spawned: nat,
    alive: set<Child>, waiters: map<Child, Waiter>, configs: map<Child, ConfigText>,
    orphans: set<Child>,  // children dropped after a final Kill that failed
    // How the last call ended, and what its last section left: the state, and
    // the configuration of the tracked child.
    last: Outcome, seen: Phase, ran: Option<ConfigText>)

  datatype Event =
    | CallStart(config: ConfigText) | EnterStart(found: bool) | WriteConfig(ok: bool) | Spawn(ok: bool)
    | Publish(pid: nat, now: string) | SeeDone | ReadAfterExit(found: bool) | GraceOver
    | FailStart(message: string) | CallStop | EnterStop | Signal | StopTimeout(killed: bool)
    | FailStop(message: string) | ReadStatus(found: bool)
    | ChildExits(child: Child) | WaitReturns(child: Child) | WaitFinishes(child: Child, diagnostic: string)
    | DoneCloses(child: Child)

  function Initial(found: bool): Machine {
    Machine(Refreshed(Shared(Status(Unavailable, false, 0, "", ""), None, None), found),
            Idle, None, 0, {}, map[], map[], {}, Nothing, Unavailable, None)
  }

  // The configuration of the tracked child.
  function Tracked(m: Machine): Option<ConfigText> {
    if m.shared.command.Some? && m.shared.command.value in m.configs
    then Some(m.configs[m.shared.command.value]) else None
  }

  // The call returns from the section that left these fields.
  function Returned(m: Machine, outcome: Outcome): Machine {
    m.(op := Idle, last := outcome, seen := m.shared.status.state, ran := Tracked(m))
  }

  predicate DoneClosed(m: Machine, c: Child) { c in m.waiters && m.waiters[c] == Closed }

  predicate Enabled(m: Machine, e: Event) {
    match e
    case CallStart(_) => m.op.Idle?
    case EnterStart(_) => m.op.StartCalled?
    case WriteConfig(_) => m.op.Preparing?
    case Spawn(_) => m.op.Checking?
    case Publish(pid, _) => m.op.Spawned? && pid > 0
    case SeeDone => (m.op.Grace? || m.op.Draining? || m.op.Killed?) && DoneClosed(m, m.op.child)
    case ReadAfterExit(_) => m.op.SawExit?
    case GraceOver => m.op.Grace?
    case FailStart(_) => m.op.StartFailing?
    case CallStop => m.op.Idle?
    case EnterStop => m.op.StopCalled?
    case Signal => m.op.Signalling?
    case StopTimeout(_) => m.op.Draining?
    case FailStop(_) => m.op.StopFailing?
    case ReadStatus(_) => true
    case ChildExits(c) => c in m.alive
    case WaitReturns(c) => c in m.waiters && m.waiters[c] == Blocked && c !in m.alive
    case WaitFinishes(c, _) => c in m.waiters && m.waiters[c] == Reaped
    case DoneCloses(c) => c in m.waiters && m.waiters[c] == Closing
  }

  function Step(m: Machine, e: Event): Machine
    requires Enabled(m, e)
  {
    match e
    case CallStart(config) => m.(op := StartCalled(config), last := Nothing)
    case EnterStart(found) =>
      var reply := StartReply(m.shared, found);
      var entered := m.(shared := StartEntered(m.shared, found));
      if reply == Proceed then entered.(op := Preparing(m.op.config))
      else Returned(entered, StartRefused(reply))
    case WriteConfig(ok) =>
      if ok then m.(file := Some(m.op.config), op := Checking(m.op.config)) else m.(op := StartFailing(m.op.config))
    case Spawn(ok) =>
      if !ok || m.file.None? then m.(op := StartFailing(m.op.config))
      else m.(op := Spawned(m.op.config, m.spawned), spawned := m.spawned + 1, alive := m.alive + {m.spawned},
              configs := m.configs[m.spawned := m.file.value])
    case Publish(pid, now) =>
      m.(shared := Published(m.shared, m.op.child, pid, now), op := Grace(m.op.config, m.op.child),
         waiters := m.waiters[m.op.child := Blocked])
    case SeeDone =>
      if m.op.Grace? then m.(op := SawExit(m.op.config, m.op.child)) else Returned(m, StopDone)
    case ReadAfterExit(found) => Returned(m.(shared := StatusRead(m.shared, found)), StartFailed)
    case GraceOver =>
      var confirmed := Confirmed(m.shared, m.op.child);
      Returned(m.(shared := confirmed), if confirmed.status.state == Connected then Started else StartFailed)
    case FailStart(message) => Returned(m.(shared := Broken(m.shared, message)), StartFailed)
    case CallStop => m.(op := StopCalled, last := Nothing)
    case EnterStop =>
      var reply := StopReply(m.shared);
      var entered := m.(shared := StopEntered(m.shared));
      if reply == Proceed then entered.(op := Signalling(m.shared.command))
      else Returned(entered, if reply == Cleared then StopDone else StopRefused)
    case Signal =>
      if m.op.target.None? then m.(op := StopFailing(None)) else m.(op := Draining(m.op.target.value))
    case StopTimeout(killed) =>
      if killed then m.(op := Killed(m.op.child)) else m.(op := StopFailing(Some(m.op.child)))
    case FailStop(message) =>
      var orphans := if m.op.target.Some? then m.orphans + {m.op.target.value} else m.orphans;
      Returned(m.(shared := Broken(m.shared, message), orphans := orphans), StopFailed)
    case ReadStatus(found) => m.(shared := StatusRead(m.shared, found))
    case ChildExits(c) => m.(alive := m.alive - {c})
    case WaitReturns(c) => m.(waiters := m.waiters[c := Reaped])
    case WaitFinishes(c, diagnostic) =>
      m.(shared := Waited(m.shared, c, diagnostic), waiters := m.waiters[c := Closing])
    case DoneCloses(c) => m.(waiters := m.waiters[c := Closed])
  }

  // ---------- the invariant ----------

  function State(m: Machine): Phase { m.shared.status.state }

  // The child's goroutine has been through its section.
  predicate PastSection(m: Machine, c: Child) {
    c in m.waiters && (m.waiters[c] == Closing || m.waiters[c] == Closed)
  }

  predicate AtRest(m: Machine) {
    State(m) != Starting && State(m) != Stopping && (State(m) == Connected ==> m.shared.command.Some?)
  }

  // What the lock holder's position says about the guarded fields.
  predicate OpAgrees(m: Machine) {
    match m.op
    case Idle => AtRest(m)
    case StartCalled(_) => AtRest(m)
    case StopCalled => AtRest(m)
    case Preparing(_) => State(m) == Starting && m.shared.command == None
    case Checking(config) => State(m) == Starting && m.shared.command == None && m.file == Some(config)
    case StartFailing(_) => State(m) == Starting && m.shared.command == None
    case Spawned(config, c) =>
      State(m) == Starting && m.shared.command == None && c !in m.waiters && c !in m.orphans
      && c in m.configs && m.configs[c] == config && m.file == Some(config)
    case Grace(config, c) =>
      c in m.configs && m.configs[c] == config
      && ((State(m) == Starting && m.shared.command == Some(c))
          || (State(m) == Failed && m.shared.command == None && PastSection(m, c)))
    case SawExit(_, c) => State(m) == Failed && m.shared.command == None && PastSection(m, c)
    case Signalling(target) => target.Some? && Ending(m, target.value)
    case Draining(c) => Ending(m, c)
    case Killed(c) => Ending(m, c)
    case StopFailing(target) => target.Some? && Ending(m, target.value)
  }

  predicate Ending(m: Machine, c: Child) {
    || (State(m) == Stopping && m.shared.command == Some(c))
    || (State(m) == Stopped && m.shared.command == None && PastSection(m, c))
  }

  // A child that may be alive is tracked, about to be, or was dropped by a failed kill.
  predicate Accounted(m: Machine, c: Child) {
    m.shared.command == Some(c) || c in m.orphans || (m.op.Spawned? && m.op.child == c)
  }

  predicate Inv(m: Machine) {
    && (m.shared.status.pid > 0 <==> m.shared.command.Some?)
    && m.shared.done == m.shared.command
    && (!IsActive(State(m)) ==> m.shared.command == None)
    && OpAgrees(m)
    && (forall c :: c in m.alive ==> c < m.spawned && Accounted(m, c))
    && (forall c :: c in m.alive && c in m.waiters ==> m.waiters[c] == Blocked)
    && (forall c :: c in m.waiters ==> c < m.spawned)
    && (forall c :: c in m.orphans ==> c < m.spawned)
    && (m.op.Spawned? ==> m.op.child < m.spawned)
    && (m.shared.command.Some? ==>
          var c := m.shared.command.value;
          c in m.configs && c in m.waiters && (m.waiters[c] == Blocked || m.waiters[c] == Reaped) && c !in m.orphans
          && m.file == Some(m.configs[c]))
  }

  lemma InitialHolds(found: bool)
    ensures Inv(Initial(found))
  {}

  lemma StartStepKeepsInv(m: Machine, e: Event)
    requires Inv(m) && Enabled(m, e)
    requires e.CallStart? || e.EnterStart? || e.WriteConfig? || e.Spawn? || e.FailStart?
    ensures Inv(Step(m, e))
  {}

  lemma GraceStepKeepsInv(m: Machine, e: Event)
    requires Inv(m) && Enabled(m, e)
    requires e.Publish? || e.GraceOver? || e.SeeDone? || e.ReadAfterExit? || e.ReadStatus?
    ensures Inv(Step(m, e))
  {}

  lemma StopStepKeepsInv(m: Machine, e: Event)
    requires Inv(m) && Enabled(m, e)
    requires e.CallStop? || e.EnterStop? || e.Signal?
    ensures Inv(Step(m, e))
  {}

  lemma KillStepKeepsInv(m: Machine, e: Event)
    requires Inv(m) && Enabled(m, e) && (e.StopTimeout? || e.FailStop?)
    ensures Inv(Step(m, e))
  {}

  lemma ChildStepKeepsInv(m: Machine, e: Event)
    requires Inv(m) && Enabled(m, e)
    requires e.ChildExits? || e.WaitReturns? || e.DoneCloses?
    ensures Inv(Step(m, e))
  {}

  lemma WaitStepKeepsInv(m: Machine, e: Event)
    requires Inv(m) && Enabled(m, e) && e.WaitFinishes?
    ensures Inv(Step(m, e))
  {}

  // Every atomic step keeps the invariant.
  lemma StepKeepsInv(m: Machine, e: Event)
    requires Inv(m) && Enabled(m, e)
    ensures Inv(Step(m, e))
  {
    match e
    case CallStart(_) => StartStepKeepsInv(m, e);
    case EnterStart(_) => StartStepKeepsInv(m, e);
    case WriteConfig(_) => StartStepKeepsInv(m, e);
    case Spawn(_) => StartStepKeepsInv(m, e);
    case FailStart(_) => StartStepKeepsInv(m, e);
    case Publish(_, _) => GraceStepKeepsInv(m, e);
    case GraceOver => GraceStepKeepsInv(m, e);
    case SeeDone => GraceStepKeepsInv(m, e);
    case ReadAfterExit(_) => GraceStepKeepsInv(m, e);
    case ReadStatus(_) => GraceStepKeepsInv(m, e);
    case CallStop => StopStepKeepsInv(m, e);
    case EnterStop => StopStepKeepsInv(m, e);
    case Signal => StopStepKeepsInv(m, e);
    case StopTimeout(_) => KillStepKeepsInv(m, e);
    case FailStop(_) => KillStepKeepsInv(m, e);
    case WaitFinishes(_, _) => WaitStepKeepsInv(m, e);
    case _ => ChildStepKeepsInv(m, e);
  }

  // ---------- runs ----------

  predicate Possible(m: Machine, events: seq<Event>)
    decreases |events|
  {
    events == [] || (Enabled(m, events[0]) && Possible(Step(m, events[0]), events[1..]))
  }

  function RunFrom(m: Machine, events: seq<Event>): Machine
    requires Possible(m, events)
    decreases |events|
  {
    if events == [] then m else RunFrom(Step(m, events[0]), events[1..])
  }

  lemma {:induction false} EveryRunKeepsInv(m: Machine, events: seq<Event>)
    requires Inv(m) && Possible(m, events)
    ensures Inv(RunFrom(m, events))
    decreases |events|
  {
    if events != [] {
      StepKeepsInv(m, events[0]);
      EveryRunKeepsInv(Step(m, events[0]), events[1..]);
    }
  }

  // No more children live than one and the ones a failed kill let go.
  lemma AliveAreBounded(m: Machine)
    requires Inv(m)
    ensures |m.alive| <= 1 + |m.orphans|
  {
    var current := if m.op.Spawned? then {m.op.child}
                   else if m.shared.command.Some? then {m.shared.command.value} else {};
    assert m.alive <= current + m.orphans;
    Sets.SubsetIsSmaller(m.alive, current + m.orphans);
  }

  // In every interleaving: the PID names the tracked child, a controller that is
  // not active tracks none, Starting and Stopping last only while the operation
  // lock is held, Stop never finds its child missing, and the children alive are
  // bounded.
  lemma ControllerIsSafe(found: bool, events: seq<Event>)
    requires Possible(Initial(found), events)
    ensures var m := RunFrom(Initial(found), events);
      && (m.shared.status.pid > 0 <==> m.shared.command.Some?)
      && (!IsActive(State(m)) ==> m.shared.command == None)
      && (State(m) == Starting || State(m) == Stopping ==> m.op != Idle)
      && (m.op.Signalling? ==> m.op.target.Some?)
      && |m.alive| <= 1 + |m.orphans|
  {
    InitialHolds(found);
    EveryRunKeepsInv(Initial(found), events);
    AliveAreBounded(RunFrom(Initial(found), events));
  }

  // ---------- how many children live ----------

  // No child that a failed kill let go is still alive, and no kill has just failed.
  predicate NoneAtLarge(m: Machine) { m.orphans * m.alive == {} && !m.op.StopFailing? }

  lemma StepKeepsNoneAtLarge(m: Machine, e: Event)
    requires Inv(m) && Enabled(m, e) && NoneAtLarge(m) && e != StopTimeout(false)
    ensures NoneAtLarge(Step(m, e))
  {}

  lemma NoneAtLargeMeansOne(m: Machine)
    requires Inv(m) && NoneAtLarge(m)
    ensures |m.alive| <= 1
  {
    var current := if m.op.Spawned? then {m.op.child}
                   else if m.shared.command.Some? then {m.shared.command.value} else {};
    assert m.alive <= current;
    Sets.SubsetIsSmaller(m.alive, current);
  }

  lemma {:induction false} NoneAtLargeStays(m: Machine, events: seq<Event>)
    requires Inv(m) && NoneAtLarge(m) && Possible(m, events) && StopTimeout(false) !in events
    ensures Inv(RunFrom(m, events)) && NoneAtLarge(RunFrom(m, events))
    decreases |events|
  {
    if events != [] {
      assert events[0] in events;
      StepKeepsInv(m, events[0]);
      StepKeepsNoneAtLarge(m, events[0]);
      NoneAtLargeStays(Step(m, events[0]), events[1..]);
    }
  }

  lemma {:induction false} RunExtends(m: Machine, events: seq<Event>, e: Event)
    requires Possible(m, events) && Enabled(RunFrom(m, events), e)
    ensures Possible(m, events + [e]) && RunFrom(m, events + [e]) == Step(RunFrom(m, events), e)
    decreases |events|
  {
    if events == [] {
      assert events + [e] == [e] && [e][1..] == [];
    } else {
      assert (events + [e])[1..] == events[1..] + [e];
      RunExtends(Step(m, events[0]), events[1..], e);
    }
  }

  // A run leads from one machine to the other, in which a final kill may fail or not.
  ghost predicate Reaches(m: Machine, n: Machine, kills: bool) {
    exists events :: Possible(m, events) && RunFrom(m, events) == n && (StopTimeout(false) in events ==> kills)
  }

  lemma ReachesItself(m: Machine, kills: bool)
    ensures Reaches(m, m, kills)
  {
    assert Possible(m, []) && RunFrom(m, []) == m;
  }

  lemma Reach(m: Machine, n: Machine, kills: bool, e: Event) returns (next: Machine)
    requires Reaches(m, n, kills) && Enabled(n, e) && (e == StopTimeout(false) ==> kills)
    ensures Reaches(m, next, kills) && next == Step(n, e)
  {
    var events :| Possible(m, events) && RunFrom(m, events) == n && (StopTimeout(false) in events ==> kills);
    RunExtends(m, events, e);
    next := Step(n, e);
  }

  lemma ReachSpawn(m: Machine, n: Machine, kills: bool) returns (last: Machine)
    requires Reaches(m, n, kills) && n.op == Idle && !IsActive(State(n))
    ensures Reaches(m, last, kills) && last.op.Spawned? && last.op.child == n.spawned && State(last) == Starting
    ensures last.alive == n.alive + {n.spawned} && last.spawned == n.spawned + 1
  {
    last := Reach(m, n, kills, CallStart("{}"));
    last := Reach(m, last, kills, EnterStart(true));
    last := Reach(m, last, kills, WriteConfig(true));
    last := Reach(m, last, kills, Spawn(true));
  }

  lemma ReachConnected(m: Machine, n: Machine, kills: bool) returns (last: Machine)
    requires Reaches(m, n, kills) && n.op.Spawned? && State(n) == Starting
    ensures Reaches(m, last, kills) && last.op == Idle && State(last) == Connected
    ensures last.shared.command == Some(n.op.child) && last.alive == n.alive && last.spawned == n.spawned
  {
    last := Reach(m, n, kills, Publish(1, ""));
    last := Reach(m, last, kills, GraceOver);
  }

  lemma ReachLoss(m: Machine, n: Machine) returns (last: Machine)
    requires Reaches(m, n, true) && n.op == Idle && State(n) == Connected && n.shared.command.Some?
    ensures Reaches(m, last, true) && last.op == Idle && State(last) == Failed
    ensures last.alive == n.alive && last.spawned == n.spawned
  {
    last := Reach(m, n, true, CallStop);
    last := Reach(m, last, true, EnterStop);
    last := Reach(m, last, true, Signal);
    last := Reach(m, last, true, StopTimeout(false));
    last := Reach(m, last, true, FailStop(""));
  }

  // The tracked child of an idle controller has died: its goroutine clears it.
  lemma ReachCleared(m: Machine, n: Machine, kills: bool) returns (last: Machine)
    requires Reaches(m, n, kills) && Inv(n) && n.op == Idle && State(n) == Connected
    requires n.shared.command.Some? && n.shared.command.value !in n.alive
    ensures Reaches(m, last, kills) && last.op == Idle && State(last) == Failed
    ensures last.alive == n.alive && last.spawned == n.spawned
  {
    var c := n.shared.command.value;
    last := n;
    if last.waiters[c] == Blocked {
      last := Reach(m, last, kills, WaitReturns(c));
    }
    last := Reach(m, last, kills, WaitFinishes(c, ""));
  }

  lemma TwoElements<T>(s: set<T>, a: T, b: T)
    requires a in s && b in s && a != b
    ensures |s| >= 2
  {
    assert |{a, b}| == 2;
    Sets.SubsetIsSmaller({a, b}, s);
  }

  // Beside a child at large, the next start lets a second one live.
  lemma AtLargeLetsTwoLive(m: Machine, orphan: Child) returns (n: Machine)
    requires Inv(m) && m.op == Idle && orphan in m.orphans && orphan in m.alive
    ensures Reaches(m, n, false) && |n.alive| >= 2
  {
    ReachesItself(m, false);
    n := m;
    if IsActive(State(m)) {
      var c := m.shared.command.value;
      if c in m.alive {
        TwoElements(m.alive, orphan, c);
        return;
      }
      n := ReachCleared(m, n, false);
    }
    n := ReachSpawn(m, n, false);
    TwoElements(n.alive, orphan, m.spawned);
  }

  // Between two calls: as long as no further final kill fails, at most one child
  // is ever alive exactly when every child that a failed kill let go has exited.
  lemma OneChildExactly(m: Machine)
    requires Inv(m) && m.op == Idle
    ensures m.orphans * m.alive == {} <==>
      forall events :: Possible(m, events) && StopTimeout(false) !in events ==> |RunFrom(m, events).alive| <= 1
  {
    if m.orphans * m.alive == {} {
      forall events | Possible(m, events) && StopTimeout(false) !in events ensures |RunFrom(m, events).alive| <= 1 {
        NoneAtLargeStays(m, events);
        NoneAtLargeMeansOne(RunFrom(m, events));
      }
    } else {
      var orphan :| orphan in m.orphans * m.alive;
      var n := AtLargeLetsTwoLive(m, orphan);
      var events :| Possible(m, events) && RunFrom(m, events) == n && StopTimeout(false) !in events;
    }
  }

  // The same after any run from a new controller that stands between two calls.
  lemma OneChildAfterAnyRunExactly(found: bool, past: seq<Event>)
    requires Possible(Initial(found), past) && RunFrom(Initial(found), past).op == Idle
    ensures var m := RunFrom(Initial(found), past);
      m.orphans * m.alive == {} <==>
      forall events :: Possible(m, events) && StopTimeout(false) !in events ==> |RunFrom(m, events).alive| <= 1
  {
    InitialHolds(found);
    EveryRunKeepsInv(Initial(found), past);
    OneChildExactly(RunFrom(Initial(found), past));
  }

  // In particular, in a run in which no final kill fails.
  lemma AtMostOneChild(found: bool, events: seq<Event>)
    requires Possible(Initial(found), events) && StopTimeout(false) !in events
    ensures |RunFrom(Initial(found), events).alive| <= 1
  {
    InitialHolds(found);
    OneChildExactly(Initial(found));
  }

  // At every moment of a run at most one child is alive.
  predicate NeverTwo(m: Machine, events: seq<Event>)
    requires Possible(m, events)
    decreases |events|
  {
    |m.alive| <= 1 && (events == [] || NeverTwo(Step(m, events[0]), events[1..]))
  }

  // Every spawn of a run finds no child alive.
  predicate SpawnsAlone(m: Machine, events: seq<Event>)
    requires Possible(m, events)
    decreases |events|
  {
    events == [] || ((events[0] == Spawn(true) ==> m.alive == {}) && SpawnsAlone(Step(m, events[0]), events[1..]))
  }

  lemma StepKeepsOneExactly(m: Machine, e: Event)
    requires Inv(m) && Enabled(m, e) && |m.alive| <= 1
    ensures |Step(m, e).alive| <= 1 <==> (e == Spawn(true) ==> m.alive == {})
  {
    if e.ChildExits? {
      Sets.SubsetIsSmaller(m.alive - {e.child}, m.alive);
    } else if e == Spawn(true) {
      assert m.spawned !in m.alive;
      assert |m.alive + {m.spawned}| == |m.alive| + 1;
      assert m.alive != {} ==> |m.alive| >= 1;
    }
  }

  // Over every run, failed kills or not: two children never live at once exactly
  // when every spawn finds none alive.
  lemma {:induction false} NeverTwoExactly(m: Machine, events: seq<Event>)
    requires Inv(m) && |m.alive| <= 1 && Possible(m, events)
    ensures NeverTwo(m, events) <==> SpawnsAlone(m, events)
    decreases |events|
  {
    if events != [] {
      StepKeepsInv(m, events[0]);
      StepKeepsOneExactly(m, events[0]);
      if |Step(m, events[0]).alive| <= 1 {
        NeverTwoExactly(Step(m, events[0]), events[1..]);
      }
    }
  }

  // A failed kill does let two children live: start, stop with a kill that
  // fails, start again.
  lemma FailedKillLetsTwoLive()
    ensures exists m :: Reaches(Initial(true), m, true) && |m.alive| == 2
  {
    var start := Initial(true);
    ReachesItself(start, true);
    var m := ReachSpawn(start, start, true);
    m := ReachConnected(start, m, true);
    m := ReachLoss(start, m);
    m := ReachSpawn(start, m, true);
    assert m.alive == {0, 1};
  }

  // ---------- what the callers learn ----------

  // Start reports success only on a connected child that runs the very
  // configuration it was given.
  lemma StartedMeansConnected(m: Machine, e: Event)
    requires Inv(m) && Enabled(m, e) && m.op.Grace? && Step(m, e).last == Started && m.last != Started
    ensures var after := Step(m, e);
      && State(after) == Connected && after.shared.command == Some(m.op.child) && after.shared.status.pid > 0
      && after.configs[m.op.child] == m.op.config
  {}

  // Stop reports success only on a stopped engine that tracks no child.
  lemma StopDoneMeansStopped(m: Machine, e: Event)
    requires Inv(m) && Enabled(m, e) && (m.op.StopCalled? || m.op.Draining? || m.op.Killed?)
    requires Step(m, e).op == Idle
    ensures var after := Step(m, e); !IsActive(State(after)) && after.shared.command == None
    ensures Step(m, e).last == StopDone ==> State(Step(m, e)) == Stopped
  {}

  // In every interleaving, whoever is told of success finds what was promised.
  lemma SuccessIsReal(found: bool, events: seq<Event>, e: Event)
    requires Possible(Initial(found), events) && Enabled(RunFrom(Initial(found), events), e)
    ensures var m := RunFrom(Initial(found), events); var after := Step(m, e);
      && (m.op.Grace? && m.last != Started && after.last == Started ==>
            State(after) == Connected && after.shared.command == Some(m.op.child)
            && m.op.child in after.configs && after.configs[m.op.child] == m.op.config)
      && ((m.op.StopCalled? || m.op.Draining? || m.op.Killed?) && after.op == Idle ==>
            !IsActive(State(after)) && after.shared.command == None
            && (after.last == StopDone ==> State(after) == Stopped))
  {
    InitialHolds(found);
    EveryRunKeepsInv(Initial(found), events);
    var m := RunFrom(Initial(found), events);
    if m.op.Grace? && m.last != Started && Step(m, e).last == Started { StartedMeansConnected(m, e); }
    if (m.op.StopCalled? || m.op.Draining? || m.op.Killed?) && Step(m, e).op == Idle { StopDoneMeansStopped(m, e); }
  }

  // ---------- what the status shows ----------

  // An error stands only in a failed or unavailable status, and a start time only
  // beside a PID.
  predicate PlainStatus(s: Status) {
    && (s.state != Failed && s.state != Unavailable ==> s.error == "")
    && (s.state == Unavailable ==> s.error == "sing-box executable was not found")
    && (s.state == Unavailable <==> !s.available)
    && (s.pid == 0 ==> s.startedAt == "")
  }

  lemma LookingKeepsPlain(s: Shared, found: bool)
    requires PlainStatus(s.status)
    ensures PlainStatus(Refreshed(s, found).status) && PlainStatus(StatusRead(s, found).status)
    ensures PlainStatus(StartEntered(s, found).status)
  {}

  lemma ChildKeepsPlain(s: Shared, c: Child, pid: nat, now: string, diagnostic: string)
    requires PlainStatus(s.status) && pid > 0
    ensures PlainStatus(Published(s, c, pid, now).status) && PlainStatus(Confirmed(s, c).status)
    ensures s.status.state != Unavailable ==> PlainStatus(Waited(s, c, diagnostic).status)
  {}

  lemma StoppingKeepsPlain(s: Shared, message: string)
    requires PlainStatus(s.status)
    ensures PlainStatus(StopEntered(s).status)
    ensures s.status.state != Unavailable ==> PlainStatus(Broken(s, message).status)
  {}

  lemma TrackedIsAvailable(m: Machine)
    requires Inv(m) && State(m) == Unavailable
    ensures m.shared.command.None? && !m.op.StartFailing? && !m.op.StopFailing?
  {}

  lemma StepKeepsPlainStatus(m: Machine, e: Event)
    requires Inv(m) && Enabled(m, e) && PlainStatus(m.shared.status)
    ensures PlainStatus(Step(m, e).shared.status)
  {
    if State(m) == Unavailable { TrackedIsAvailable(m); }
    match e
    case EnterStart(found) => LookingKeepsPlain(m.shared, found);
    case ReadAfterExit(found) => LookingKeepsPlain(m.shared, found);
    case ReadStatus(found) => LookingKeepsPlain(m.shared, found);
    case Publish(pid, now) => ChildKeepsPlain(m.shared, m.op.child, pid, now, "");
    case GraceOver => ChildKeepsPlain(m.shared, m.op.child, 1, "", "");
    case WaitFinishes(c, diagnostic) => ChildKeepsPlain(m.shared, c, 1, "", diagnostic);
    case EnterStop => StoppingKeepsPlain(m.shared, "");
    case FailStart(message) => StoppingKeepsPlain(m.shared, message);
    case FailStop(message) => StoppingKeepsPlain(m.shared, message);
    case _ =>
  }

  lemma {:induction false} StatusStaysPlain(m: Machine, events: seq<Event>)
    requires Inv(m) && PlainStatus(m.shared.status) && Possible(m, events)
    ensures PlainStatus(RunFrom(m, events).shared.status)
    decreases |events|
  {
    if events != [] {
      StepKeepsInv(m, events[0]);
      StepKeepsPlainStatus(m, events[0]);
      StatusStaysPlain(Step(m, events[0]), events[1..]);
    }
  }

  // Start goes on exactly when nothing is active and the binary is there, and ends
  // connected exactly when its child is still tracked at the end of the grace.
  lemma StartMoves(m: Machine, e: Event)
    requires Inv(m) && Enabled(m, e)
    ensures e.EnterStart? ==>
      var after := Step(m, e);
      if State(m) == Starting || State(m) == Connected || State(m) == Stopping
      then after.shared == m.shared && after.op == Idle && after.last == StartRefused(AlreadyRunning)
      else if !e.found then State(after) == Unavailable && after.op == Idle && after.last == StartRefused(NotAvailable)
      else after.shared.status == Status(Starting, true, 0, "", "") && after.op == Preparing(m.op.config)
    ensures e.GraceOver? ==>
      var after := Step(m, e);
      && after.op == Idle
      && if m.shared.command == Some(m.op.child)
         then after.shared == m.shared.(status := m.shared.status.(state := Connected)) && after.last == Started
         else after.shared == m.shared && after.last == StartFailed
  {}

  // Looking at an unavailable engine finds it stopped when the binary is back, and
  // changes nothing else.
  lemma LookMoves(m: Machine, e: Event)
    requires Inv(m) && Enabled(m, e) && (e.ReadStatus? || e.ReadAfterExit?)
    ensures var after := Step(m, e).shared;
      if State(m) == Unavailable && e.found then after.status == Status(Stopped, true, 0, "", "")
      else after.status.state == State(m) && (State(m) != Unavailable ==> after == m.shared)
    ensures e.ReadAfterExit? ==> Step(m, e).op == Idle && Step(m, e).last == StartFailed
  {}

  // Stop refuses what is down, clears what has failed, and otherwise goes on.
  lemma StopMoves(m: Machine, e: Event)
    requires Inv(m) && Enabled(m, e) && e.EnterStop?
    ensures var after := Step(m, e);
      if State(m) == Unavailable || State(m) == Stopped
      then after.shared == m.shared && after.op == Idle && after.last == StopRefused
      else if State(m) == Failed
      then State(after) == Stopped && after.shared.status.error == "" && after.op == Idle && after.last == StopDone
      else after.shared == m.shared.(status := m.shared.status.(state := Stopping))
           && after.op == Signalling(m.shared.command)
  {}

  // When a child has ended, the controller that tracks it drops it and is stopped
  // if it was stopping and failed otherwise; any other child changes nothing.
  lemma ExitMoves(m: Machine, e: Event)
    requires Inv(m) && Enabled(m, e) && e.WaitFinishes?
    ensures var after := Step(m, e).shared;
      if m.shared.command != Some(e.child) then after == m.shared
      else
        && after.command == None && after.status.pid == 0 && after.status.startedAt == ""
        && (if State(m) == Stopping then after.status.state == Stopped && after.status.error == ""
            else after.status.state == Failed && after.status.error == e.diagnostic)
  {}

  // A status fails only with the diagnostic of the tracked child or with the message
  // of the call that failed, and then stays as it is until the next call.
  lemma FailureIsExplained(m: Machine, e: Event)
    requires Inv(m) && Enabled(m, e) && State(Step(m, e)) == Failed
    ensures var before, after := m.shared, Step(m, e).shared;
      if before.status.state == Failed then after.status == before.status
      else || (e.WaitFinishes? && before.command == Some(e.child) && after.status.error == e.diagnostic)
           || ((e.FailStart? || e.FailStop?) && after.status.error == e.message)
  {}

  // PID and start time are the ones published with the tracked child, as long as
  // it is tracked.
  lemma PidIsPublished(m: Machine, e: Event)
    requires Inv(m) && Enabled(m, e) && Step(m, e).shared.command.Some?
    ensures var before, after := m.shared, Step(m, e).shared;
      if after.command == before.command
      then after.status.pid == before.status.pid && after.status.startedAt == before.status.startedAt
      else e.Publish? && after.command == Some(m.op.child) && after.status.pid == e.pid
           && after.status.startedAt == e.now
  {}

  // In every interleaving: an error only where there is one, and PID and start
  // time only beside a tracked child.
  lemma StatusIsPlain(found: bool, events: seq<Event>)
    requires Possible(Initial(found), events)
    ensures var m := RunFrom(Initial(found), events); var status := m.shared.status;
      && (status.error != "" ==> status.state == Failed || status.state == Unavailable)
      && (status.state == Unavailable ==> !status.available && status.error == "sing-box executable was not found")
      && (status.state != Unavailable ==> status.available)
      && (m.shared.command.None? ==> status.pid == 0 && status.startedAt == "")
  {
    InitialHolds(found);
    EveryRunKeepsInv(Initial(found), events);
    StatusStaysPlain(Initial(found), events);
  }

  // ---------- a whole call is one of the runs ----------

  predicate Internal(e: Event) { !e.CallStart? && !e.CallStop? }

  // One machine becomes the other without a further call.
  ghost predicate Leads(m: Machine, n: Machine) {
    exists events :: Possible(m, events) && RunFrom(m, events) == n && forall e :: e in events ==> Internal(e)
  }

  lemma LeadsNowhere(m: Machine)
    ensures Leads(m, m)
  {
    assert Possible(m, []) && RunFrom(m, []) == m;
  }

  lemma Then(m: Machine, n: Machine, e: Event) returns (next: Machine)
    requires Leads(m, n) && Enabled(n, e) && Internal(e)
    ensures next == Step(n, e) && Leads(m, next)
  {
    var events :| Possible(m, events) && RunFrom(m, events) == n && forall e :: e in events ==> Internal(e);
    RunExtends(m, events, e);
    next := Step(n, e);
    assert forall k :: k in events + [e] ==> k in events || k == e;
  }

  // The tracked child dies, and its goroutine returns from waiting.
  lemma ChildDies(m: Machine, n: Machine, c: Child) returns (last: Machine)
    requires Leads(m, n) && Inv(n) && n.shared.command == Some(c)
    ensures Leads(m, last) && Inv(last) && c in last.waiters && last.waiters[c] == Reaped
    ensures last == n.(alive := n.alive - {c}, waiters := n.waiters[c := Reaped])
  {
    last := n;
    if c in last.alive {
      StepKeepsInv(last, ChildExits(c));
      last := Then(m, last, ChildExits(c));
    }
    if last.waiters[c] == Blocked {
      StepKeepsInv(last, WaitReturns(c));
      last := Then(m, last, WaitReturns(c));
    }
    assert last.alive == n.alive - {c} && last.waiters == n.waiters[c := Reaped];
  }

  // ... and goes through its section and closes done.
  lemma ChildGoes(m: Machine, n: Machine, c: Child, diagnostic: string) returns (last: Machine)
    requires Leads(m, n) && Inv(n) && n.shared.command == Some(c)
    ensures Leads(m, last) && Inv(last) && DoneClosed(last, c)
    ensures last.shared == Waited(n.shared, c, diagnostic) && last.op == n.op && last.spawned == n.spawned
    ensures last.last == n.last && last.file == n.file
  {
    last := ChildDies(m, n, c);
    StepKeepsInv(last, WaitFinishes(c, diagnostic));
    last := Then(m, last, WaitFinishes(c, diagnostic));
    StepKeepsInv(last, DoneCloses(c));
    last := Then(m, last, DoneCloses(c));
  }

  // From the spawn on, a start publishes its child and waits out the grace.
  lemma GraceIsARun(m: Machine, n: Machine, launch: Launch) returns (last: Machine)
    requires Leads(m, n) && Inv(n) && n.op.Spawned? && launch.pid > 0
    ensures Leads(m, last) && last.op == Idle && last.spawned == n.spawned && last.file == n.file
    ensures var published := Published(n.shared, n.op.child, launch.pid, launch.now);
      if launch.exit.Some?
      then last.shared == Waited(published, n.op.child, launch.exit.value) && last.last == StartFailed
      else last.shared == Confirmed(published, n.op.child) && last.last == Started
  {
    StepKeepsInv(n, Publish(launch.pid, launch.now));
    last := Then(m, n, Publish(launch.pid, launch.now));
    if launch.exit.None? {
      last := Then(m, last, GraceOver);
    } else {
      last := ChildGoes(m, last, n.op.child, launch.exit.value);
      last := Then(m, last, SeeDone);
      last := Then(m, last, ReadAfterExit(launch.found));
    }
  }

  // From its first section on, a start writes the configuration and spawns.
  lemma SpawnIsARun(m: Machine, n: Machine, launch: Launch) returns (last: Machine)
    requires Leads(m, n) && Inv(n) && n.op.Preparing?
    ensures Leads(m, last) && last.file == if launch.written then Some(n.op.config) else n.file
    ensures if launch.Spawned()
      then Inv(last) && last.op == Spawned(n.op.config, n.spawned) && last.shared == n.shared
        && last.spawned == n.spawned + 1
      else last.op == Idle && last.shared == Broken(n.shared, launch.message) && last.last == StartFailed
           && last.spawned == n.spawned
  {
    StepKeepsInv(n, WriteConfig(launch.written));
    last := Then(m, n, WriteConfig(launch.written));
    if launch.written {
      StepKeepsInv(last, Spawn(launch.spawns));
      last := Then(m, last, Spawn(launch.spawns));
    }
    if !launch.Spawned() {
      last := Then(m, last, FailStart(launch.message));
    }
  }

  // The method Start does what the machine can do between call and return.
  lemma StartIsARun(m: Machine, launch: Launch) returns (n: Machine)
    requires Inv(m) && m.op.StartCalled? && launch.pid > 0
    ensures Leads(m, n) && n.op == Idle
    ensures n.shared == AfterStart(m.shared, launch, m.spawned) && n.last == StartOutcome(m.shared, launch)
    ensures n.spawned == m.spawned
                         + (if StartReply(m.shared, launch.found) == Proceed && launch.Spawned() then 1 else 0)
    ensures n.file == if StartReply(m.shared, launch.found) == Proceed && launch.written
                      then Some(m.op.config) else m.file
  {
    LeadsNowhere(m);
    StepKeepsInv(m, EnterStart(launch.found));
    n := Then(m, m, EnterStart(launch.found));
    if n.op.Preparing? {
      n := SpawnIsARun(m, n, launch);
      if launch.Spawned() { n := GraceIsARun(m, n, launch); }
    }
  }

  // From its signal on, a stop waits for the child, kills it, or gives up.
  lemma DrainIsARun(m: Machine, n: Machine, halt: Halt) returns (last: Machine)
    requires Leads(m, n) && Inv(n) && n.op.Draining? && n.shared.command == Some(n.op.child)
    ensures Leads(m, last) && last.op == Idle && last.spawned == n.spawned && last.file == n.file
    ensures if halt.KillFails?
      then last.shared == Broken(n.shared, "kill unresponsive sing-box") && last.last == StopFailed
      else last.shared == Waited(n.shared, n.op.child, "") && last.last == StopDone
  {
    last := n;
    if !halt.ExitsInTime? {
      StepKeepsInv(last, StopTimeout(halt.DiesOfKill?));
      last := Then(m, last, StopTimeout(halt.DiesOfKill?));
    }
    if halt.KillFails? {
      last := Then(m, last, FailStop("kill unresponsive sing-box"));
    } else {
      last := ChildGoes(m, last, n.op.child, "");
      last := Then(m, last, SeeDone);
    }
  }

  lemma StopIsARun(m: Machine, halt: Halt) returns (n: Machine)
    requires Inv(m) && m.op.StopCalled?
    ensures Leads(m, n) && n.op == Idle && n.spawned == m.spawned && n.file == m.file
    ensures n.shared == AfterStop(m.shared, halt) && n.last == StopOutcome(m.shared, halt)
  {
    LeadsNowhere(m);
    StepKeepsInv(m, EnterStop);
    n := Then(m, m, EnterStop);
    if n.op.Signalling? {
      StepKeepsInv(n, Signal);
      n := Then(m, n, Signal);
      n := DrainIsARun(m, n, halt);
    }
  }
}
