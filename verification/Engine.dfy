// internal/engine/process.go: the controller object, one method per section
// that runs under its lock.
module Engine {
  import opened Wrappers

  datatype Phase = Unavailable | Stopped | Starting | Connected | Stopping | Failed

  datatype Status = Status(state: Phase, available: bool, pid: nat, startedAt: string, error: string)

  predicate IsActive(state: Phase) { state == Starting || state == Connected || state == Stopping }

  // A spawned child and its done channel, by order of spawning.
  type Child = nat

  // The fields guarded by the lock.
  datatype Shared = Shared(status: Status, command: Option<Child>, done: Option<Child>)

  datatype Reply = Proceed | AlreadyRunning | NotRunning | NotAvailable | Cleared

  // ---------- the sections, as functions of the guarded fields ----------

  function Refreshed(s: Shared, found: bool): Shared {
    if !found then s.(status := Status(Unavailable, false, 0, "", "sing-box executable was not found"))
    else if s.status.state == Unavailable then s.(status := Status(Stopped, true, 0, "", ""))
    else s.(status := s.status.(available := true))
  }

  function StatusRead(s: Shared, found: bool): Shared {
    if s.status.state == Unavailable then Refreshed(s, found) else s
  }

  function StartReply(s: Shared, found: bool): Reply {
    if IsActive(s.status.state) then AlreadyRunning
    else if !found then NotAvailable else Proceed
  }

  function StartEntered(s: Shared, found: bool): Shared {
    if IsActive(s.status.state) then s
    else if !found then Refreshed(s, false)
    else s.(status := Status(Starting, true, 0, "", ""))
  }

  function Published(s: Shared, c: Child, pid: nat, now: string): Shared {
    Shared(s.status.(pid := pid, startedAt := now), Some(c), Some(c))
  }

  function Confirmed(s: Shared, c: Child): Shared {
    if s.command == Some(c) && s.status.state == Starting then s.(status := s.status.(state := Connected)) else s
  }

  function StopReply(s: Shared): Reply {
    match s.status.state
    case Unavailable => NotRunning
    case Stopped => NotRunning
    case Failed => Cleared
    case _ => Proceed
  }

  function StopEntered(s: Shared): Shared {
    match StopReply(s)
    case NotRunning => s
    case Cleared => s.(status := s.status.(state := Stopped, error := "", pid := 0, startedAt := ""))
    case _ => s.(status := s.status.(state := Stopping))
  }

  function Waited(s: Shared, c: Child, diagnostic: string): Shared {
    if s.command != Some(c) then s
    else
      var cleared := s.status.(pid := 0, startedAt := "");
      Shared(if s.status.state == Stopping then cleared.(state := Stopped, error := "")
             else cleared.(state := Failed, error := diagnostic), None, None)
  }

  function Broken(s: Shared, message: string): Shared {
    Shared(s.status.(state := Failed, error := message, pid := 0, startedAt := ""), None, None)
  }

  // ---------- Start and Stop, as functions of the guarded fields ----------

  datatype Outcome = Nothing | Started | StartRefused(reply: Reply) | StartFailed | StopRefused | StopDone | StopFailed

  // What happens around one call of Start; exit: the child dies within the grace.
  datatype Launch = Launch(
    found: bool, written: bool, spawns: bool, pid: nat, now: string, message: string, exit: Option<string>)
  {
    predicate Spawned() { written && spawns }

    // The binary is there, the file written, and the child up and outliving the grace.
    predicate Succeeds() { found && written && spawns && exit.None? }
  }

  // What the child does around one call of Stop.
  datatype Halt = ExitsInTime | DiesOfKill | KillFails

  function StartOutcome(s: Shared, launch: Launch): Outcome {
    var reply := StartReply(s, launch.found);
    if reply != Proceed then StartRefused(reply)
    else if launch.Spawned() && launch.exit.None? then Started else StartFailed
  }

  function AfterStart(s: Shared, launch: Launch, c: Child): Shared {
    var entered := StartEntered(s, launch.found);
    if StartReply(s, launch.found) != Proceed then entered
    else if !launch.Spawned() then Broken(entered, launch.message)
    else
      var published := Published(entered, c, launch.pid, launch.now);
      if launch.exit.Some? then Waited(published, c, launch.exit.value) else Confirmed(published, c)
  }

  function StopOutcome(s: Shared, halt: Halt): Outcome {
    match StopReply(s)
    case NotRunning => StopRefused
    case Cleared => StopDone
    case _ => if s.command.None? || halt.KillFails? then StopFailed else StopDone
  }

  function AfterStop(s: Shared, halt: Halt): Shared {
    if StopReply(s) != Proceed then StopEntered(s)
    else if s.command.None? then Broken(StopEntered(s), "engine process is missing while marked active")
    else if halt.KillFails? then Broken(StopEntered(s), "kill unresponsive sing-box")
    else Waited(StopEntered(s), s.command.value, "")
  }

  // Whatever the child does, Stop leaves an engine that is not active.
  lemma StopEndsIt(s: Shared, halt: Halt)
    ensures !IsActive(AfterStop(s, halt).status.state)
  {}

  // On a connected engine it fails exactly when the child outlives its final kill,
  // and on a failed one it never does.
  lemma StopFailsExactly(s: Shared, halt: Halt)
    requires s.status.state == Connected ==> s.command.Some?
    ensures s.status.state == Connected ==> (StopOutcome(s, halt) == StopFailed <==> halt.KillFails?)
    ensures s.status.state == Failed ==> StopOutcome(s, halt) != StopFailed
    ensures StopOutcome(s, halt) == StopFailed || StopOutcome(s, halt) == StopDone
        || StopOutcome(s, halt) == StopRefused
  {}

  lemma StartSucceedsExactly(s: Shared, launch: Launch)
    requires StartOutcome(s, launch) != StartRefused(AlreadyRunning)
    ensures StartOutcome(s, launch) == Started <==> launch.Succeeds()
  {}

  // ---------- the object ----------

  class Process {
    var status: Status
    var command: Option<Child>
    var done: Option<Child>
    var spawned: nat           // children started so far; each is named by its turn
    var file: Option<string>   // the configuration file

    function View(): Shared
      reads this
    {
      Shared(status, command, done)
    }

    constructor (found: bool)
      ensures View() == Refreshed(Shared(Status(Unavailable, false, 0, "", ""), None, None), found)
      ensures spawned == 0 && file == None
    {
      status := Status(Unavailable, false, 0, "", "");
      command := None;
      done := None;
      spawned := 0;
      file := None;
      new;
      RefreshAvailability(found);
    }

    // found: whether exec.LookPath finds the binary.
    method RefreshAvailability(found: bool)
      modifies `status, `command, `done
      ensures View() == Refreshed(old(View()), found)
    {
      if !found {
        status := Status(Unavailable, false, 0, "", "sing-box executable was not found");
        return;
      }
      if status.state == Unavailable {
        status := Status(Stopped, true, 0, "", "");
      } else {
        status := status.(available := true);
      }
    }

    method ReadStatus(found: bool) returns (result: Status)
      modifies `status, `command, `done
      ensures View() == StatusRead(old(View()), found) && result == status
    {
      if status.state == Unavailable {
        RefreshAvailability(found);
      }
      return status;
    }

    // Start, up to the release of the lock.
    method EnterStart(found: bool) returns (reply: Reply)
      modifies `status, `command, `done
      ensures View() == StartEntered(old(View()), found) && reply == StartReply(old(View()), found)
    {
      if IsActive(status.state) {
        return AlreadyRunning;
      }
      RefreshAvailability(found);
      if !status.available {
        return NotAvailable;
      }
      status := Status(Starting, true, 0, "", "");
      return Proceed;
    }

    // Start, once the child runs.
    method Publish(c: Child, pid: nat, now: string)
      modifies `status, `command, `done
      ensures View() == Published(old(View()), c, pid, now)
    {
      command := Some(c);
      done := Some(c);
      status := status.(pid := pid);
      status := status.(startedAt := now);
    }

    // Start, when the startup grace is over.
    method Confirm(c: Child) returns (result: Status)
      modifies `status, `command, `done
      ensures View() == Confirmed(old(View()), c) && result == status
    {
      if command == Some(c) && status.state == Starting {
        status := status.(state := Connected);
      }
      return status;
    }

    // Stop, up to the release of the lock, with the child it saw.
    method EnterStop() returns (reply: Reply, target: Option<Child>)
      modifies `status, `command, `done
      ensures View() == StopEntered(old(View())) && reply == StopReply(old(View()))
      ensures reply == Proceed ==> target == old(command)
    {
      target := None;
      match status.state {
        case Unavailable => return NotRunning, None;
        case Stopped => return NotRunning, None;
        case Failed =>
          status := status.(state := Stopped);
          status := status.(error := "");
          status := status.(pid := 0);
          status := status.(startedAt := "");
          return Cleared, None;
        case _ =>
      }
      target := command;
      status := status.(state := Stopping);
      return Proceed, target;
    }

    // wait, once the child has been reaped.
    method FinishWait(c: Child, diagnostic: string)
      modifies `status, `command, `done
      ensures View() == Waited(old(View()), c, diagnostic)
    {
      if command != Some(c) {
        return;
      }
      var wasStopping := status.state == Stopping;
      command := None;
      done := None;
      status := status.(pid := 0);
      status := status.(startedAt := "");
      if wasStopping {
        status := status.(state := Stopped);
        status := status.(error := "");
      } else {
        status := status.(state := Failed);
        status := status.(error := diagnostic);
      }
    }

    method Fail(message: string)
      modifies `status, `command, `done
      ensures View() == Broken(old(View()), message)
    {
      status := status.(state := Failed);
      status := status.(error := message);
      status := status.(pid := 0);
      status := status.(startedAt := "");
      command := None;
      done := None;
    }

    // Start, with nothing but its child's own exit coming in between.
    method Start(config: string, launch: Launch) returns (outcome: Outcome)
      modifies this
      ensures View() == AfterStart(old(View()), launch, old(spawned))
      ensures outcome == StartOutcome(old(View()), launch)
      ensures spawned == old(spawned)
                         + (if StartReply(old(View()), launch.found) == Proceed && launch.Spawned() then 1 else 0)
      ensures file ==
        if StartReply(old(View()), launch.found) == Proceed && launch.written then Some(config) else old(file)
    {
      var reply := EnterStart(launch.found);
      if reply != Proceed {
        return StartRefused(reply);
      }
      if !launch.written {
        Fail(launch.message);
        return StartFailed;
      }
      file := Some(config);
      if !launch.spawns {
        Fail(launch.message);
        return StartFailed;
      }
      var child := spawned;
      spawned := spawned + 1;
      Publish(child, launch.pid, launch.now);
      if launch.exit.Some? {
        FinishWait(child, launch.exit.value);
        var seen := ReadStatus(launch.found);
        return StartFailed;
      }
      var result := Confirm(child);
      outcome := if result.state != Connected then StartFailed else Started;
    }

    method Stop(halt: Halt) returns (outcome: Outcome)
      modifies this
      ensures View() == AfterStop(old(View()), halt) && spawned == old(spawned) && file == old(file)
      ensures outcome == StopOutcome(old(View()), halt)
    {
      var reply, target := EnterStop();
      if reply == NotRunning {
        return StopRefused;
      }
      if reply == Cleared {
        return StopDone;
      }
      if target.None? {
        Fail("engine process is missing while marked active");
        return StopFailed;
      }
      if halt.KillFails? {
        Fail("kill unresponsive sing-box");
        return StopFailed;
      }
      FinishWait(target.value, "");
      return StopDone;
    }
  }
}
