// internal/daemon/server.go: the network-test job, a slot shared by requests and
// by one worker goroutine per test.
module NetworkTest {
  import opened Wrappers
  import opened Text

  datatype JobState = Running | Completed | Failed | Cancelled

  // What a test leaves for the history; its measurements are in `rest`.
  datatype Report = Report(id: string, status: JobState, error: string, rest: string)

  // armed: the job still holds the function that cancels its context.
  datatype Job = Job(
    id: string, state: JobState, mode: string, phase: string, percent: int, startedAt: string,
    error: string, result: Option<Report>, armed: bool)

  // An error, and whether it wraps context.Canceled.
  datatype Fault = Fault(cancelled: bool, message: string)

  datatype StartReply = BadMode | VpnRequired | Busy | Accepted(view: Job)

  predicate GoodMode(mode: string) { mode == "direct" || mode == "proxy" || mode == "compare" }

  function Normalized(mode: string): string { ToLower(TrimSpace(mode)) }

  // ---------- the sections under netcheckMu, as functions of the slot ----------

  function Seen(job: Job): Job { job.(armed := false) }

  function NewJob(id: string, mode: string, now: string): Job {
    Job(id, Running, mode, "preparing", 0, now, "", None, true)
  }

  function StartAnswer(slot: Option<Job>, id: string, mode: string, connected: bool, now: string): StartReply {
    if !GoodMode(Normalized(mode)) then BadMode
    else if Normalized(mode) != "direct" && !connected then VpnRequired
    else if slot.Some? && slot.value.state == Running then Busy
    else Accepted(Seen(NewJob(id, Normalized(mode), now)))
  }

  function AfterStart(slot: Option<Job>, id: string, mode: string, connected: bool, now: string): Option<Job> {
    if StartAnswer(slot, id, mode, connected, now).Accepted? then Some(NewJob(id, Normalized(mode), now)) else slot
  }

  predicate Holds(slot: Option<Job>, id: string) { slot.Some? && slot.value.id == id }

  function AfterUpdate(slot: Option<Job>, id: string, phase: string, percent: int): Option<Job> {
    if Holds(slot, id) && slot.value.state == Running
    then Some(slot.value.(phase := phase, percent := percent)) else slot
  }

  function AfterError(slot: Option<Job>, id: string, fault: Fault, result: Option<Report>): Option<Job> {
    if !Holds(slot, id) then slot
    else if fault.cancelled then Some(slot.value.(state := Cancelled, error := "test cancelled", result := result))
    else Some(slot.value.(state := Failed, error := fault.message, result := result))
  }

  function AfterSuccess(slot: Option<Job>, id: string, result: Report): Option<Job> {
    if Holds(slot, id)
    then Some(slot.value.(state := Completed, phase := "done", percent := 100, result := Some(result))) else slot
  }

  function AfterRelease(slot: Option<Job>, id: string): Option<Job> {
    if Holds(slot, id) then Some(slot.value.(armed := false)) else slot
  }

  function Lookup(slot: Option<Job>, id: string): Option<Job> {
    if slot.None? || id == "" || slot.value.id != id then None else Some(Seen(slot.value))
  }

  predicate Signals(slot: Option<Job>, id: string) {
    Lookup(slot, id).Some? && slot.value.state == Running && slot.value.armed
  }

  class Tests {
    var job: Option<Job>

    constructor ()
      ensures job == None
    {
      job := None;
    }

    // startNetworkTest; connected: whether the engine was seen connected.
    method Start(id: string, requested: string, connected: bool, now: string) returns (reply: StartReply)
      modifies this
      ensures job == AfterStart(old(job), id, requested, connected, now)
      ensures reply == StartAnswer(old(job), id, requested, connected, now)
    {
      var mode := ToLower(TrimSpace(requested));
      if !GoodMode(mode) {
        return BadMode;
      }
      if (mode == "proxy" || mode == "compare") && !connected {
        return VpnRequired;
      }
      if job.Some? && job.value.state == Running {
        return Busy;
      }
      job := Some(Job(id, Running, mode, "preparing", 0, now, "", None, true));
      return Accepted(job.value.(armed := false));
    }

    // updateNetworkTest
    method Update(id: string, phase: string, percent: int)
      modifies this
      ensures job == AfterUpdate(old(job), id, phase, percent)
    {
      if job.Some? && job.value.id == id && job.value.state == Running {
        job := Some(job.value.(phase := phase));
        job := Some(job.value.(percent := percent));
      }
    }

    // finishNetworkTestError, its last section
    method FinishError(id: string, fault: Fault, result: Option<Report>)
      modifies this
      ensures job == AfterError(old(job), id, fault, result)
    {
      if job.None? || job.value.id != id {
        return;
      }
      if fault.cancelled {
        job := Some(job.value.(state := Cancelled));
        job := Some(job.value.(error := "test cancelled"));
      } else {
        job := Some(job.value.(state := Failed));
        job := Some(job.value.(error := fault.message));
      }
      job := Some(job.value.(result := result));
    }

    // runNetworkTest, its last section
    method Complete(id: string, result: Report)
      modifies this
      ensures job == AfterSuccess(old(job), id, result)
    {
      if job.Some? && job.value.id == id {
        job := Some(job.value.(state := Completed));
        job := Some(job.value.(phase := "done"));
        job := Some(job.value.(percent := 100));
        job := Some(job.value.(result := Some(result)));
      }
    }

    // runNetworkTest, its deferred section
    method Release(id: string) returns (signalled: bool)
      modifies this
      ensures job == AfterRelease(old(job), id) && signalled == (Holds(old(job), id) && old(job).value.armed)
    {
      signalled := job.Some? && job.value.id == id && job.value.armed;
      if signalled {
        job := Some(job.value.(armed := false));
      }
    }

    // networkTestStatus
    method Status(id: string) returns (view: Option<Job>)
      ensures view == Lookup(job, id)
    {
      if job.None? || id == "" || job.value.id != id {
        return None;
      }
      return Some(job.value.(armed := false));
    }

    // cancelNetworkTest: asks the worker to stop, and moves no job itself.
    method Cancel(id: string) returns (view: Option<Job>, signalled: bool)
      ensures view == Lookup(job, id) && signalled == Signals(job, id)
    {
      if job.None? || id == "" || job.value.id != id {
        return None, false;
      }
      signalled := job.value.state == Running && job.value.armed;
      view := Some(job.value.(armed := false));
    }
  }

  // ---------- the protocol ----------

  // Where the worker of a test stands.
  datatype Worker =
    | Measuring
    | Saving(report: Report)                          // measured: add it to the history
    | Saved(report: Report)                           // written: publish
    | SavingFailure(fault: Fault, report: Report)     // failed: add that to the history
    | Concluding(fault: Fault, result: Option<Report>)
    | Ending                                          // the deferred section is left
    | Gone

  datatype World = World(
    slot: Option<Job>, workers: map<string, Worker>,
    saved: seq<Report>,       // everything the history wrote, in order
    signalled: set<string>)   // tests whose context was cancelled

  datatype Event =
    | StartTest(id: string, mode: string, connected: bool, now: string)
    | Progress(id: string, phase: string, percent: int)
    | Measured(id: string, rest: string) | SaveReport(id: string, ok: bool) | Publish(id: string)
    | Break(id: string, fault: Fault, rest: string) | SaveFailure(id: string, ok: bool) | Conclude(id: string)
    | ReleaseTest(id: string)
    | CancelTest(id: string)

  predicate At(w: World, id: string) { id in w.workers }

  // Ids carry the clock in nanoseconds and are taken to be new. An error wraps
  // context.Canceled only after the context was cancelled. Progress may be
  // reported by any worker at any time, even late.
  predicate Enabled(w: World, e: Event) {
    match e
    case StartTest(id, _, _, _) => id != "" && !At(w, id)
    case Progress(id, _, _) => At(w, id)
    case Measured(id, _) => At(w, id) && w.workers[id].Measuring?
    case SaveReport(id, _) => At(w, id) && w.workers[id].Saving?
    case Publish(id) => At(w, id) && w.workers[id].Saved?
    case Break(id, fault, _) => At(w, id) && w.workers[id].Measuring? && (fault.cancelled ==> id in w.signalled)
    case SaveFailure(id, _) => At(w, id) && w.workers[id].SavingFailure?
    case Conclude(id) => At(w, id) && w.workers[id].Concluding?
    case ReleaseTest(id) => At(w, id) && w.workers[id].Ending?
    case CancelTest(_) => true
  }

  function Go(w: World, id: string, to: Worker): World { w.(workers := w.workers[id := to]) }

  function Step(w: World, e: Event): World
    requires Enabled(w, e)
  {
    match e
    case StartTest(id, mode, connected, now) =>
      var started := w.(slot := AfterStart(w.slot, id, mode, connected, now));
      if StartAnswer(w.slot, id, mode, connected, now).Accepted? then Go(started, id, Measuring) else started
    case Progress(id, phase, percent) => w.(slot := AfterUpdate(w.slot, id, phase, percent))
    case Measured(id, rest) => Go(w, id, Saving(Report(id, Completed, "", rest)))
    case SaveReport(id, ok) =>
      var report := w.workers[id].report;
      if ok then Go(w.(saved := w.saved + [report]), id, Saved(report))
      else Go(w, id, Concluding(Fault(false, "save test history"), None))
    case Publish(id) => Go(w.(slot := AfterSuccess(w.slot, id, w.workers[id].report)), id, Ending)
    case Break(id, fault, rest) =>
      if fault.cancelled then Go(w, id, Concluding(fault, Some(Report(id, Cancelled, "", rest))))
      else Go(w, id, SavingFailure(fault, Report(id, Failed, fault.message, rest)))
    case SaveFailure(id, ok) =>
      var fault, report := w.workers[id].fault, w.workers[id].report;
      if ok then Go(w.(saved := w.saved + [report]), id, Concluding(fault, Some(report)))
      else Go(w, id, Concluding(Fault(false, fault.message + "; save failure history"), Some(report)))
    case Conclude(id) =>
      Go(w.(slot := AfterError(w.slot, id, w.workers[id].fault, w.workers[id].result)), id, Ending)
    case ReleaseTest(id) => Go(w.(slot := AfterRelease(w.slot, id)), id, Gone)
    case CancelTest(id) => if Signals(w.slot, id) then w.(signalled := w.signalled + {id}) else w
  }

  const INITIAL := World(None, map[], [], {})

  // ---------- the invariant ----------

  predicate Active(worker: Worker) { !worker.Ending? && !worker.Gone? }

  predicate Written(saved: seq<Report>, id: string) { exists r :: r in saved && r.id == id }

  // What a worker carries, against the history and the cancelled contexts.
  ghost predicate Carries(w: World, id: string)
    requires At(w, id)
  {
    match w.workers[id]
    case Measuring => !Written(w.saved, id)
    case Saving(report) => !Written(w.saved, id) && report.id == id && report.status == Completed
    case Saved(report) => report in w.saved && report.id == id && report.status == Completed
    case SavingFailure(fault, report) =>
      !Written(w.saved, id) && report.id == id && report.status == Failed && !fault.cancelled
      && report.error == fault.message
    case Concluding(fault, result) =>
      && Outcome(w, id, if fault.cancelled then Cancelled else Failed, result)
      && (!fault.cancelled ==> Explains(w.saved, fault.message, result))
    case _ => true
  }

  // What an end state promises about the result and the history.
  ghost predicate Outcome(w: World, id: string, state: JobState, result: Option<Report>) {
    match state
    case Running => true
    case Completed =>
      result.Some? && result.value in w.saved && result.value.id == id && result.value.status == Completed
    case Failed =>
      (result.Some? ==> result.value.id == id && result.value.status == Failed)
      && (forall r :: r in w.saved && r.id == id ==> r.status == Failed)
    case Cancelled =>
      id in w.signalled && result.Some? && result.value.id == id && result.value.status == Cancelled
      && !Written(w.saved, id)
  }

  // The error of a failed test: that its report could not be saved, or the error
  // of its report, and whether that could not be saved either.
  predicate Explains(saved: seq<Report>, error: string, result: Option<Report>) {
    match result
    case None => error == "save test history"
    case Some(report) => if report in saved then error == report.error
                         else error == report.error + "; save failure history"
  }

  // What a finished test shows.
  predicate Shows(saved: seq<Report>, job: Job) {
    match job.state
    case Running => job.error == "" && job.result == None
    case Completed => job.error == "" && job.phase == "done" && job.percent == 100
    case Failed => Explains(saved, job.error, job.result)
    case Cancelled => job.error == "test cancelled"
  }

  ghost predicate Inv(w: World) {
    && (w.slot.None? ==> w.workers == map[])
    && (w.slot.Some? ==> SlotAgrees(w, w.slot.value))
    && (forall id :: id in w.workers && !Holds(w.slot, id) ==> !Active(w.workers[id]))
    && (forall id :: id in w.workers ==> Carries(w, id))
    && (forall r :: r in w.saved ==> r.id in w.workers)
    && (forall i, j :: 0 <= i < j < |w.saved| ==> w.saved[i].id != w.saved[j].id)
    && (forall id :: id in w.signalled ==> id in w.workers)
  }

  ghost predicate SlotAgrees(w: World, job: Job) {
    && job.id in w.workers
    && (job.state == Running <==> Active(w.workers[job.id]))
    && (job.armed <==> !w.workers[job.id].Gone?)
    && job.id != "" && Shows(w.saved, job)
    && Outcome(w, job.id, job.state, job.result)
  }

  lemma StartKeepsInv(w: World, e: Event)
    requires Inv(w) && Enabled(w, e) && e.StartTest?
    ensures Inv(Step(w, e))
  {}

  lemma SlotOnlyKeepsInv(w: World, e: Event)
    requires Inv(w) && Enabled(w, e) && (e.Progress? || e.CancelTest?)
    ensures Inv(Step(w, e))
  {}

  lemma WorkKeepsInv(w: World, e: Event)
    requires Inv(w) && Enabled(w, e) && (e.Measured? || e.Break?)
    ensures Inv(Step(w, e))
  {}

  lemma SaveKeepsInv(w: World, e: Event)
    requires Inv(w) && Enabled(w, e) && e.SaveReport?
    ensures Inv(Step(w, e))
  {}

  lemma SavedFailureKeepsInv(w: World, e: Event)
    requires Inv(w) && Enabled(w, e) && e.SaveFailure? && e.ok
    ensures Inv(Step(w, e))
  {}

  lemma UnsavedFailureKeepsInv(w: World, e: Event)
    requires Inv(w) && Enabled(w, e) && e.SaveFailure? && !e.ok
    ensures Inv(Step(w, e))
  {}

  lemma FinishKeepsInv(w: World, e: Event)
    requires Inv(w) && Enabled(w, e) && (e.Publish? || e.Conclude?)
    ensures Inv(Step(w, e))
  {}

  lemma ReleaseKeepsInv(w: World, e: Event)
    requires Inv(w) && Enabled(w, e) && e.ReleaseTest?
    ensures Inv(Step(w, e))
  {}

  lemma StepKeepsInv(w: World, e: Event)
    requires Inv(w) && Enabled(w, e)
    ensures Inv(Step(w, e))
  {
    match e
    case StartTest(_, _, _, _) => StartKeepsInv(w, e);
    case Progress(_, _, _) => SlotOnlyKeepsInv(w, e);
    case CancelTest(_) => SlotOnlyKeepsInv(w, e);
    case Measured(_, _) => WorkKeepsInv(w, e);
    case Break(_, _, _) => WorkKeepsInv(w, e);
    case SaveReport(_, _) => SaveKeepsInv(w, e);
    case SaveFailure(_, ok) => if ok { SavedFailureKeepsInv(w, e); } else { UnsavedFailureKeepsInv(w, e); }
    case ReleaseTest(_) => ReleaseKeepsInv(w, e);
    case _ => FinishKeepsInv(w, e);
  }

  // ---------- runs ----------

  predicate Possible(w: World, events: seq<Event>)
    decreases |events|
  {
    events == [] || (Enabled(w, events[0]) && Possible(Step(w, events[0]), events[1..]))
  }

  function RunFrom(w: World, events: seq<Event>): World
    requires Possible(w, events)
    decreases |events|
  {
    if events == [] then w else RunFrom(Step(w, events[0]), events[1..])
  }

  lemma {:induction false} EveryRunKeepsInv(w: World, events: seq<Event>)
    requires Inv(w) && Possible(w, events)
    ensures Inv(RunFrom(w, events))
    decreases |events|
  {
    if events != [] {
      StepKeepsInv(w, events[0]);
      EveryRunKeepsInv(Step(w, events[0]), events[1..]);
    }
  }

  // In every interleaving: at most one test runs and only its worker has work
  // left; a completed test is in the history; a cancelled one was asked to stop
  // and is not; the history holds each test at most once.
  lemma TestsAreSafe(events: seq<Event>)
    requires Possible(INITIAL, events)
    ensures var w := RunFrom(INITIAL, events);
      && (forall a, b :: a in w.workers && b in w.workers && Active(w.workers[a]) && Active(w.workers[b]) ==> a == b)
      && (forall a :: a in w.workers && Active(w.workers[a]) ==> Holds(w.slot, a) && w.slot.value.state == Running)
      && (w.slot.Some? && w.slot.value.state == Completed ==>
            w.slot.value.result.Some? && w.slot.value.result.value in w.saved
              && w.slot.value.result.value.status == Completed)
      && (w.slot.Some? && w.slot.value.state == Cancelled ==>
            w.slot.value.id in w.signalled && !Written(w.saved, w.slot.value.id))
      && (forall i, j :: 0 <= i < j < |w.saved| ==> w.saved[i].id != w.saved[j].id)
  {
    EveryRunKeepsInv(INITIAL, events);
  }

  // In every interleaving a finished test shows how it ended, and why.
  lemma EndsAreShown(events: seq<Event>)
    requires Possible(INITIAL, events) && RunFrom(INITIAL, events).slot.Some?
    ensures var w := RunFrom(INITIAL, events); var job := w.slot.value;
      && (job.state == Completed ==> job.error == "" && job.phase == "done" && job.percent == 100 && job.result.Some?)
      && (job.state == Cancelled ==> job.error == "test cancelled" && job.result.Some?)
      && (job.state == Failed && job.result.None? ==> job.error == "save test history")
      && (job.state == Failed && job.result.Some? && job.result.value in w.saved ==>
            job.error == job.result.value.error)
      && (job.state == Failed && job.result.Some? && job.result.value !in w.saved ==>
            job.error == job.result.value.error + "; save failure history")
  {
    EveryRunKeepsInv(INITIAL, events);
  }

  // In every interleaving, cancelling the test that runs reaches the context of its
  // worker, which may then end cancelled; cancelling any other id reaches nobody.
  lemma CancelReachesTheWorker(events: seq<Event>, id: string, message: string, rest: string)
    requires Possible(INITIAL, events)
    ensures var w := RunFrom(INITIAL, events); var after := Step(w, CancelTest(id));
      && after.slot == w.slot && after.workers == w.workers && after.saved == w.saved
      && after.signalled == (if w.slot.Some? && w.slot.value.id == id && w.slot.value.state == Running
                             then w.signalled + {id} else w.signalled)
      && (id in after.signalled && id in w.workers && w.workers[id].Measuring? ==>
            Enabled(after, Break(id, Fault(true, message), rest)))
  {
    EveryRunKeepsInv(INITIAL, events);
  }

  // What a start and a report of progress leave in the slot.
  lemma RequestsAreShown(w: World, e: Event)
    requires Enabled(w, e) && (e.StartTest? || e.Progress?)
    ensures e.StartTest? ==>
      var mode := ToLower(TrimSpace(e.mode));
      Step(w, e).slot ==
        if (mode == "direct" || ((mode == "proxy" || mode == "compare") && e.connected))
           && (w.slot.None? || w.slot.value.state != Running)
        then Some(Job(e.id, Running, mode, "preparing", 0, e.now, "", None, true)) else w.slot
    ensures e.Progress? ==>
      Step(w, e).slot ==
        if w.slot.Some? && w.slot.value.id == e.id && w.slot.value.state == Running
        then Some(w.slot.value.(phase := e.phase, percent := e.percent)) else w.slot
  {}

  lemma ThreeSteps(w: World, a: Event, b: Event, c: Event)
    requires Enabled(w, a) && Enabled(Step(w, a), b) && Enabled(Step(Step(w, a), b), c)
    ensures Possible(w, [a, b, c]) && RunFrom(w, [a, b, c]) == Step(Step(Step(w, a), b), c)
  {
    assert [a, b, c][1..] == [b, c] && [b, c][1..] == [c] && [c][1..] == [];
    assert RunFrom(Step(Step(w, a), b), [c]) == Step(Step(Step(w, a), b), c);
    assert RunFrom(Step(w, a), [b, c]) == RunFrom(Step(Step(w, a), b), [c]);
  }

  // What was measured is what the history gets and the status shows.
  lemma MeasurementIsSaved(w: World, id: string, rest: string)
    requires Inv(w) && Enabled(w, Measured(id, rest))
    ensures var events := [Measured(id, rest), SaveReport(id, true), Publish(id)];
      Possible(w, events)
      && var after := RunFrom(w, events);
        && after.saved == w.saved + [Report(id, Completed, "", rest)]
        && after.slot == Some(w.slot.value.(state := Completed, phase := "done", percent := 100,
                                             result := Some(Report(id, Completed, "", rest))))
  {
    ThreeSteps(w, Measured(id, rest), SaveReport(id, true), Publish(id));
  }

  // A failure is saved and shown with its message.
  lemma FailureIsSaved(w: World, id: string, message: string, rest: string)
    requires Inv(w) && At(w, id) && w.workers[id].Measuring?
    ensures var events := [Break(id, Fault(false, message), rest), SaveFailure(id, true), Conclude(id)];
      Possible(w, events)
      && var after := RunFrom(w, events);
        && after.saved == w.saved + [Report(id, Failed, message, rest)]
        && after.slot == Some(w.slot.value.(state := Failed, error := message,
                                             result := Some(Report(id, Failed, message, rest))))
  {
    ThreeSteps(w, Break(id, Fault(false, message), rest), SaveFailure(id, true), Conclude(id));
  }

  // A cancelled test is shown and not saved.
  lemma CancelledIsNotSaved(w: World, id: string, message: string, rest: string)
    requires Inv(w) && At(w, id) && w.workers[id].Measuring?
    ensures var events := [CancelTest(id), Break(id, Fault(true, message), rest), Conclude(id)];
      Possible(w, events)
      && var after := RunFrom(w, events);
        && after.saved == w.saved
        && after.slot == Some(w.slot.value.(state := Cancelled, error := "test cancelled",
                                             result := Some(Report(id, Cancelled, "", rest))))
  {
    ThreeSteps(w, CancelTest(id), Break(id, Fault(true, message), rest), Conclude(id));
  }

  // A finished test is never rewritten: as long as the slot holds it, its state,
  // result, error and progress stay what they were.
  lemma {:induction false} FinishedIsFinal(w: World, events: seq<Event>)
    requires Inv(w) && Possible(w, events) && w.slot.Some? && w.slot.value.state != Running
    ensures var later := RunFrom(w, events).slot;
      Holds(later, w.slot.value.id) ==> Seen(later.value) == Seen(w.slot.value)
    decreases |events|
  {
    if events != [] {
      var next := Step(w, events[0]);
      StepKeepsInv(w, events[0]);
      if Holds(next.slot, w.slot.value.id) {
        FinishedIsFinal(next, events[1..]);
      } else {
        NeverReturns(next, w.slot.value.id, events[1..]);
      }
    }
  }

  // A test that has left the slot never comes back.
  lemma {:induction false} NeverReturns(w: World, id: string, events: seq<Event>)
    requires Inv(w) && Possible(w, events) && At(w, id) && !Holds(w.slot, id)
    ensures !Holds(RunFrom(w, events).slot, id)
    decreases |events|
  {
    if events != [] {
      StepKeepsInv(w, events[0]);
      NeverReturns(Step(w, events[0]), id, events[1..]);
    }
  }

  // A running test leaves the slot only through one of its three ends, by a
  // step of its own worker; until then it stays the same test in the same mode.
  lemma OnlyItsWorkerMovesIt(w: World, e: Event)
    requires Inv(w) && Enabled(w, e) && w.slot.Some?
    ensures var job, after := w.slot.value, Step(w, e).slot;
      && after.Some?
      && (job.state == Running ==>
            after.value.id == job.id && after.value.mode == job.mode && after.value.startedAt == job.startedAt)
      && (after.value.id == job.id && after.value.state != job.state ==>
            job.state == Running && (e == Publish(job.id) || e == Conclude(job.id)))
      && (!e.StartTest? && e.id != job.id ==> after == w.slot)
  {}

  // ---------- each test moves exactly once ----------

  // The event moves the test in the slot out of the state it was in.
  predicate MovesIt(w: World, e: Event, id: string)
    requires Enabled(w, e)
  {
    Holds(w.slot, id) && !(Holds(Step(w, e).slot, id) && Step(w, e).slot.value.state == w.slot.value.state)
    && w.slot.value.state == Running
  }

  function Moves(w: World, events: seq<Event>, id: string): nat
    requires Possible(w, events)
    decreases |events|
  {
    if events == [] then 0
    else (if MovesIt(w, events[0], id) then 1 else 0) + Moves(Step(w, events[0]), events[1..], id)
  }

  function Pending(w: World, id: string): nat { if id in w.workers && Active(w.workers[id]) then 1 else 0 }

  lemma StepMoves(w: World, e: Event, id: string)
    requires Inv(w) && Enabled(w, e) && At(w, id)
    ensures At(Step(w, e), id)
    ensures Pending(Step(w, e), id) + (if MovesIt(w, e, id) then 1 else 0) == Pending(w, id)
  {
    if Holds(w.slot, id) { OnlyItsWorkerMovesIt(w, e); }
  }

  // Over any run a test leaves the running state once if its worker came to its
  // end, and not at all if it did not.
  lemma {:induction false} MovesExactlyOnce(w: World, events: seq<Event>, id: string)
    requires Inv(w) && Possible(w, events) && At(w, id)
    ensures At(RunFrom(w, events), id)
    ensures Moves(w, events, id) + Pending(RunFrom(w, events), id) == Pending(w, id)
    decreases |events|
  {
    if events != [] {
      StepKeepsInv(w, events[0]);
      StepMoves(w, events[0], id);
      MovesExactlyOnce(Step(w, events[0]), events[1..], id);
    }
  }

  // A step of the test's own worker, other than reporting progress.
  predicate OwnStep(e: Event, id: string) { e.id == id && !e.StartTest? && !e.Progress? && !e.CancelTest? }

  // The steps a worker can still make, at most.
  function Left(worker: Worker): nat {
    match worker
    case Measuring => 4
    case Saving(_) => 3
    case SavingFailure(_, _) => 3
    case Saved(_) => 2
    case Concluding(_, _) => 2
    case Ending => 1
    case Gone => 0
  }

  function OwnSteps(events: seq<Event>, id: string): nat {
    if events == [] then 0 else (if OwnStep(events[0], id) then 1 else 0) + OwnSteps(events[1..], id)
  }

  lemma StepUsesOne(w: World, e: Event, id: string)
    requires Enabled(w, e) && At(w, id)
    ensures At(Step(w, e), id)
    ensures Left(Step(w, e).workers[id]) + (if OwnStep(e, id) then 1 else 0) <= Left(w.workers[id])
  {}

  // A worker makes at most four steps of its own in any run ...
  lemma {:induction false} WorkersEnd(w: World, events: seq<Event>, id: string)
    requires Possible(w, events) && At(w, id)
    ensures At(RunFrom(w, events), id)
    ensures OwnSteps(events, id) + Left(RunFrom(w, events).workers[id]) <= Left(w.workers[id]) <= 4
    decreases |events|
  {
    if events != [] {
      StepUsesOne(w, events[0], id);
      WorkersEnd(Step(w, events[0]), events[1..], id);
    }
  }

  // ... and until it is gone it can always make the next one, so a worker that is
  // scheduled often enough ends, and its test has moved exactly once.
  lemma WorkersAreNeverStuck(w: World, id: string)
    requires At(w, id)
    ensures !w.workers[id].Gone? <==> exists e :: OwnStep(e, id) && Enabled(w, e)
    ensures w.workers[id].Gone? ==> Pending(w, id) == 0
  {
    match w.workers[id]
    case Measuring => assert OwnStep(Measured(id, ""), id) && Enabled(w, Measured(id, ""));
    case Saving(_) => assert OwnStep(SaveReport(id, true), id) && Enabled(w, SaveReport(id, true));
    case Saved(_) => assert OwnStep(Publish(id), id) && Enabled(w, Publish(id));
    case SavingFailure(_, _) => assert OwnStep(SaveFailure(id, true), id) && Enabled(w, SaveFailure(id, true));
    case Concluding(_, _) => assert OwnStep(Conclude(id), id) && Enabled(w, Conclude(id));
    case Ending => assert OwnStep(ReleaseTest(id), id) && Enabled(w, ReleaseTest(id));
    case Gone =>
  }

  // A start is refused exactly when the mode is wrong, the route needs a tunnel
  // that is not up, or a worker still has a test to conclude.
  lemma BusyMeansUnfinished(w: World, id: string, mode: string, connected: bool, now: string)
    requires Inv(w)
    ensures StartAnswer(w.slot, id, mode, connected, now) == Busy <==>
      GoodMode(Normalized(mode)) && (Normalized(mode) == "direct" || connected)
      && exists a :: a in w.workers && Active(w.workers[a])
  {
    if w.slot.Some? { assert w.slot.value.id in w.workers; }
  }
}
