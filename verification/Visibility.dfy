/** Whether the stored diff shows the changes an implementation claims. */
module Visibility {
  import opened Prelude
  import opened Models
  import opened Transitions
  import opened Lifecycle
  import opened LifecycleInvariant
  import opened System
  import opened SystemInvariant
  import opened Guarantees
  import opened Runner

  predicate ShowsFiles(diff: Option<ImplementationDiff>) {
    diff.Some? && diff.value.files != []
  }

  // One step

  /**
   The step saves, over a diff with files, a correction's local diff that has
   none: at the end of its validation, or in its `except` block when the
   refresh finds none either.
   */
  predicate TaskLosesDiff(task: Task, stored: Job, event: TaskEvent)
    requires TaskEnabled(task, event)
  {
    && task.kind == CorrectRun && ShowsFiles(stored.implementationDiff) && event.Proceed?
    && (task.pc.Validating? || task.pc.Refreshing?)
    && !ShowsFiles(task.local.implementationDiff)
    && (task.pc.Refreshing? ==> !ShowsFiles(Refreshed(task.local, event.payload.diff).implementationDiff))
  }

  /** The step saves a diff with files: a collected one, or a correction's local one. */
  predicate TaskRecordsDiff(task: Task, event: TaskEvent)
    requires TaskEnabled(task, event)
  {
    event.Proceed? &&
    match task.pc
    case Collecting(result) => ShowsFiles(event.payload.diff)
    case Validating => task.kind == CorrectRun && ShowsFiles(task.local.implementationDiff)
    case Refreshing(_) => ShowsFiles(Refreshed(task.local, event.payload.diff).implementationDiff)
    case _ => false
  }

  /** The implementation claims to have changed files. */
  predicate Claims(job: Job) {
    job.implementationResult.Some? && job.implementationResult.value.changedFiles != []
  }

  /** What an event that records or loses a diff, or does neither, does to the record. */
  predicate Follows(before: Job, after: Job, records: bool, loses: bool) {
    && (records ==> ShowsFiles(after.implementationDiff))
    && (loses ==> !ShowsFiles(after.implementationDiff))
    && (!records && !loses && Claims(after) ==>
          Claims(before) && (ShowsFiles(after.implementationDiff) <==> ShowsFiles(before.implementationDiff)))
  }

  lemma {:induction false} PlanFollows(turn: Turn, event: TaskEvent, clock: Time, now: Time)
    requires CanStep(turn, event, clock, now) && Live(turn, PlanRun)
    ensures Follows(turn.stored, TaskStep(turn, event, now).stored, TaskRecordsDiff(turn.task.value, event), false)
  {
    var after := TaskStep(turn, event, now).stored;
    assert after.implementationDiff == turn.stored.implementationDiff;
    assert after.implementationResult == turn.stored.implementationResult;
  }

  lemma {:induction false} ImplementFollows(turn: Turn, event: TaskEvent, clock: Time, now: Time)
    requires CanStep(turn, event, clock, now) && Live(turn, ImplementRun)
    ensures Follows(turn.stored, TaskStep(turn, event, now).stored, TaskRecordsDiff(turn.task.value, event), false)
  {
    var before, after := turn.stored, TaskStep(turn, event, now).stored;
    if !event.Proceed? {
      assert after.implementationDiff == before.implementationDiff;
      assert after.implementationResult == before.implementationResult;
    }
  }

  lemma {:induction false} CorrectFollows(turn: Turn, event: TaskEvent, clock: Time, now: Time)
    requires CanStep(turn, event, clock, now) && Live(turn, CorrectRun)
    ensures Follows(turn.stored, TaskStep(turn, event, now).stored, TaskRecordsDiff(turn.task.value, event),
                    TaskLosesDiff(turn.task.value, turn.stored, event))
  {
    var before, after := turn.stored, TaskStep(turn, event, now).stored;
    if !event.Proceed? {
      assert after.implementationDiff == before.implementationDiff;
      assert after.implementationResult == before.implementationResult;
    }
  }

  lemma {:induction false} TaskFollows(turn: Turn, event: TaskEvent, clock: Time, now: Time)
    requires CanStep(turn, event, clock, now)
    ensures Follows(turn.stored, TaskStep(turn, event, now).stored, TaskRecordsDiff(turn.task.value, event),
                    TaskLosesDiff(turn.task.value, turn.stored, event))
  {
    match turn.task.value.kind
    case PlanRun => PlanFollows(turn, event, clock, now);
    case ImplementRun => ImplementFollows(turn, event, clock, now);
    case CorrectRun => CorrectFollows(turn, event, clock, now);
  }

  /** The event is a step of the job's correction that loses the diff. */
  predicate LosesDiff(cell: Cell, event: CellEvent)
    requires Enabled(cell, event)
  {
    event.OnTask? && TaskLosesDiff(cell.tasks[event.i], cell.stored, event.event)
  }

  /** The event is a step of a task, or a recovery, that saves a diff with files. */
  predicate RecordsDiff(cell: Cell, event: CellEvent)
    requires Enabled(cell, event)
  {
    match event
    case OnTask(i, e) => TaskRecordsDiff(cell.tasks[i], e)
    case Recover(raises, diff) =>
      && !raises && (IsCorrectionState(cell.stored.state) || IsImplementationState(cell.stored.state))
      && ShowsFiles(Refreshed(cell.stored, diff).implementationDiff)
    case _ => false
  }

  lemma {:induction false} StepFollows(cell: Cell, event: CellEvent, clock: Time, now: Time)
    requires Inv(cell, clock) && clock < now && Enabled(cell, event)
    ensures Follows(cell.stored, Step(cell, event, now).stored, RecordsDiff(cell, event), LosesDiff(cell, event))
  {
    if event.OnTask? {
      TaskFollows(View(cell), event.event, clock, now);
      OnTaskView(cell, event, now);
    }
  }

  // Whole runs

  /** The claims of an implementation are shown unless the diff was lost. */
  predicate Visible(job: Job, lost: bool) {
    Claims(job) ==> (ShowsFiles(job.implementationDiff) <==> !lost)
  }

  /** In the run's last event a correction of the job loses its diff. */
  ghost predicate LosesDiffNow(cfg: Config, s: Sys, event: Event, now: Time, id: Id)
    requires Possible(cfg, s, event, now)
  {
    id in s.cells && event.OnCell? && event.id == id && LosesDiff(s.cells[id], event.event)
  }

  /** In the run's last event a diff with files is saved for the job. */
  ghost predicate RecordsDiffNow(cfg: Config, s: Sys, event: Event, now: Time, id: Id)
    requires Possible(cfg, s, event, now)
  {
    id in s.cells && match event
    case OnCell(k, e) => k == id && RecordsDiff(s.cells[id], e)
    case RecoverNext(raises, diff) => s.phase.todo[0] == id && RecordsDiff(s.cells[id], Recover(raises, diff))
    case _ => false
  }

  /** A correction lost the job's diff, and no event since has saved one with files. */
  ghost predicate HasLostDiff(cfg: Config, events: seq<Timed>, id: Id)
    requires IsRun(cfg, events)
    decreases |events|
  {
    events != [] && (
      var before, last := events[..|events| - 1], events[|events| - 1];
      var s := StateAfter(cfg, before);
      || LosesDiffNow(cfg, s, last.event, last.now, id)
      || (HasLostDiff(cfg, before, id) && !RecordsDiffNow(cfg, s, last.event, last.now, id)))
  }

  lemma {:induction false} NextFollows(cfg: Config, s: Sys, event: Event, now: Time, id: Id)
    requires CellsOk(s) && Possible(cfg, s, event, now) && id in s.cells && id in Next(cfg, s, event, now).cells
    ensures Follows(s.cells[id].stored, Next(cfg, s, event, now).cells[id].stored,
                    RecordsDiffNow(cfg, s, event, now, id), LosesDiffNow(cfg, s, event, now, id))
  {
    NextCell(cfg, s, event, now, id);
    var touch := Touches(cfg, s, event, id);
    if touch.Some? {
      StepFollows(s.cells[id], touch.value, s.clock, now);
    }
  }

  /** Whatever an implementation claims is shown by the diff exactly unless a correction lost it. */
  lemma {:induction false} ClaimsAreVisibleUnlessLost(cfg: Config, events: seq<Timed>, id: Id)
    requires IsRun(cfg, events) && id in StateAfter(cfg, events).cells
    ensures Visible(StateAfter(cfg, events).cells[id].stored, HasLostDiff(cfg, events, id))
    decreases |events|
  {
    var before, last := events[..|events| - 1], events[|events| - 1];
    var s := StateAfter(cfg, before);
    if id in s.cells {
      RunsKeepInv(cfg, before);
      ClaimsAreVisibleUnlessLost(cfg, before, id);
      NextFollows(cfg, s, last.event, last.now, id);
    } else {
      NextCell(cfg, s, last.event, last.now, id);
    }
  }

  /**
   An implementation reported ready has a result, and the diff shows its
   claimed changes exactly unless a correction lost it.
   */
  lemma {:induction false} ReadyMeansVisibleUnlessLost(cfg: Config, events: seq<Timed>, id: Id)
    requires IsRun(cfg, events) && id in StateAfter(cfg, events).cells
    requires StateAfter(cfg, events).cells[id].stored.state == ImplementationReady
    ensures
      var job := StateAfter(cfg, events).cells[id].stored;
      && job.implementationResult.Some?
      && (ClaimsUnseenChanges(job.implementationResult.value, job.implementationDiff) <==>
          job.implementationResult.value.changedFiles != [] && HasLostDiff(cfg, events, id))
  {
    RunsKeepInv(cfg, events);
    assert Inv(StateAfter(cfg, events).cells[id], StateAfter(cfg, events).clock);
    ClaimsAreVisibleUnlessLost(cfg, events, id);
  }

  // One correction, from its start to its end

  /** What the re-collection of a correction's path yielded; None before it, or when it yielded nothing. */
  ghost function Recollected(start: Turn, path: seq<TimedStep>): Option<ImplementationDiff>
    requires IsPath(start, path)
    decreases |path|
  {
    if path == [] then None
    else
      var before, last := path[..|path| - 1], path[|path| - 1];
      if PathEnd(start, before).task.value.pc.Recollecting? && last.event.Proceed? then last.event.payload.diff
      else Recollected(start, before)
  }

  /** While a correction runs, the record keeps its diff and the local copy has the re-collected one. */
  predicate DiffsAt(turn: Turn, before: Job, collected: Option<ImplementationDiff>) {
    && Live(turn, CorrectRun)
    && turn.stored.implementationDiff == before.implementationDiff
    && (!turn.task.value.pc.Entering? ==>
        && turn.task.value.local.implementationDiff == Kept(collected, before.implementationDiff)
        && turn.task.value.local.workspacePath == before.workspacePath
        && turn.task.value.local.baseline == before.baseline)
    && turn.stored.workspacePath == before.workspacePath && turn.stored.baseline == before.baseline
    && (collected.Some? ==> turn.task.value.pc.Validating? || turn.task.value.pc.Refreshing?)
  }

  lemma {:induction false} ProceedKeepsDiffsAt(
    turn: Turn, event: TaskEvent, before: Job, collected: Option<ImplementationDiff>, clock: Time, now: Time)
    requires CanStep(turn, event, clock, now) && DiffsAt(turn, before, collected)
    requires event.Proceed? && !turn.task.value.pc.Restoring? && TaskStep(turn, event, now).task.Some?
    ensures
      var seen := if turn.task.value.pc.Recollecting? then event.payload.diff else collected;
      DiffsAt(TaskStep(turn, event, now), before, seen)
  {}

  lemma {:induction false} RestoredKeepsDiffsAt(
    turn: Turn, event: TaskEvent, before: Job, collected: Option<ImplementationDiff>, clock: Time, now: Time)
    requires CanStep(turn, event, clock, now) && DiffsAt(turn, before, collected)
    requires event.Proceed? && turn.task.value.pc.Restoring? && TaskStep(turn, event, now).task.Some?
    ensures DiffsAt(TaskStep(turn, event, now), before, collected)
  {}

  lemma {:induction false} StepKeepsDiffsAt(
    turn: Turn, event: TaskEvent, before: Job, collected: Option<ImplementationDiff>, clock: Time, now: Time)
    requires CanStep(turn, event, clock, now) && DiffsAt(turn, before, collected)
    requires TaskStep(turn, event, now).task.Some?
    ensures
      var seen := if turn.task.value.pc.Recollecting? && event.Proceed? then event.payload.diff else collected;
      DiffsAt(TaskStep(turn, event, now), before, seen)
  {
    if event.Proceed? && turn.task.value.pc.Restoring? {
      RestoredKeepsDiffsAt(turn, event, before, collected, clock, now);
    } else if event.Proceed? {
      ProceedKeepsDiffsAt(turn, event, before, collected, clock, now);
    }
  }

  lemma {:induction false} PathKeepsDiffsAt(start: Turn, path: seq<TimedStep>, clock: Time)
    requires IsPath(start, path) && TurnInv(start, clock) && Advances(path, clock)
    requires Live(start, CorrectRun) && start.task.value.pc.Entering? && PathEnd(start, path).task.Some?
    ensures DiffsAt(PathEnd(start, path), start.stored, Recollected(start, path))
    decreases |path|
  {
    if path != [] {
      var before, last := path[..|path| - 1], path[|path| - 1];
      PathKeepsInv(start, before, clock);
      PathKeepsDiffsAt(start, before, clock);
      StepKeepsDiffsAt(PathEnd(start, before), last.event, start.stored, Recollected(start, before),
                       LastTime(before, clock), last.now);
    }
  }

  /** The last step refreshes the diff and finds one with files. */
  predicate RefreshFinds(before: Job, last: TaskEvent) {
    && last.Proceed? && last.payload.Collection? && ShowsFiles(last.payload.diff)
    && HasText(before.workspacePath) && HasText(before.baseline)
  }

  lemma {:induction false} LastStepLosesDiff(
    turn: Turn, event: TaskEvent, before: Job, collected: Option<ImplementationDiff>, clock: Time, now: Time)
    requires CanStep(turn, event, clock, now) && DiffsAt(turn, before, collected)
    requires ShowsFiles(before.implementationDiff) && TaskStep(turn, event, now).task.None?
    ensures !ShowsFiles(TaskStep(turn, event, now).stored.implementationDiff) <==>
      collected.Some? && collected.value.files == [] && event.Proceed? && !RefreshFinds(before, event)
  {
    var after := TaskStep(turn, event, now);
    if event.Proceed? && turn.task.value.pc.Refreshing? {
      assert after.stored.implementationDiff == Refreshed(turn.task.value.local, event.payload.diff).implementationDiff;
    } else if event.Proceed? && turn.task.value.pc.Validating? {
      assert after.stored.implementationDiff == turn.task.value.local.implementationDiff;
    } else {
      assert after.stored.implementationDiff == turn.stored.implementationDiff;
    }
  }

  /**
   A correction turns a diff with files into one without exactly when its
   re-collection yields a diff with no files, the run is not cut short before
   that is saved, and no later refresh finds a diff with files.
   */
  lemma {:induction false} CorrectionLosesDiffExactly(
    before: Job, ledger: Ledger, path: seq<TimedStep>, after: Job, clock: Time)
    requires TurnInv(Turn(before, Some(Task(CorrectRun, Entering, before)), ledger), clock) && Advances(path, clock)
    requires IsRunOf(CorrectRun, before, ledger, path, after) && ShowsFiles(before.implementationDiff)
    ensures path != []
    ensures
      var start := Turn(before, Some(Task(CorrectRun, Entering, before)), ledger);
      var collected, last := Recollected(start, path[..|path| - 1]), path[|path| - 1].event;
      !ShowsFiles(after.implementationDiff) <==>
        collected.Some? && collected.value.files == [] && last.Proceed? && !RefreshFinds(before, last)
  {
    var start := Turn(before, Some(Task(CorrectRun, Entering, before)), ledger);
    assert path != [];
    var prefix, last := path[..|path| - 1], path[|path| - 1];
    PathKeepsInv(start, prefix, clock);
    PathKeepsDiffsAt(start, prefix, clock);
    LastStepLosesDiff(PathEnd(start, prefix), last.event, before, Recollected(start, prefix),
                      LastTime(prefix, clock), last.now);
  }

  // It happens

  /** The agent returns, and its correction is saved. */
  function AgentReturns(result: ImplementationResult, usage: AgentUsage): seq<CellEvent> {
    [OnTask(0, Finish(ImplReturned(result, usage))), OnTask(0, Proceed(Nothing)), OnTask(0, Proceed(Nothing))]
  }

  /** The re-collection is empty, validation raises, and the refresh finds nothing. */
  function EmptyRecollection(empty: ImplementationDiff): seq<CellEvent> {
    [OnTask(0, Proceed(Collection(Some(empty)))), OnTask(0, RaiseOther), OnTask(0, Proceed(Collection(None)))]
  }

  /** A correction that was started at `now` and returned, once it is revalidating. */
  function RevalidatingAt(cell: Cell, result: ImplementationResult, usage: AgentUsage, now: Time): Cell {
    var job := cell.stored.(state := Revalidating, correctionStartedAt := Some(now + 2),
                            correctionResult := Some(result), correctionUsage := Some(usage), updatedAt := now + 6);
    Cell(job, [Task(CorrectRun, Recollecting, job)],
         Book(Running(cell, now).ledger, CorrectRun, Some(usage)), false)
  }

  /** Its record when it has failed and its empty diff is saved. */
  function DiffGone(revalidating: Job, empty: ImplementationDiff, now: Time): Job {
    revalidating.(implementationDiff := Some(empty), state := ImplementationReady, correctionAttempted := true,
                  correctionError := Some(JobError(Internal, Revalidating)), updatedAt := now)
  }

  lemma {:induction false} AgentReturnsSteps(cell: Cell, result: ImplementationResult, usage: AgentUsage, now: Time)
    ensures CellSteps(Running(cell, now), AgentReturns(result, usage), now + 4) ==
      Some(RevalidatingAt(cell, result, usage, now))
  {
    var events, running := AgentReturns(result, usage), Running(cell, now);
    var booked := Book(running.ledger, CorrectRun, Some(usage));
    var corrected := running.stored.(correctionResult := Some(result), correctionUsage := Some(usage), updatedAt := now + 5);
    var restoring := Task(CorrectRun, Restoring(ImplReturned(result, usage)), running.stored);
    var c1 := Cell(running.stored, [restoring], booked, false);
    var c2 := Cell(corrected, [Task(CorrectRun, CorrectionSaved, corrected)], booked, false);
    var c3 := RevalidatingAt(cell, result, usage, now);
    ThreeSteps(running, c1, c2, c3, events, now + 4);
  }

  /** The revalidating job as the `except` block refreshes its diff. */
  function RefreshingCell(revalidating: Cell, empty: ImplementationDiff): Cell {
    var local := revalidating.stored.(implementationDiff := Some(empty));
    revalidating.(tasks := [Task(CorrectRun, Refreshing(Internal), local)])
  }

  lemma {:induction false} RefreshFindsNothing(revalidating: Cell, empty: ImplementationDiff, now: Time)
    requires revalidating.stored.state == Revalidating
    ensures
      var refreshing, found := RefreshingCell(revalidating, empty), OnTask(0, Proceed(Collection(None)));
      && Enabled(refreshing, found)
      && Step(refreshing, found, now) ==
           revalidating.(stored := DiffGone(revalidating.stored, empty, now), tasks := [])
  {}

  lemma {:induction false} EmptyRecollectionSteps(revalidating: Cell, empty: ImplementationDiff, now: Time)
    requires revalidating.tasks == [Task(CorrectRun, Recollecting, revalidating.stored)]
    requires revalidating.stored.state == Revalidating && empty.files == []
    ensures CellSteps(revalidating, EmptyRecollection(empty), now) ==
      Some(revalidating.(stored := DiffGone(revalidating.stored, empty, now + 2), tasks := []))
  {
    var local := revalidating.stored.(implementationDiff := Some(empty));
    RefreshFindsNothing(revalidating, empty, now + 2);
    ThreeSteps(revalidating, revalidating.(tasks := [Task(CorrectRun, Pc.Validating, local)]),
               RefreshingCell(revalidating, empty),
               revalidating.(stored := DiffGone(revalidating.stored, empty, now + 2), tasks := []),
               EmptyRecollection(empty), now);
  }

  function CorrectionLosesDiff(result: ImplementationResult, usage: AgentUsage, empty: ImplementationDiff): seq<CellEvent> {
    CORRECTION_REACHES_AGENT + (AgentReturns(result, usage) + EmptyRecollection(empty))
  }

  lemma {:induction false} FailsAfterAgent(
    cell: Cell, result: ImplementationResult, usage: AgentUsage, empty: ImplementationDiff, now: Time)
    requires empty.files == []
    ensures
      var at := RevalidatingAt(cell, result, usage, now);
      CellSteps(Running(cell, now), AgentReturns(result, usage) + EmptyRecollection(empty), now + 4) ==
        Some(at.(stored := DiffGone(at.stored, empty, now + 9), tasks := []))
  {
    var at := RevalidatingAt(cell, result, usage, now);
    AgentReturnsSteps(cell, result, usage, now);
    EmptyRecollectionSteps(at, empty, now + 7);
    CellStepsAppend(Running(cell, now), AgentReturns(result, usage), at, EmptyRecollection(empty),
                    at.(stored := DiffGone(at.stored, empty, now + 9), tasks := []), now + 4);
  }

  /**
   So from any correctable job whose diff shows its claimed changes, a
   correction that fails can end ready with an empty diff.
   */
  lemma {:induction false} FailedCorrectionCanLoseDiff(
    cell: Cell, result: ImplementationResult, usage: AgentUsage, empty: ImplementationDiff, clock: Time, now: Time)
    requires Inv(cell, clock) && CanCorrect(cell.stored) && clock < now && empty.files == []
    requires Claims(cell.stored) && ShowsFiles(cell.stored.implementationDiff)
    ensures
      var end := CellSteps(cell, CorrectionLosesDiff(result, usage, empty), now);
      && end.Some? && end.value.stored.state == ImplementationReady && end.value.stored.correctionError.Some?
      && end.value.stored.implementationResult == cell.stored.implementationResult
      && ClaimsUnseenChanges(cell.stored.implementationResult.value, end.value.stored.implementationDiff)
  {
    var at := RevalidatingAt(cell, result, usage, now);
    var end := at.(stored := DiffGone(at.stored, empty, now + 9), tasks := []);
    CorrectionReachesAgent(cell, clock, now);
    FailsAfterAgent(cell, result, usage, empty, now);
    AfterReachingAgent(cell, AgentReturns(result, usage) + EmptyRecollection(empty), end, now);
    assert CellSteps(cell, CorrectionLosesDiff(result, usage, empty), now) == Some(end);
  }
}
