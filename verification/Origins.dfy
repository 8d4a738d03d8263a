/**
 Where a record's fields come from: each time stamp, the baseline and the
 owner are what the run's own events set, and some of them are set only once.
 */
module Origins {
  import opened Prelude
  import opened Models
  import opened Transitions
  import opened Lifecycle
  import opened LifecycleInvariant
  import opened System
  import opened SystemInvariant

  /** When and as what the events of a run created, approved, started and finished a job. */
  datatype Origin = Origin(
    created: Time, owner: Option<Owner>, approved: Option<Time>, started: Option<Time>, finished: Option<Time>,
    corrected: Option<Time>, baseline: Option<string>)

  /** The head of the workspace is read as an implementation starts. */
  predicate ReadsHead(task: Task, event: TaskEvent) {
    event.Proceed? && task.pc.ReadingHead? && event.payload.Head?
  }

  /** The validation of an implementation is over. */
  predicate Validates(task: Task, event: TaskEvent) {
    event.Proceed? && task.pc.Validating? && task.kind == ImplementRun
  }

  /** A correction passes its checks in the slot. */
  predicate StartsCorrection(task: Task, event: TaskEvent) {
    event.Grant? && !event.overBudget && task.kind == CorrectRun && task.local.state == Correcting
  }

  function OriginAfterTask(origin: Origin, task: Task, event: TaskEvent, now: Time): Origin {
    if ReadsHead(task, event) then
      var head := event.payload.ref;
      origin.(started := Some(now), baseline := if head.Some? then head else Some("HEAD"))
    else if Validates(task, event) then origin.(finished := Some(now))
    else if StartsCorrection(task, event) then origin.(corrected := Some(now))
    else origin
  }

  function OriginAfter(origin: Origin, cell: Cell, event: CellEvent, now: Time): Origin
    requires Enabled(cell, event)
  {
    match event
    case Implement(_) => origin.(approved := Some(now), started := None, finished := None)
    case Correct(_) => origin.(corrected := None)
    case OnTask(i, e) => OriginAfterTask(origin, cell.tasks[i], e, now)
    case _ => origin
  }

  /** What the events of the run made of the job. */
  ghost function OriginOf(cfg: Config, events: seq<Timed>, id: Id): Origin
    requires IsRun(cfg, events) && id in StateAfter(cfg, events).cells
    decreases |events|
  {
    var before, last := events[..|events| - 1], events[|events| - 1];
    var s := StateAfter(cfg, before);
    NextCell(cfg, s, last.event, last.now, id);
    if id !in s.cells then Origin(last.now, last.event.owner, None, None, None, None, None)
    else if Touches(cfg, s, last.event, id).Some? then
      OriginAfter(OriginOf(cfg, before, id), s.cells[id], Touches(cfg, s, last.event, id).value, last.now)
    else OriginOf(cfg, before, id)
  }

  /** An implementation's own stamps are not there before its events set them. */
  predicate NotStampedYet(pc: Pc, job: Job) {
    && (pc.Entering? || pc.Waiting? || pc.ReadingHead? ==> job.startedAt.None?)
    && job.finishedAt.None?
  }

  /** The record shows its origin; what is still on the task's copy is what its next save will show. */
  predicate Shows(turn: Turn, origin: Origin) {
    var job := turn.stored;
    && job.createdAt == origin.created && job.owner == origin.owner && job.approvedAt == origin.approved
    && job.correctionStartedAt == origin.corrected && job.baseline == origin.baseline
    && (job.startedAt.Some? ==> job.startedAt == origin.started)
    && (job.finishedAt.Some? ==> job.finishedAt == origin.finished)
    && (Live(turn, ImplementRun) ==> NotStampedYet(turn.task.value.pc, job))
    && (RunsAt(turn, ImplementRun, HeadSaved) ==> origin.started == Some(job.updatedAt))
    && (RunsAt(turn, ImplementRun, Validated) ==> origin.finished == Some(job.updatedAt))
  }

  predicate SameOrigin(before: Job, after: Job) {
    && after.createdAt == before.createdAt && after.owner == before.owner && after.approvedAt == before.approvedAt
    && after.correctionStartedAt == before.correctionStartedAt && after.baseline == before.baseline
    && after.startedAt == before.startedAt && after.finishedAt == before.finishedAt
  }

  /** Steps that neither set one of these fields nor save one set before. */
  predicate SetsNothing(task: Task, event: TaskEvent) {
    && !(event.Proceed? && (task.pc.ReadingHead? || task.pc.HeadSaved? || task.pc.Validated?))
    && !Validates(task, event) && !StartsCorrection(task, event)
  }

  /** Such a step keeps what the record shows of its origin. */
  predicate KeepsOrigin(turn: Turn, after: Turn) {
    && SameOrigin(turn.stored, after.stored)
    && !RunsAt(after, ImplementRun, HeadSaved) && !RunsAt(after, ImplementRun, Validated)
    && (Live(after, ImplementRun) ==> Live(turn, ImplementRun))
    && (Live(after, ImplementRun) && IsEarly(after.task.value.pc) ==> IsEarly(turn.task.value.pc))
  }

  predicate IsEarly(pc: Pc) {
    pc.Entering? || pc.Waiting? || pc.ReadingHead?
  }

  lemma {:induction false} PlanKeepsOrigin(turn: Turn, event: TaskEvent, clock: Time, now: Time)
    requires CanStep(turn, event, clock, now) && Live(turn, PlanRun) && SetsNothing(turn.task.value, event)
    ensures KeepsOrigin(turn, TaskStep(turn, event, now))
  {
    if event.Proceed? {
      PlanProceeds(turn, event, clock, now);
    }
  }

  lemma {:induction false} PlanProceeds(turn: Turn, event: TaskEvent, clock: Time, now: Time)
    requires CanStep(turn, event, clock, now) && Live(turn, PlanRun) && event.Proceed?
    ensures KeepsOrigin(turn, TaskStep(turn, event, now))
  {}

  lemma {:induction false} OtherKeepsOrigin(turn: Turn, event: TaskEvent, clock: Time, now: Time)
    requires CanStep(turn, event, clock, now) && !Live(turn, PlanRun) && !event.Proceed?
    requires SetsNothing(turn.task.value, event)
    ensures KeepsOrigin(turn, TaskStep(turn, event, now))
  {
    if event.Grant? {
      GrantKeepsOrigin(turn, event, clock, now);
    } else if event.Cancel? || event.RaiseOther? {
      CutShortKeepsOrigin(turn, event, clock, now);
    }
  }

  lemma {:induction false} CutShortKeepsOrigin(turn: Turn, event: TaskEvent, clock: Time, now: Time)
    requires CanStep(turn, event, clock, now) && !Live(turn, PlanRun) && (event.Cancel? || event.RaiseOther?)
    ensures KeepsOrigin(turn, TaskStep(turn, event, now))
  {}

  lemma {:induction false} GrantKeepsOrigin(turn: Turn, event: TaskEvent, clock: Time, now: Time)
    requires CanStep(turn, event, clock, now) && !Live(turn, PlanRun) && event.Grant?
    requires SetsNothing(turn.task.value, event)
    ensures KeepsOrigin(turn, TaskStep(turn, event, now))
  {}

  lemma {:induction false} RestoredKeepsOrigin(turn: Turn, event: TaskEvent, clock: Time, now: Time)
    requires CanStep(turn, event, clock, now) && !Live(turn, PlanRun) && event.Proceed?
    requires turn.task.value.pc.Restoring?
    ensures KeepsOrigin(turn, TaskStep(turn, event, now))
  {}

  predicate IsLast(pc: Pc) {
    pc.Validating? || pc.Refreshing?
  }

  lemma {:induction false} EarlierCorrectKeepsOrigin(turn: Turn, event: TaskEvent, clock: Time, now: Time)
    requires CanStep(turn, event, clock, now) && Live(turn, CorrectRun) && event.Proceed?
    requires !turn.task.value.pc.Restoring? && !IsLast(turn.task.value.pc)
    ensures KeepsOrigin(turn, TaskStep(turn, event, now))
  {
    assert SameOrigin(turn.stored, turn.task.value.local);
  }

  lemma {:induction false} LastCorrectKeepsOrigin(turn: Turn, event: TaskEvent, clock: Time, now: Time)
    requires CanStep(turn, event, clock, now) && Live(turn, CorrectRun) && event.Proceed?
    requires IsLast(turn.task.value.pc)
    ensures KeepsOrigin(turn, TaskStep(turn, event, now))
  {
    assert SameOrigin(turn.stored, turn.task.value.local);
  }

  lemma {:induction false} EarlierImplementKeepsOrigin(turn: Turn, event: TaskEvent, clock: Time, now: Time)
    requires CanStep(turn, event, clock, now) && Live(turn, ImplementRun) && event.Proceed?
    requires !turn.task.value.pc.Restoring? && !turn.task.value.pc.Refreshing? && SetsNothing(turn.task.value, event)
    ensures KeepsOrigin(turn, TaskStep(turn, event, now))
  {
    assert turn.task.value.local == turn.stored;
  }

  lemma {:induction false} HandledImplementKeepsOrigin(turn: Turn, event: TaskEvent, clock: Time, now: Time)
    requires CanStep(turn, event, clock, now) && Live(turn, ImplementRun) && event.Proceed?
    requires turn.task.value.pc.Refreshing?
    ensures KeepsOrigin(turn, TaskStep(turn, event, now))
  {
    assert SameOrigin(turn.stored, turn.task.value.local);
  }

  lemma {:induction false} TaskKeepsOrigin(turn: Turn, event: TaskEvent, clock: Time, now: Time)
    requires CanStep(turn, event, clock, now) && SetsNothing(turn.task.value, event)
    ensures KeepsOrigin(turn, TaskStep(turn, event, now))
  {
    if Live(turn, PlanRun) {
      PlanKeepsOrigin(turn, event, clock, now);
    } else if !event.Proceed? {
      OtherKeepsOrigin(turn, event, clock, now);
    } else if turn.task.value.pc.Restoring? {
      RestoredKeepsOrigin(turn, event, clock, now);
    } else if Live(turn, CorrectRun) {
      if IsLast(turn.task.value.pc) {
        LastCorrectKeepsOrigin(turn, event, clock, now);
      } else {
        EarlierCorrectKeepsOrigin(turn, event, clock, now);
      }
    } else if turn.task.value.pc.Refreshing? {
      HandledImplementKeepsOrigin(turn, event, clock, now);
    } else {
      EarlierImplementKeepsOrigin(turn, event, clock, now);
    }
  }

  lemma {:induction false} TaskShows(turn: Turn, origin: Origin, event: TaskEvent, clock: Time, now: Time)
    requires CanStep(turn, event, clock, now) && Shows(turn, origin)
    ensures Shows(TaskStep(turn, event, now), OriginAfterTask(origin, turn.task.value, event, now))
  {
    if SetsNothing(turn.task.value, event) {
      TaskKeepsOrigin(turn, event, clock, now);
    } else if event.Grant? {
      StartShows(turn, origin, event, clock, now);
    } else {
      StampShows(turn, origin, event, clock, now);
    }
  }

  lemma {:induction false} StartShows(turn: Turn, origin: Origin, event: TaskEvent, clock: Time, now: Time)
    requires CanStep(turn, event, clock, now) && Shows(turn, origin) && StartsCorrection(turn.task.value, event)
    ensures Shows(TaskStep(turn, event, now), OriginAfterTask(origin, turn.task.value, event, now))
  {}

  lemma {:induction false} StampShows(turn: Turn, origin: Origin, event: TaskEvent, clock: Time, now: Time)
    requires CanStep(turn, event, clock, now) && Shows(turn, origin)
    requires event.Proceed? && !SetsNothing(turn.task.value, event)
    ensures Shows(TaskStep(turn, event, now), OriginAfterTask(origin, turn.task.value, event, now))
  {
    if turn.task.value.pc.ReadingHead? {
      HeadShows(turn, origin, event, clock, now);
    } else if Validates(turn.task.value, event) {
      ResultsShow(turn, origin, event, clock, now);
    }
  }

  lemma {:induction false} HeadShows(turn: Turn, origin: Origin, event: TaskEvent, clock: Time, now: Time)
    requires CanStep(turn, event, clock, now) && Shows(turn, origin)
    requires event.Proceed? && turn.task.value.pc.ReadingHead?
    ensures Shows(TaskStep(turn, event, now), OriginAfterTask(origin, turn.task.value, event, now))
  {}

  lemma {:induction false} ResultsShow(turn: Turn, origin: Origin, event: TaskEvent, clock: Time, now: Time)
    requires CanStep(turn, event, clock, now) && Shows(turn, origin) && Validates(turn.task.value, event)
    ensures Shows(TaskStep(turn, event, now), OriginAfterTask(origin, turn.task.value, event, now))
  {}

  lemma {:induction false} StepShows(cell: Cell, origin: Origin, event: CellEvent, clock: Time, now: Time)
    requires Inv(cell, clock) && clock < now && Enabled(cell, event) && Shows(View(cell), origin)
    requires event.Recover? ==> cell.tasks == []
    ensures Shows(View(Step(cell, event, now)), OriginAfter(origin, cell, event, now))
  {
    match event
    case OnTask(_, e) =>
      TaskShows(View(cell), origin, e, clock, now);
      OnTaskView(cell, event, now);
    case _ =>
  }

  /**
   In every run each job's record shows what the run's own events set: when it
   was created and for whom, when it was approved, which head was read as its
   implementation started and when, when that was validated, and when its
   correction passed its checks.
   */
  lemma {:induction false} OriginsAreRecorded(cfg: Config, events: seq<Timed>, id: Id)
    requires IsRun(cfg, events) && id in StateAfter(cfg, events).cells
    ensures Shows(View(StateAfter(cfg, events).cells[id]), OriginOf(cfg, events, id))
    decreases |events|
  {
    var before, last := events[..|events| - 1], events[|events| - 1];
    var s := StateAfter(cfg, before);
    NextCell(cfg, s, last.event, last.now, id);
    if id in s.cells {
      RunsKeepInv(cfg, before);
      OriginsAreRecorded(cfg, before, id);
      var touch := Touches(cfg, s, last.event, id);
      if touch.Some? {
        StepShows(s.cells[id], OriginOf(cfg, before, id), touch.value, s.clock, last.now);
      }
    }
  }

  // What is set only once

  /** Before its approval a job has no approval; before its head is read it has no baseline. */
  predicate NotYet(turn: Turn) {
    && (BeforeApproval(turn.stored.state) ==> turn.stored.approvedAt.None? && turn.stored.baseline.None?)
    && (Live(turn, ImplementRun) && IsEarly(turn.task.value.pc) ==> turn.stored.baseline.None?)
  }

  lemma {:induction false} TaskKeepsNotYet(turn: Turn, event: TaskEvent, clock: Time, now: Time)
    requires CanStep(turn, event, clock, now) && NotYet(turn)
    ensures NotYet(TaskStep(turn, event, now))
  {
    var after := TaskStep(turn, event, now);
    if BeforeApproval(after.stored.state) {
      StateAfterTask(turn, event, clock, now);
      PlanSetsNothing(turn, event, clock, now);
      TaskKeepsOrigin(turn, event, clock, now);
    }
    if Live(after, ImplementRun) && IsEarly(after.task.value.pc) {
      EarlyAfterTask(turn, event, clock, now);
    }
  }

  lemma {:induction false} PlanSetsNothing(turn: Turn, event: TaskEvent, clock: Time, now: Time)
    requires CanStep(turn, event, clock, now) && BeforeApproval(turn.stored.state)
    ensures SetsNothing(turn.task.value, event)
  {}

  predicate BeforeApproval(state: JobState) {
    BeforePlanning(state) || state.Planning? || state.PlanReady?
  }

  /** Only a plan run leads to a state before the approval. */
  lemma {:induction false} StateAfterTask(turn: Turn, event: TaskEvent, clock: Time, now: Time)
    requires CanStep(turn, event, clock, now) && BeforeApproval(TaskStep(turn, event, now).stored.state)
    ensures BeforeApproval(turn.stored.state)
  {
    if !Live(turn, PlanRun) && event.Proceed? {
      LateStatesStay(turn, event, clock, now);
    }
  }

  lemma {:induction false} LateStatesStay(turn: Turn, event: TaskEvent, clock: Time, now: Time)
    requires CanStep(turn, event, clock, now) && !Live(turn, PlanRun) && event.Proceed?
    ensures !BeforeApproval(TaskStep(turn, event, now).stored.state)
  {
    if turn.task.value.pc.Restoring? {
      RestoredStateStays(turn, event, clock, now);
    } else if Live(turn, CorrectRun) {
      CorrectStateStays(turn, event, clock, now);
    } else {
      ImplementStateStays(turn, event, clock, now);
    }
  }

  lemma {:induction false} RestoredStateStays(turn: Turn, event: TaskEvent, clock: Time, now: Time)
    requires CanStep(turn, event, clock, now) && !Live(turn, PlanRun) && event.Proceed?
    requires turn.task.value.pc.Restoring?
    ensures !BeforeApproval(TaskStep(turn, event, now).stored.state)
  {}

  lemma {:induction false} CorrectStateStays(turn: Turn, event: TaskEvent, clock: Time, now: Time)
    requires CanStep(turn, event, clock, now) && Live(turn, CorrectRun) && event.Proceed?
    requires !turn.task.value.pc.Restoring?
    ensures !BeforeApproval(TaskStep(turn, event, now).stored.state)
  {}

  lemma {:induction false} ImplementStateStays(turn: Turn, event: TaskEvent, clock: Time, now: Time)
    requires CanStep(turn, event, clock, now) && Live(turn, ImplementRun) && event.Proceed?
    requires !turn.task.value.pc.Restoring?
    ensures !BeforeApproval(TaskStep(turn, event, now).stored.state)
  {
    if turn.task.value.pc.Collecting? {
      CollectedStateStays(turn, event, clock, now);
    }
  }

  lemma {:induction false} CollectedStateStays(turn: Turn, event: TaskEvent, clock: Time, now: Time)
    requires CanStep(turn, event, clock, now) && Live(turn, ImplementRun) && event.Proceed?
    requires turn.task.value.pc.Collecting?
    ensures !BeforeApproval(TaskStep(turn, event, now).stored.state)
  {}

  /** And only an implementation's own first steps are its first steps. */
  lemma {:induction false} EarlyAfterTask(turn: Turn, event: TaskEvent, clock: Time, now: Time)
    requires CanStep(turn, event, clock, now)
    requires Live(TaskStep(turn, event, now), ImplementRun) && IsEarly(TaskStep(turn, event, now).task.value.pc)
    ensures Live(turn, ImplementRun) && IsEarly(turn.task.value.pc)
    ensures TaskStep(turn, event, now).stored.baseline == turn.stored.baseline
  {}

  lemma {:induction false} StepKeepsNotYet(cell: Cell, event: CellEvent, clock: Time, now: Time)
    requires Inv(cell, clock) && clock < now && Enabled(cell, event) && NotYet(View(cell))
    requires event.Recover? ==> cell.tasks == []
    ensures NotYet(View(Step(cell, event, now)))
  {
    match event
    case OnTask(_, e) =>
      TaskKeepsNotYet(View(cell), e, clock, now);
      OnTaskView(cell, event, now);
    case _ =>
  }

  lemma {:induction false} NotYetInRuns(cfg: Config, events: seq<Timed>, id: Id)
    requires IsRun(cfg, events) && id in StateAfter(cfg, events).cells
    ensures NotYet(View(StateAfter(cfg, events).cells[id]))
    decreases |events|
  {
    var before, last := events[..|events| - 1], events[|events| - 1];
    var s := StateAfter(cfg, before);
    NextCell(cfg, s, last.event, last.now, id);
    if id in s.cells {
      RunsKeepInv(cfg, before);
      NotYetInRuns(cfg, before, id);
      var touch := Touches(cfg, s, last.event, id);
      if touch.Some? {
        StepKeepsNotYet(s.cells[id], touch.value, s.clock, last.now);
      }
    }
  }

  /** An approval and a baseline stay once they are there; the creation and the owner always do. */
  predicate Stays(before: Job, after: Job) {
    && after.createdAt == before.createdAt && after.owner == before.owner
    && (before.approvedAt.Some? ==> after.approvedAt == before.approvedAt)
    && (before.baseline.Some? ==> after.baseline == before.baseline)
  }

  lemma {:induction false} StepKeepsSet(cell: Cell, event: CellEvent, clock: Time, now: Time)
    requires Inv(cell, clock) && clock < now && Enabled(cell, event) && NotYet(View(cell))
    requires event.Recover? ==> cell.tasks == []
    ensures Stays(cell.stored, Step(cell, event, now).stored)
  {
    if event.OnTask? {
      OnTaskView(cell, event, now);
      TaskKeepsSet(View(cell), event.event, clock, now);
    }
  }

  lemma {:induction false} TaskKeepsSet(turn: Turn, event: TaskEvent, clock: Time, now: Time)
    requires CanStep(turn, event, clock, now) && NotYet(turn)
    ensures Stays(turn.stored, TaskStep(turn, event, now).stored)
  {
    if SetsNothing(turn.task.value, event) {
      TaskKeepsOrigin(turn, event, clock, now);
    }
  }

  /** What a step of one job may rely on. */
  lemma {:induction false} TouchedCell(cfg: Config, s: Sys, event: Event, now: Time, id: Id)
    requires CellsOk(s) && Possible(cfg, s, event, now) && id in s.cells && Touches(cfg, s, event, id).Some?
    ensures Inv(s.cells[id], s.clock) && s.clock < now
    ensures Touches(cfg, s, event, id).value.Recover? ==> s.cells[id].tasks == []
  {}

  lemma {:induction false} NextKeepsSet(cfg: Config, s: Sys, event: Event, now: Time, id: Id)
    requires CellsOk(s) && Possible(cfg, s, event, now) && id in s.cells && NotYet(View(s.cells[id]))
    requires id in Next(cfg, s, event, now).cells
    ensures Stays(s.cells[id].stored, Next(cfg, s, event, now).cells[id].stored)
  {
    NextCell(cfg, s, event, now, id);
    var touch := Touches(cfg, s, event, id);
    if touch.Some? {
      TouchedCell(cfg, s, event, now, id);
      StepKeepsSet(s.cells[id], touch.value, s.clock, now);
    }
  }

  /**
   However a run goes on, with retries, corrections, crashes and recoveries: no
   later event changes the commit that an implementation is compared with, or
   when the job was approved or created, or whose it is.
   */
  lemma {:induction false} SetOnce(cfg: Config, events: seq<Timed>, n: nat, id: Id)
    requires IsRun(cfg, events) && n <= |events| && IsRun(cfg, events[..n]) && id in StateAfter(cfg, events[..n]).cells
    ensures id in StateAfter(cfg, events).cells
    ensures Stays(StateAfter(cfg, events[..n]).cells[id].stored, StateAfter(cfg, events).cells[id].stored)
    decreases |events|
  {
    if n == |events| {
      assert events[..n] == events;
    } else {
      var before, last := events[..|events| - 1], events[|events| - 1];
      assert before[..n] == events[..n];
      SetOnce(cfg, before, n, id);
      RunsKeepInv(cfg, before);
      NotYetInRuns(cfg, before, id);
      CellsStay(cfg, StateAfter(cfg, before), last.event, last.now, id);
      NextKeepsSet(cfg, StateAfter(cfg, before), last.event, last.now, id);
    }
  }

  // What a correction is for

  predicate HasFailures(job: Job) {
    IsCorrectionState(job.state) ==> CorrectableFailures(job.validationResults) != []
  }

  lemma {:induction false} TaskKeepsFailures(turn: Turn, event: TaskEvent, clock: Time, now: Time)
    requires CanStep(turn, event, clock, now) && HasFailures(turn.stored)
    ensures HasFailures(TaskStep(turn, event, now).stored)
  {
    if IsCorrectionState(TaskStep(turn, event, now).stored.state) {
      ResultsAfter(turn, event, clock, now);
    }
  }

  lemma {:induction false} ResultsAfter(turn: Turn, event: TaskEvent, clock: Time, now: Time)
    requires CanStep(turn, event, clock, now) && IsCorrectionState(TaskStep(turn, event, now).stored.state)
    ensures IsCorrectionState(turn.stored.state)
    ensures TaskStep(turn, event, now).stored.validationResults == turn.stored.validationResults
  {
    if Live(turn, CorrectRun) {
      assert turn.task.value.pc.Entering? || turn.task.value.local.validationResults == turn.stored.validationResults;
    } else {
      OthersCorrectNothing(turn, event, clock, now);
    }
  }

  lemma {:induction false} OthersCorrectNothing(turn: Turn, event: TaskEvent, clock: Time, now: Time)
    requires CanStep(turn, event, clock, now) && !Live(turn, CorrectRun)
    ensures !IsCorrectionState(TaskStep(turn, event, now).stored.state)
  {
    if event.Proceed? && Live(turn, ImplementRun) {
      assert turn.task.value.pc.Restoring? ==> !IsCorrectionState(TaskStep(turn, event, now).stored.state);
    }
  }

  /** In every run a job under correction has failures to hand to its agent. */
  lemma {:induction false} CorrectionsHaveFailures(cfg: Config, events: seq<Timed>, id: Id)
    requires IsRun(cfg, events) && id in StateAfter(cfg, events).cells
    ensures HasFailures(StateAfter(cfg, events).cells[id].stored)
    decreases |events|
  {
    var before, last := events[..|events| - 1], events[|events| - 1];
    var s := StateAfter(cfg, before);
    NextCell(cfg, s, last.event, last.now, id);
    if id in s.cells {
      RunsKeepInv(cfg, before);
      CorrectionsHaveFailures(cfg, before, id);
      var touch := Touches(cfg, s, last.event, id);
      if touch.Some? {
        StepKeepsFailures(s.cells[id], touch.value, s.clock, last.now);
      }
    }
  }

  lemma {:induction false} StepKeepsFailures(cell: Cell, event: CellEvent, clock: Time, now: Time)
    requires Inv(cell, clock) && clock < now && Enabled(cell, event) && HasFailures(cell.stored)
    ensures HasFailures(Step(cell, event, now).stored)
  {
    if event.OnTask? {
      TaskKeepsFailures(View(cell), event.event, clock, now);
      OnTaskView(cell, event, now);
    }
  }

  // What the ledger counts

  /** The step starts the task's agent. */
  predicate StartsAgent(task: Task, event: TaskEvent) {
    && event.Proceed?
    && (task.pc.PlanSaved? || (task.pc.Preparing? && (task.kind == CorrectRun ==> HasText(task.local.workspacePath))))
  }

  function CallsOf(ledger: Ledger, kind: Kind): nat {
    match kind
    case PlanRun => ledger.planCalls
    case ImplementRun => ledger.implCalls
    case CorrectRun => ledger.correctionCalls
  }

  function BookedOf(ledger: Ledger, kind: Kind): seq<AgentUsage> {
    match kind
    case PlanRun => ledger.planBooked
    case ImplementRun => ledger.implBooked
    case CorrectRun => ledger.correctionBooked
  }

  /** The step counts the agent starts and books the usages of this kind. */
  predicate Counts(turn: Turn, event: TaskEvent, kind: Kind, after: Ledger)
    requires turn.task.Some?
  {
    var task, before := turn.task.value, turn.ledger;
    && CallsOf(after, kind) == CallsOf(before, kind) + (if StartsAgent(task, event) && task.kind == kind then 1 else 0)
    && BookedOf(after, kind) == BookedOf(before, kind)
         + if event.Finish? && task.kind == kind then AsSeq(UsageOf(event.outcome)) else []
  }

  lemma {:induction false} LedgerCounts(turn: Turn, event: TaskEvent, kind: Kind, now: Time)
    requires turn.task.Some? && TaskEnabled(turn.task.value, event)
    ensures Counts(turn, event, kind, TaskStep(turn, event, now).ledger)
  {
    if event.Proceed? {
      ProceedCounts(turn, event, kind, now);
    }
  }

  lemma {:induction false} ProceedCounts(turn: Turn, event: TaskEvent, kind: Kind, now: Time)
    requires turn.task.Some? && TaskEnabled(turn.task.value, event) && event.Proceed?
    ensures Counts(turn, event, kind, TaskStep(turn, event, now).ledger)
  {}

  /** How often the run started the job's agents of this kind. */
  ghost function StartsIn(cfg: Config, events: seq<Timed>, id: Id, kind: Kind): nat
    requires IsRun(cfg, events)
    decreases |events|
  {
    if events == [] then 0
    else
      var before, last := events[..|events| - 1], events[|events| - 1];
      var s := StateAfter(cfg, before);
      StartsIn(cfg, before, id, kind)
      + if IsTaskEvent(s, last.event, id) && TaskOf(s, id).kind == kind && StartsAgent(TaskOf(s, id), last.event.event.event)
        then 1 else 0
  }

  /** All the usages those agents returned or put on their errors, in order. */
  ghost function UsagesIn(cfg: Config, events: seq<Timed>, id: Id, kind: Kind): seq<AgentUsage>
    requires IsRun(cfg, events)
    decreases |events|
  {
    if events == [] then []
    else
      var before, last := events[..|events| - 1], events[|events| - 1];
      var s := StateAfter(cfg, before);
      UsagesIn(cfg, before, id, kind)
      + if IsTaskEvent(s, last.event, id) && TaskOf(s, id).kind == kind && last.event.event.event.Finish?
        then AsSeq(UsageOf(last.event.event.event.outcome)) else []
  }

  predicate IsTaskEvent(s: Sys, event: Event, id: Id) {
    event.OnCell? && event.id == id && event.event.OnTask? && id in s.cells && s.cells[id].tasks != []
  }

  function TaskOf(s: Sys, id: Id): Task
    requires id in s.cells && s.cells[id].tasks != []
  {
    s.cells[id].tasks[0]
  }

  lemma {:induction false} NothingStartedYet(cfg: Config, events: seq<Timed>, id: Id, kind: Kind)
    requires IsRun(cfg, events) && id !in StateAfter(cfg, events).cells
    ensures StartsIn(cfg, events, id, kind) == 0 && UsagesIn(cfg, events, id, kind) == []
    decreases |events|
  {
    if events != [] {
      var before, last := events[..|events| - 1], events[|events| - 1];
      CellsStay(cfg, StateAfter(cfg, before), last.event, last.now, id);
      NothingStartedYet(cfg, before, id, kind);
    }
  }

  lemma {:induction false} CellsStay(cfg: Config, s: Sys, event: Event, now: Time, id: Id)
    requires Possible(cfg, s, event, now)
    ensures id in s.cells ==> id in Next(cfg, s, event, now).cells
  {}

  lemma {:induction false} StepLedger(cell: Cell, event: CellEvent, kind: Kind, clock: Time, now: Time)
    requires Inv(cell, clock) && clock < now && Enabled(cell, event)
    ensures
      var after := Step(cell, event, now).ledger;
      if event.OnTask? then
        && CallsOf(after, kind) == CallsOf(cell.ledger, kind)
             + (if StartsAgent(cell.tasks[0], event.event) && cell.tasks[0].kind == kind then 1 else 0)
        && BookedOf(after, kind) == BookedOf(cell.ledger, kind)
             + (if event.event.Finish? && cell.tasks[0].kind == kind then AsSeq(UsageOf(event.event.outcome)) else [])
      else after == cell.ledger
  {
    if event.OnTask? {
      LedgerCounts(View(cell), event.event, kind, now);
      OnTaskView(cell, event, now);
    }
  }

  lemma {:induction false} NextLedger(
    cfg: Config, s: Sys, event: Event, now: Time, id: Id, kind: Kind)
    requires CellsOk(s) && Possible(cfg, s, event, now) && id in s.cells && id in Next(cfg, s, event, now).cells
    ensures
      var before, after := s.cells[id].ledger, Next(cfg, s, event, now).cells[id].ledger;
      if IsTaskEvent(s, event, id) then
        && CallsOf(after, kind) == CallsOf(before, kind)
             + (if StartsAgent(TaskOf(s, id), event.event.event) && TaskOf(s, id).kind == kind then 1 else 0)
        && BookedOf(after, kind) == BookedOf(before, kind)
             + (if event.event.event.Finish? && TaskOf(s, id).kind == kind
                then AsSeq(UsageOf(event.event.event.outcome)) else [])
      else after == before
  {
    NextCell(cfg, s, event, now, id);
    var touch := Touches(cfg, s, event, id);
    if touch.Some? {
      StepLedger(s.cells[id], touch.value, kind, s.clock, now);
    }
  }

  /** The ledger's counts are those of the run's events: every agent start, and every usage an agent ended with. */
  lemma {:induction false} LedgerIsTheRun(cfg: Config, events: seq<Timed>, id: Id, kind: Kind)
    requires IsRun(cfg, events) && id in StateAfter(cfg, events).cells
    ensures CallsOf(StateAfter(cfg, events).cells[id].ledger, kind) == StartsIn(cfg, events, id, kind)
    ensures BookedOf(StateAfter(cfg, events).cells[id].ledger, kind) == UsagesIn(cfg, events, id, kind)
    decreases |events|
  {
    var before, last := events[..|events| - 1], events[|events| - 1];
    var s := StateAfter(cfg, before);
    if id in s.cells {
      RunsKeepInv(cfg, before);
      LedgerIsTheRun(cfg, before, id, kind);
      NextLedger(cfg, s, last.event, last.now, id, kind);
    } else {
      NextCell(cfg, s, last.event, last.now, id);
      NothingStartedYet(cfg, before, id, kind);
    }
  }
}
