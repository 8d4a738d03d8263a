/** The inductive invariant of one cell, and that every event keeps it. */
module LifecycleInvariant {
  import opened Prelude
  import opened Models
  import opened Transitions
  import opened Lifecycle

  // Which program points belong to which stored state

  predicate PlanAt(pc: Pc, state: JobState) {
    match pc
    case Entering => state == Queued
    case Waiting => state == Queued
    case Fetching => state == FetchingTicket
    case Cloning => state == CloningRepo
    case Mapping => state == MappingRepo
    case PlanSaved => state == Planning
    case Agent => state == Planning
    case _ => false
  }

  predicate ImplementAt(pc: Pc, state: JobState) {
    match pc
    case Entering => state == ImplementationQueued
    case Waiting => state == ImplementationQueued
    case ReadingHead => state == ImplementationQueued
    case HeadSaved => state == ImplementationQueued
    case Preparing => state == Implementing
    case Agent => state == Implementing
    case Restoring(outcome) => state == Implementing && !outcome.PlanReturned?
    case Collecting(_) => state == Implementing
    case Collected => state == Implementing
    case Validating => state == JobState.Validating
    case Validated => state == JobState.Validating
    case Refreshing(_) => IsImplementationState(state)
    case _ => false
  }

  predicate CorrectAt(pc: Pc, state: JobState) {
    match pc
    case Entering => state == Correcting
    case Waiting => state == Correcting
    case Preparing => state == Correcting
    case Agent => state == Correcting
    case Restoring(outcome) => state == Correcting && !outcome.PlanReturned?
    case CorrectionSaved => state == Correcting
    case Recollecting => state == Revalidating
    case Validating => state == Revalidating
    case Refreshing(_) => IsCorrectionState(state)
    case _ => false
  }

  predicate KindAt(task: Task, state: JobState) {
    match task.kind
    case PlanRun => PlanAt(task.pc, state)
    case ImplementRun => ImplementAt(task.pc, state)
    case CorrectRun => CorrectAt(task.pc, state)
  }

  /** The local copy is the stored record but for what was set since the last save. */
  predicate LocalAgrees(task: Task, stored: Job) {
    var local := task.local;
    match task.pc
    case Entering => true
    case HeadSaved => local == stored.(startedAt := Some(stored.updatedAt))
    case Validated => local == stored.(finishedAt := Some(stored.updatedAt))
    case Validating =>
      local == if task.kind == CorrectRun
               then stored.(implementationDiff := local.implementationDiff) else stored
    case Refreshing(_) =>
      if task.kind == CorrectRun then
        && local == stored.(correctionUsage := local.correctionUsage, implementationDiff := local.implementationDiff)
        && (local.correctionUsage.Some? || stored.correctionUsage.None?)
      else
        && local == stored.(implementationUsage := local.implementationUsage)
        && (local.implementationUsage.Some? || stored.implementationUsage.None?)
    case _ => local == stored
  }

  predicate BeforePlanning(state: JobState) {
    (state.Queued? || state.FetchingTicket? || state.CloningRepo? || state.MappingRepo?)
  }

  predicate BeforeImplementing(state: JobState) {
    BeforePlanning(state) || (state.Planning? || state.PlanReady? || state.ImplementationQueued? || state.Failed?)
  }

  predicate BeforeCorrecting(state: JobState) {
    BeforeImplementing(state) || (state.Implementing? || state.Validating?)
  }

  predicate Live(turn: Turn, kind: Kind) {
    turn.task.Some? && turn.task.value.kind == kind
  }

  predicate RunsAt(turn: Turn, kind: Kind, pc: Pc) {
    Live(turn, kind) && turn.task.value.pc == pc
  }

  /** A live task fits the stored record; only a finished job can lose its workspace. */
  predicate Shape(turn: Turn) {
    && (turn.task.Some? ==> KindAt(turn.task.value, turn.stored.state) && LocalAgrees(turn.task.value, turn.stored))
    && (turn.stored.workspaceRemovedAt.Some? ==> IsTerminal(turn.stored.state))
  }

  /** How often each agent has run, by what the record says. */
  predicate Calls(turn: Turn) {
    var job, ledger := turn.stored, turn.ledger;
    && ledger.planCalls <= 1 && ledger.implCalls <= 1
    && ledger.refunds <= ledger.correctionCalls <= ledger.refunds + 1
    && (BeforePlanning(job.state) || RunsAt(turn, PlanRun, PlanSaved) ==> ledger.planCalls == 0)
    && (BeforeImplementing(job.state) || RunsAt(turn, ImplementRun, Preparing) ==> ledger.implCalls == 0)
    && (BeforeCorrecting(job.state) ==> ledger.correctionCalls == 0 && !job.correctionAttempted)
    && (job.state == ImplementationReady && !job.correctionAttempted ==> ledger.correctionCalls == ledger.refunds)
    && (IsCorrectionState(job.state) ==> !job.correctionAttempted)
    && (IsCorrectionState(job.state) && job.correctionStartedAt.None?
        ==> ledger.correctionCalls == ledger.refunds)
    && (RunsAt(turn, CorrectRun, Preparing) ==> ledger.correctionCalls == ledger.refunds)
    && (RunsAt(turn, ImplementRun, Agent) ==> ledger.implCalls == 1)
    && (RunsAt(turn, CorrectRun, Agent) ==> ledger.correctionCalls == ledger.refunds + 1)
    && (job.correctionAttempted ==> job.correctionStartedAt.Some?)
    && (Live(turn, CorrectRun) ==> CorrectionStarts(turn.task.value, job))
  }

  /** A correction's start is on record from the moment its checks pass. */
  predicate CorrectionStarts(task: Task, stored: Job) {
    match task.pc
    case Entering => stored.correctionStartedAt.None?
    case Waiting => stored.correctionStartedAt.None?
    case Refreshing(code) => stored.correctionStartedAt.None? ==> code == BudgetLimitReached
    case _ => stored.correctionStartedAt.Some?
  }

  /** The usage that a live task of this kind holds and the store does not have yet. */
  function HeldBy(turn: Turn, kind: Kind): Option<AgentUsage> {
    if Live(turn, kind) then Held(turn.task.value, turn.stored) else None
  }

  /** The usage the job will carry once its task has saved what it holds. */
  function ImplementationDue(turn: Turn): Option<AgentUsage> {
    if HeldBy(turn, ImplementRun).Some? then HeldBy(turn, ImplementRun) else turn.stored.implementationUsage
  }

  function CorrectionDue(turn: Turn): Option<AgentUsage> {
    if HeldBy(turn, CorrectRun).Some? then HeldBy(turn, CorrectRun) else turn.stored.correctionUsage
  }

  /** A usage that is saved or held was booked; two of them are two bookings. */
  predicate Covers(booked: seq<AgentUsage>, saved: Option<AgentUsage>, held: Option<AgentUsage>) {
    && (saved.Some? || held.Some? ==> booked != [])
    && (saved.Some? && held.Some? ==> |booked| > 1)
    && (|booked| == 1 && saved.Some? ==> booked[0] == saved.value)
    && (|booked| == 1 && held.Some? ==> booked[0] == held.value)
  }

  /** What the record and the task carry are usages the agents really returned. */
  predicate Costs(turn: Turn) {
    var job, ledger := turn.stored, turn.ledger;
    && ledger.planBooked == AsSeq(job.usage)
    && (BeforePlanning(job.state) || job.state == Planning ==> job.usage.None?)
    && Covers(ledger.implBooked, job.implementationUsage, HeldBy(turn, ImplementRun))
    && Covers(ledger.correctionBooked, job.correctionUsage, HeldBy(turn, CorrectRun))
    && |ledger.implBooked| <= ledger.implCalls && |ledger.correctionBooked| <= ledger.correctionCalls
    && (RunsAt(turn, ImplementRun, Agent) ==> ledger.implBooked == [])
    && (RunsAt(turn, CorrectRun, Agent) ==> |ledger.correctionBooked| < ledger.correctionCalls)
  }

  predicate NotAfter(at: Option<Time>, limit: Time) {
    at.Some? ==> at.value <= limit
  }

  /** Every run a cost is stamped with started no later than the record's last save. */
  predicate Stamps(turn: Turn, clock: Time) {
    var job := turn.stored;
    && job.createdAt <= job.updatedAt <= clock
    && NotAfter(job.startedAt, job.updatedAt)
    && NotAfter(job.correctionStartedAt, job.updatedAt)
    && ((job.state.Implementing? || job.state.Validating?) ==> job.startedAt.Some?)
    && (job.implementationUsage.Some? || ImplementationDue(turn).Some? ==> job.startedAt.Some?)
  }

  /** A finished implementation has a result. */
  predicate Results(turn: Turn) {
    var state := turn.stored.state;
    (state.Validating? || state.ImplementationReady? || state.Correcting? || state.Revalidating?)
    || RunsAt(turn, ImplementRun, Collected)
    ==> turn.stored.implementationResult.Some?
  }

  predicate TurnInv(turn: Turn, clock: Time) {
    Shape(turn) && Calls(turn) && Costs(turn) && Stamps(turn, clock) && Results(turn)
  }

  function LiveTask(cell: Cell): Option<Task> {
    if cell.tasks == [] then None else Some(cell.tasks[0])
  }

  function View(cell: Cell): Turn {
    Turn(cell.stored, LiveTask(cell), cell.ledger)
  }

  /** Non-terminal exactly when one live task runs the job, or the job is stranded. */
  predicate Inv(cell: Cell, clock: Time) {
    && |cell.tasks| <= 1
    && (IsTerminal(cell.stored.state) <==> cell.tasks == [] && !cell.stranded)
    && (cell.stranded ==> cell.tasks == [])
    && TurnInv(View(cell), clock)
  }

  lemma NewCellInv(id: Id, owner: Option<Owner>, now: Time)
    ensures Inv(NewCell(id, owner, now), now)
  {}

  // A task's own steps, one lemma per program point

  predicate CanStep(turn: Turn, event: TaskEvent, clock: Time, now: Time) {
    TurnInv(turn, clock) && clock < now && turn.task.Some? && TaskEnabled(turn.task.value, event)
  }

  predicate ProceedsAt(turn: Turn, event: TaskEvent, kind: Kind) {
    event.Proceed? && Live(turn, kind)
  }

  lemma StartKeepsInv(turn: Turn, event: TaskEvent, clock: Time, now: Time)
    requires CanStep(turn, event, clock, now)
    requires event.Begin? || event.Activity?
    ensures TurnInv(TaskStep(turn, event, now), now)
  {
    var after := TaskStep(turn, event, now);
    assert Shape(after);
    assert Calls(after);
    assert Costs(after);
  }

  lemma GrantPlanKeepsInv(turn: Turn, event: TaskEvent, clock: Time, now: Time)
    requires CanStep(turn, event, clock, now)
    requires event.Grant? && Live(turn, PlanRun)
    ensures TurnInv(TaskStep(turn, event, now), now)
  {
    var after := TaskStep(turn, event, now);
    assert Shape(after);
    assert Calls(after);
    assert Costs(after);
  }

  lemma RefuseImplementKeepsInv(turn: Turn, event: TaskEvent, clock: Time, now: Time)
    requires CanStep(turn, event, clock, now)
    requires event.Grant? && Live(turn, ImplementRun)
    requires TaskStep(turn, event, now).task.Some? && TaskStep(turn, event, now).task.value.pc.Refreshing?
    ensures TurnInv(TaskStep(turn, event, now), now)
  {
    var after := TaskStep(turn, event, now);
    assert Shape(after);
    assert Calls(after);
    assert Costs(after);
  }

  lemma AcceptImplementKeepsInv(turn: Turn, event: TaskEvent, clock: Time, now: Time)
    requires CanStep(turn, event, clock, now)
    requires event.Grant? && Live(turn, ImplementRun)
    requires TaskStep(turn, event, now).task.Some? && TaskStep(turn, event, now).task.value.pc.ReadingHead?
    ensures TurnInv(TaskStep(turn, event, now), now)
  {
    var after := TaskStep(turn, event, now);
    assert Shape(after);
    assert Calls(after);
    assert Costs(after);
  }

  lemma GrantImplementKeepsInv(turn: Turn, event: TaskEvent, clock: Time, now: Time)
    requires CanStep(turn, event, clock, now)
    requires event.Grant? && Live(turn, ImplementRun)
    ensures TurnInv(TaskStep(turn, event, now), now)
  {
    if TaskStep(turn, event, now).task.value.pc.Refreshing? {
      RefuseImplementKeepsInv(turn, event, clock, now);
    } else {
      AcceptImplementKeepsInv(turn, event, clock, now);
    }
  }

  lemma GrantCorrectKeepsInv(turn: Turn, event: TaskEvent, clock: Time, now: Time)
    requires CanStep(turn, event, clock, now)
    requires event.Grant? && Live(turn, CorrectRun)
    ensures TurnInv(TaskStep(turn, event, now), now)
  {
    var after := TaskStep(turn, event, now);
    assert Shape(after);
    assert Calls(after);
    assert Costs(after);
  }

  lemma CloneKeepsInv(turn: Turn, event: TaskEvent, clock: Time, now: Time)
    requires CanStep(turn, event, clock, now)
    requires ProceedsAt(turn, event, PlanRun) && turn.task.value.pc.Cloning?
    ensures TurnInv(TaskStep(turn, event, now), now)
  {
    var after := TaskStep(turn, event, now);
    assert Shape(after);
    assert Calls(after);
    assert Costs(after);
  }

  lemma FetchOrMapKeepsInv(turn: Turn, event: TaskEvent, clock: Time, now: Time)
    requires CanStep(turn, event, clock, now)
    requires ProceedsAt(turn, event, PlanRun)
    requires turn.task.value.pc.Fetching? || turn.task.value.pc.Mapping?
    ensures TurnInv(TaskStep(turn, event, now), now)
  {
    var after := TaskStep(turn, event, now);
    assert Shape(after);
    assert Calls(after);
    assert Costs(after);
  }

  lemma ProceedPlanKeepsInv(turn: Turn, event: TaskEvent, clock: Time, now: Time)
    requires CanStep(turn, event, clock, now)
    requires ProceedsAt(turn, event, PlanRun) && !turn.task.value.pc.PlanSaved?
    ensures TurnInv(TaskStep(turn, event, now), now)
  {
    if turn.task.value.pc.Cloning? {
      CloneKeepsInv(turn, event, clock, now);
    } else {
      FetchOrMapKeepsInv(turn, event, clock, now);
    }
  }

  lemma StartPlanKeepsInv(turn: Turn, event: TaskEvent, clock: Time, now: Time)
    requires CanStep(turn, event, clock, now)
    requires ProceedsAt(turn, event, PlanRun) && turn.task.value.pc.PlanSaved?
    ensures TurnInv(TaskStep(turn, event, now), now)
  {
    var after := TaskStep(turn, event, now);
    assert Shape(after);
    assert Calls(after);
    assert Costs(after);
  }

  lemma HeadKeepsInv(turn: Turn, event: TaskEvent, clock: Time, now: Time)
    requires CanStep(turn, event, clock, now)
    requires ProceedsAt(turn, event, ImplementRun)
    requires turn.task.value.pc.ReadingHead? || turn.task.value.pc.HeadSaved?
    ensures TurnInv(TaskStep(turn, event, now), now)
  {
    var after := TaskStep(turn, event, now);
    assert Shape(after);
    assert Calls(after);
    assert Costs(after);
  }

  lemma PreparedImplementKeepsInv(turn: Turn, event: TaskEvent, clock: Time, now: Time)
    requires CanStep(turn, event, clock, now)
    requires ProceedsAt(turn, event, ImplementRun) && turn.task.value.pc.Preparing?
    ensures TurnInv(TaskStep(turn, event, now), now)
  {
    var after := TaskStep(turn, event, now);
    assert Shape(after);
    assert Calls(after);
    assert Costs(after);
  }

  lemma PreparedCorrectKeepsInv(turn: Turn, event: TaskEvent, clock: Time, now: Time)
    requires CanStep(turn, event, clock, now)
    requires ProceedsAt(turn, event, CorrectRun) && turn.task.value.pc.Preparing?
    ensures TurnInv(TaskStep(turn, event, now), now)
  {
    var after := TaskStep(turn, event, now);
    assert Shape(after);
    assert Calls(after);
    assert Costs(after);
  }

  lemma CollectKeepsInv(turn: Turn, event: TaskEvent, clock: Time, now: Time)
    requires CanStep(turn, event, clock, now)
    requires ProceedsAt(turn, event, ImplementRun) && turn.task.value.pc.Collecting?
    ensures TurnInv(TaskStep(turn, event, now), now)
  {
    var after := TaskStep(turn, event, now);
    assert Shape(after);
    assert Calls(after);
    assert Costs(after);
  }

  lemma CollectedKeepsInv(turn: Turn, event: TaskEvent, clock: Time, now: Time)
    requires CanStep(turn, event, clock, now)
    requires ProceedsAt(turn, event, ImplementRun) && turn.task.value.pc.Collected?
    ensures TurnInv(TaskStep(turn, event, now), now)
  {
    var after := TaskStep(turn, event, now);
    assert Shape(after);
    assert Calls(after);
    assert Costs(after);
  }

  lemma ValidateKeepsInv(turn: Turn, event: TaskEvent, clock: Time, now: Time)
    requires CanStep(turn, event, clock, now)
    requires ProceedsAt(turn, event, ImplementRun)
    requires turn.task.value.pc.Validating? || turn.task.value.pc.Validated?
    ensures TurnInv(TaskStep(turn, event, now), now)
  {
    var after := TaskStep(turn, event, now);
    assert Shape(after);
    assert Calls(after);
    assert Costs(after);
  }

  lemma CorrectionSavedKeepsInv(turn: Turn, event: TaskEvent, clock: Time, now: Time)
    requires CanStep(turn, event, clock, now)
    requires ProceedsAt(turn, event, CorrectRun) && turn.task.value.pc.CorrectionSaved?
    ensures TurnInv(TaskStep(turn, event, now), now)
  {
    var after := TaskStep(turn, event, now);
    assert Shape(after);
    assert Calls(after);
    assert Costs(after);
  }

  lemma RecollectedKeepsInv(turn: Turn, event: TaskEvent, clock: Time, now: Time)
    requires CanStep(turn, event, clock, now)
    requires ProceedsAt(turn, event, CorrectRun) && turn.task.value.pc.Recollecting?
    ensures TurnInv(TaskStep(turn, event, now), now)
  {
    var after := TaskStep(turn, event, now);
    assert Shape(after);
    assert Calls(after);
    assert Costs(after);
  }

  lemma RecollectKeepsInv(turn: Turn, event: TaskEvent, clock: Time, now: Time)
    requires CanStep(turn, event, clock, now)
    requires ProceedsAt(turn, event, CorrectRun)
    requires turn.task.value.pc.CorrectionSaved? || turn.task.value.pc.Recollecting?
    ensures TurnInv(TaskStep(turn, event, now), now)
  {
    if turn.task.value.pc.Recollecting? {
      RecollectedKeepsInv(turn, event, clock, now);
    } else {
      CorrectionSavedKeepsInv(turn, event, clock, now);
    }
  }

  lemma RevalidateKeepsInv(turn: Turn, event: TaskEvent, clock: Time, now: Time)
    requires CanStep(turn, event, clock, now)
    requires ProceedsAt(turn, event, CorrectRun)
    requires turn.task.value.pc.Validating?
    ensures TurnInv(TaskStep(turn, event, now), now)
  {
    var after := TaskStep(turn, event, now);
    assert Shape(after);
    assert Calls(after);
    assert Costs(after);
  }

  lemma ReturnedImplementKeepsInv(turn: Turn, event: TaskEvent, clock: Time, now: Time)
    requires CanStep(turn, event, clock, now)
    requires ProceedsAt(turn, event, ImplementRun) && turn.task.value.pc.Restoring?
    requires turn.task.value.pc.outcome.ImplReturned?
    ensures TurnInv(TaskStep(turn, event, now), now)
  {
    var after := TaskStep(turn, event, now);
    assert Shape(after);
    assert Calls(after);
    assert Costs(after);
  }

  lemma RefusedImplementKeepsInv(turn: Turn, event: TaskEvent, clock: Time, now: Time)
    requires CanStep(turn, event, clock, now)
    requires ProceedsAt(turn, event, ImplementRun) && turn.task.value.pc.Restoring?
    requires !turn.task.value.pc.outcome.ImplReturned? && !turn.task.value.pc.outcome.Interrupted?
    ensures TurnInv(TaskStep(turn, event, now), now)
  {
    var after := TaskStep(turn, event, now);
    assert Shape(after);
    assert Calls(after);
    assert Costs(after);
  }

  lemma HandledImplementKeepsInv(turn: Turn, event: TaskEvent, clock: Time, now: Time)
    requires CanStep(turn, event, clock, now)
    requires ProceedsAt(turn, event, ImplementRun) && turn.task.value.pc.Refreshing?
    ensures TurnInv(TaskStep(turn, event, now), now)
  {
    var after := TaskStep(turn, event, now);
    assert Shape(after);
    assert Calls(after);
    assert Costs(after);
  }

  lemma ReturnedCorrectKeepsInv(turn: Turn, event: TaskEvent, clock: Time, now: Time)
    requires CanStep(turn, event, clock, now)
    requires ProceedsAt(turn, event, CorrectRun) && turn.task.value.pc.Restoring?
    requires turn.task.value.pc.outcome.ImplReturned?
    ensures TurnInv(TaskStep(turn, event, now), now)
  {
    var after := TaskStep(turn, event, now);
    assert Shape(after);
    assert Calls(after);
    assert Costs(after);
  }

  lemma RefusedCorrectKeepsInv(turn: Turn, event: TaskEvent, clock: Time, now: Time)
    requires CanStep(turn, event, clock, now)
    requires ProceedsAt(turn, event, CorrectRun) && turn.task.value.pc.Restoring?
    requires turn.task.value.pc.outcome.Refused?
    ensures TurnInv(TaskStep(turn, event, now), now)
  {
    var after := TaskStep(turn, event, now);
    assert Shape(after);
    assert Calls(after);
    assert Costs(after);
  }

  lemma CrashedCorrectKeepsInv(turn: Turn, event: TaskEvent, clock: Time, now: Time)
    requires CanStep(turn, event, clock, now)
    requires ProceedsAt(turn, event, CorrectRun) && turn.task.value.pc.Restoring?
    requires turn.task.value.pc.outcome.Crashed?
    ensures TurnInv(TaskStep(turn, event, now), now)
  {
    var after := TaskStep(turn, event, now);
    assert Shape(after);
    assert Calls(after);
    assert Costs(after);
  }

  lemma RefusedCorrectHandledKeepsCalls(turn: Turn, event: TaskEvent, clock: Time, now: Time)
    requires CanStep(turn, event, clock, now)
    requires ProceedsAt(turn, event, CorrectRun) && turn.task.value.pc == Refreshing(BudgetLimitReached)
    ensures Calls(TaskStep(turn, event, now))
  {
    var before, after := turn.stored, TaskStep(turn, event, now);
    assert after.task.None? && after.stored.state == ImplementationReady;
    assert after.stored.correctionAttempted == before.correctionAttempted == false;
    assert after.stored.correctionStartedAt == before.correctionStartedAt;
    assert after.ledger == Refunded(turn.ledger);
  }

  lemma RefusedCorrectHandledKeepsInv(turn: Turn, event: TaskEvent, clock: Time, now: Time)
    requires CanStep(turn, event, clock, now)
    requires ProceedsAt(turn, event, CorrectRun) && turn.task.value.pc == Refreshing(BudgetLimitReached)
    ensures TurnInv(TaskStep(turn, event, now), now)
  {
    var after := TaskStep(turn, event, now);
    RefusedCorrectHandledKeepsCalls(turn, event, clock, now);
    assert Shape(after);
    assert Costs(after);
  }

  lemma FailedCorrectHandledKeepsInv(turn: Turn, event: TaskEvent, clock: Time, now: Time)
    requires CanStep(turn, event, clock, now)
    requires ProceedsAt(turn, event, CorrectRun) && turn.task.value.pc.Refreshing?
    requires turn.task.value.pc.code != BudgetLimitReached
    ensures TurnInv(TaskStep(turn, event, now), now)
  {
    var after := TaskStep(turn, event, now);
    assert Shape(after);
    assert Calls(after);
    assert Costs(after);
  }

  lemma HandledCorrectKeepsInv(turn: Turn, event: TaskEvent, clock: Time, now: Time)
    requires CanStep(turn, event, clock, now)
    requires ProceedsAt(turn, event, CorrectRun) && turn.task.value.pc.Refreshing?
    ensures TurnInv(TaskStep(turn, event, now), now)
  {
    if turn.task.value.pc.code == BudgetLimitReached {
      RefusedCorrectHandledKeepsInv(turn, event, clock, now);
    } else {
      FailedCorrectHandledKeepsInv(turn, event, clock, now);
    }
  }

  lemma FinishPlanKeepsInv(turn: Turn, event: TaskEvent, clock: Time, now: Time)
    requires CanStep(turn, event, clock, now)
    requires event.Finish? && Live(turn, PlanRun) && event.outcome.PlanReturned?
    ensures TurnInv(TaskStep(turn, event, now), now)
  {
    var after := TaskStep(turn, event, now);
    assert Shape(after);
    assert Calls(after);
    assert Costs(after);
  }

  lemma FailPlanKeepsInv(turn: Turn, event: TaskEvent, clock: Time, now: Time)
    requires CanStep(turn, event, clock, now)
    requires event.Finish? && Live(turn, PlanRun) && !event.outcome.PlanReturned?
    ensures TurnInv(TaskStep(turn, event, now), now)
  {
    var after := TaskStep(turn, event, now);
    assert Shape(after);
    assert Calls(after);
    assert Costs(after);
  }

  lemma FinishImplementKeepsInv(turn: Turn, event: TaskEvent, clock: Time, now: Time)
    requires CanStep(turn, event, clock, now)
    requires event.Finish? && Live(turn, ImplementRun)
    ensures TurnInv(TaskStep(turn, event, now), now)
  {
    var after := TaskStep(turn, event, now);
    assert Shape(after);
    assert Calls(after);
    assert Costs(after);
  }

  lemma FinishCorrectKeepsInv(turn: Turn, event: TaskEvent, clock: Time, now: Time)
    requires CanStep(turn, event, clock, now)
    requires event.Finish? && Live(turn, CorrectRun)
    ensures TurnInv(TaskStep(turn, event, now), now)
  {
    var after := TaskStep(turn, event, now);
    assert Shape(after);
    assert Calls(after);
    assert Costs(after);
  }

  lemma AppErrorKeepsInv(turn: Turn, event: TaskEvent, clock: Time, now: Time)
    requires CanStep(turn, event, clock, now)
    requires event.RaiseAppError?
    ensures TurnInv(TaskStep(turn, event, now), now)
  {
    match turn.task.value.kind
    case PlanRun =>
    case ImplementRun => assert Shape(TaskStep(turn, event, now));
    case CorrectRun => assert Shape(TaskStep(turn, event, now));
  }

  lemma RaiseOtherPlanKeepsInv(turn: Turn, event: TaskEvent, clock: Time, now: Time)
    requires CanStep(turn, event, clock, now)
    requires event.RaiseOther? && Live(turn, PlanRun) && !turn.task.value.pc.Refreshing?
    ensures TurnInv(TaskStep(turn, event, now), now)
  {
    var after := TaskStep(turn, event, now);
    assert Shape(after);
    assert Calls(after);
    assert Costs(after);
  }

  lemma RaiseOtherImplementKeepsInv(turn: Turn, event: TaskEvent, clock: Time, now: Time)
    requires CanStep(turn, event, clock, now)
    requires event.RaiseOther? && Live(turn, ImplementRun) && !turn.task.value.pc.Refreshing?
    ensures TurnInv(TaskStep(turn, event, now), now)
  {
    var after := TaskStep(turn, event, now);
    assert Shape(after);
    assert Calls(after);
    assert Costs(after);
  }

  lemma RaiseOtherCorrectKeepsInv(turn: Turn, event: TaskEvent, clock: Time, now: Time)
    requires CanStep(turn, event, clock, now)
    requires event.RaiseOther? && Live(turn, CorrectRun) && !turn.task.value.pc.Refreshing?
    ensures TurnInv(TaskStep(turn, event, now), now)
  {
    var after := TaskStep(turn, event, now);
    assert Shape(after);
    assert Calls(after);
    assert Costs(after);
  }

  /** The task stops where it is and only its `finally` block runs. */
  function Interrupt(turn: Turn, now: Time): Turn
    requires turn.task.Some?
  {
    var task := turn.task.value;
    FinallyBlock(turn, task.kind, now)
  }

  lemma FinallyPlanKeepsInv(turn: Turn, clock: Time, now: Time)
    requires TurnInv(turn, clock) && clock < now && Live(turn, PlanRun)
    ensures TurnInv(Interrupt(turn, now), now)
  {
    var after := Interrupt(turn, now);
    assert Shape(after);
    assert Calls(after);
    assert Costs(after);
  }

  lemma FinallyImplementKeepsInv(turn: Turn, clock: Time, now: Time)
    requires TurnInv(turn, clock) && clock < now && Live(turn, ImplementRun)
    ensures TurnInv(Interrupt(turn, now), now)
  {
    var after := Interrupt(turn, now);
    assert Shape(after);
    assert Calls(after);
    assert Costs(after);
  }

  lemma FinallyCorrectKeepsInv(turn: Turn, clock: Time, now: Time)
    requires TurnInv(turn, clock) && clock < now && Live(turn, CorrectRun)
    ensures TurnInv(Interrupt(turn, now), now)
  {
    var after := Interrupt(turn, now);
    assert Shape(after);
    assert Calls(after);
    assert Costs(after);
  }

  lemma InterruptKeepsInv(turn: Turn, clock: Time, now: Time)
    requires TurnInv(turn, clock) && clock < now && turn.task.Some?
    ensures TurnInv(Interrupt(turn, now), now)
  {
    match turn.task.value.kind
    case PlanRun => FinallyPlanKeepsInv(turn, clock, now);
    case ImplementRun => FinallyImplementKeepsInv(turn, clock, now);
    case CorrectRun => FinallyCorrectKeepsInv(turn, clock, now);
  }

  lemma DropKeepsInv(turn: Turn, clock: Time, now: Time)
    requires TurnInv(turn, clock) && clock < now
    ensures TurnInv(turn.(task := None), now)
  {}

  /** A cancelled agent call goes on to the restore of the line endings. */
  lemma AbandonKeepsInv(turn: Turn, event: TaskEvent, clock: Time, now: Time)
    requires CanStep(turn, event, clock, now) && event.Cancel?
    requires turn.task.value.pc.Agent? && turn.task.value.kind != PlanRun
    ensures TurnInv(TaskStep(turn, event, now), now)
  {
    var after := TaskStep(turn, event, now);
    assert Shape(after);
    assert Calls(after);
    assert Costs(after);
  }

  lemma CancelKeepsInv(turn: Turn, event: TaskEvent, clock: Time, now: Time)
    requires CanStep(turn, event, clock, now) && event.Cancel?
    ensures TurnInv(TaskStep(turn, event, now), now)
  {
    var task := turn.task.value;
    if task.pc.Entering? {
      DropKeepsInv(turn, clock, now);
    } else if task.pc.Agent? && task.kind != PlanRun {
      AbandonKeepsInv(turn, event, clock, now);
    } else {
      InterruptKeepsInv(turn, clock, now);
    }
  }

  lemma RestoredKeepsInv(turn: Turn, event: TaskEvent, clock: Time, now: Time)
    requires CanStep(turn, event, clock, now) && event.Proceed? && turn.task.value.pc.Restoring?
    ensures TurnInv(TaskStep(turn, event, now), now)
  {
    var outcome := turn.task.value.pc.outcome;
    if outcome.Interrupted? {
      InterruptKeepsInv(turn, clock, now);
    } else if Live(turn, ImplementRun) {
      if outcome.ImplReturned? {
        ReturnedImplementKeepsInv(turn, event, clock, now);
      } else {
        RefusedImplementKeepsInv(turn, event, clock, now);
      }
    } else if outcome.ImplReturned? {
      ReturnedCorrectKeepsInv(turn, event, clock, now);
    } else if outcome.Refused? {
      RefusedCorrectKeepsInv(turn, event, clock, now);
    } else {
      CrashedCorrectKeepsInv(turn, event, clock, now);
    }
  }

  lemma ProceedKeepsInv(turn: Turn, event: TaskEvent, clock: Time, now: Time)
    requires CanStep(turn, event, clock, now) && event.Proceed?
    ensures TurnInv(TaskStep(turn, event, now), now)
  {
    var pc := turn.task.value.pc;
    match turn.task.value.kind
    case PlanRun =>
      if pc.PlanSaved? {
        StartPlanKeepsInv(turn, event, clock, now);
      } else {
        ProceedPlanKeepsInv(turn, event, clock, now);
      }
    case ImplementRun =>
      if pc.ReadingHead? || pc.HeadSaved? {
        HeadKeepsInv(turn, event, clock, now);
      } else if pc.Preparing? {
        PreparedImplementKeepsInv(turn, event, clock, now);
      } else if pc.Restoring? {
        RestoredKeepsInv(turn, event, clock, now);
      } else if pc.Collecting? {
        CollectKeepsInv(turn, event, clock, now);
      } else if pc.Collected? {
        CollectedKeepsInv(turn, event, clock, now);
      } else if pc.Refreshing? {
        HandledImplementKeepsInv(turn, event, clock, now);
      } else {
        ValidateKeepsInv(turn, event, clock, now);
      }
    case CorrectRun =>
      if pc.Preparing? {
        PreparedCorrectKeepsInv(turn, event, clock, now);
      } else if pc.Restoring? {
        RestoredKeepsInv(turn, event, clock, now);
      } else if pc.Refreshing? {
        HandledCorrectKeepsInv(turn, event, clock, now);
      } else if pc.CorrectionSaved? || pc.Recollecting? {
        RecollectKeepsInv(turn, event, clock, now);
      } else {
        RevalidateKeepsInv(turn, event, clock, now);
      }
  }

  lemma TaskStepKeepsInv(turn: Turn, event: TaskEvent, clock: Time, now: Time)
    requires CanStep(turn, event, clock, now)
    ensures TurnInv(TaskStep(turn, event, now), now)
  {
    match event
    case Begin => StartKeepsInv(turn, event, clock, now);
    case Activity => StartKeepsInv(turn, event, clock, now);
    case Proceed(_) => ProceedKeepsInv(turn, event, clock, now);
    case RaiseAppError(_) => AppErrorKeepsInv(turn, event, clock, now);
    case Grant(_, _) =>
      match turn.task.value.kind {
      case PlanRun => GrantPlanKeepsInv(turn, event, clock, now);
      case ImplementRun => GrantImplementKeepsInv(turn, event, clock, now);
      case CorrectRun => GrantCorrectKeepsInv(turn, event, clock, now);
      }
    case Finish(_) =>
      match turn.task.value.kind {
      case PlanRun =>
        if event.outcome.PlanReturned? {
          FinishPlanKeepsInv(turn, event, clock, now);
        } else {
          FailPlanKeepsInv(turn, event, clock, now);
        }
      case ImplementRun => FinishImplementKeepsInv(turn, event, clock, now);
      case CorrectRun => FinishCorrectKeepsInv(turn, event, clock, now);
      }
    case RaiseOther =>
      if turn.task.value.pc.Refreshing? {
        InterruptKeepsInv(turn, clock, now);
      } else {
        match turn.task.value.kind
        case PlanRun => RaiseOtherPlanKeepsInv(turn, event, clock, now);
        case ImplementRun => RaiseOtherImplementKeepsInv(turn, event, clock, now);
        case CorrectRun => RaiseOtherCorrectKeepsInv(turn, event, clock, now);
      }
    case Cancel => CancelKeepsInv(turn, event, clock, now);
  }

  // Whole cells

  lemma CrashKeepsInv(cell: Cell, clock: Time, now: Time)
    requires Inv(cell, clock) && clock < now
    ensures Inv(Step(cell, Crash, now), now)
  {
    DropKeepsInv(View(cell), clock, now);
    assert View(Step(cell, Crash, now)) == View(cell).(task := None);
  }

  lemma ImplementKeepsInv(cell: Cell, event: CellEvent, clock: Time, now: Time)
    requires Inv(cell, clock) && clock < now && Enabled(cell, event) && event.Implement?
    ensures Inv(Step(cell, event, now), now)
  {}

  lemma CorrectKeepsInv(cell: Cell, event: CellEvent, clock: Time, now: Time)
    requires Inv(cell, clock) && clock < now && Enabled(cell, event) && event.Correct?
    ensures Inv(Step(cell, event, now), now)
  {}

  lemma RouteKeepsInv(cell: Cell, event: CellEvent, clock: Time, now: Time)
    requires Inv(cell, clock) && clock < now && Enabled(cell, event)
    requires event.Implement? || event.Correct?
    ensures Inv(Step(cell, event, now), now)
  {
    if event.Implement? {
      ImplementKeepsInv(cell, event, clock, now);
    } else {
      CorrectKeepsInv(cell, event, clock, now);
    }
  }

  lemma RecoveredKeepsInv(turn: Turn, diff: Option<ImplementationDiff>, clock: Time, now: Time)
    requires TurnInv(turn, clock) && clock < now && turn.task.None? && !IsTerminal(turn.stored.state)
    ensures TurnInv(turn.(stored := Stamped(Recovered(turn.stored, diff), now)), now)
    ensures IsTerminal(Recovered(turn.stored, diff).state)
  {
    var after := turn.(stored := Stamped(Recovered(turn.stored, diff), now));
    if IsCorrectionState(turn.stored.state) {
      assert Calls(after);
    } else if IsImplementationState(turn.stored.state) {
      assert Calls(after);
    } else {
      assert Calls(after);
    }
    assert Costs(after);
  }

  lemma RecoverKeepsInv(cell: Cell, event: CellEvent, clock: Time, now: Time)
    requires Inv(cell, clock) && clock < now && cell.tasks == [] && Enabled(cell, event)
    requires event.Recover?
    ensures Inv(Step(cell, event, now), now)
  {
    if !event.raises {
      var saved := Step(cell, event, now);
      RecoveredKeepsInv(View(cell), event.diff, clock, now);
      assert View(saved) == View(cell).(stored := Stamped(Recovered(cell.stored, event.diff), now));
    } else {
      TickKeepsInv(cell, clock, now);
    }
  }

  /** Time passing alone keeps the invariant. */
  lemma TickKeepsInv(cell: Cell, clock: Time, now: Time)
    requires Inv(cell, clock) && clock <= now
    ensures Inv(cell, now)
  {}

  /** A task that ends leaves its job terminal, unless it was cancelled before its first step. */
  lemma EndedTaskIsTerminal(turn: Turn, event: TaskEvent, now: Time)
    requires turn.task.Some? && TaskEnabled(turn.task.value, event)
    requires Shape(turn)
    ensures var after := TaskStep(turn, event, now);
            after.task.None? ==> IsTerminal(after.stored.state) || (event.Cancel? && turn.task.value.pc.Entering?)
  {}

  lemma LiveTaskIsNotTerminal(task: Task, state: JobState)
    requires KindAt(task, state)
    ensures !IsTerminal(state)
  {}

  /** With one task, an event of the cell's task is the task's step. */
  lemma OnTaskView(cell: Cell, event: CellEvent, now: Time)
    requires |cell.tasks| <= 1 && event.OnTask? && Enabled(cell, event)
    ensures View(Step(cell, event, now)) == TaskStep(View(cell), event.event, now)
    ensures |Step(cell, event, now).tasks| <= 1
  {
    var turned := TaskStep(View(cell), event.event, now);
    assert Step(cell, event, now).tasks == if turned.task.Some? then [turned.task.value] else [];
  }

  lemma OnTaskKeepsInv(cell: Cell, event: CellEvent, clock: Time, now: Time)
    requires Inv(cell, clock) && clock < now && Enabled(cell, event) && event.OnTask?
    ensures Inv(Step(cell, event, now), now)
  {
    var turn, after := View(cell), Step(cell, event, now);
    var turned := TaskStep(turn, event.event, now);
    TaskStepKeepsInv(turn, event.event, clock, now);
    EndedTaskIsTerminal(turn, event.event, now);
    OnTaskView(cell, event, now);
    if turned.task.Some? {
      LiveTaskIsNotTerminal(turned.task.value, turned.stored.state);
    }
  }

  /**
   Every event keeps the invariant: routes, every task step, cancellation,
   crash, the sweep's mark, and recovery, which only runs while no task lives.
   */
  lemma StepKeepsInv(cell: Cell, event: CellEvent, clock: Time, now: Time)
    requires Inv(cell, clock) && clock < now && Enabled(cell, event)
    requires event.Recover? ==> cell.tasks == []
    ensures Inv(Step(cell, event, now), now)
  {
    match event
    case Implement(_) => RouteKeepsInv(cell, event, clock, now);
    case Correct(_) => RouteKeepsInv(cell, event, clock, now);
    case OnTask(_, _) => OnTaskKeepsInv(cell, event, clock, now);
    case Crash => CrashKeepsInv(cell, clock, now);
    case Recover(_, _) => RecoverKeepsInv(cell, event, clock, now);
    case Mark(_) =>
  }
}
