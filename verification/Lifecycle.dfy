/**
 The job lifecycle as a protocol. A cell is one job: its stored record, the
 tasks running it, and a ledger of what really happened. The system is a table
 of cells with a clock, the slot cap and the retention sweep (System.dfy).

 A task moves at the points where the source saves or suspends. Every step in
 between is atomic, and any other event (another task, a route, the sweep, a
 crash) may come between two steps.
 */
module Lifecycle {
  import opened Prelude
  import opened Models
  import opened Transitions

  datatype Kind = PlanRun | ImplementRun | CorrectRun

  /** What the agent step of a task did. */
  datatype Outcome =
    | PlanReturned(plan: string, usage: AgentUsage)
    | ImplReturned(result: ImplementationResult, usage: AgentUsage)
    | Refused(code: ErrorCode, carried: Option<AgentUsage>)
    | Crashed
    | Interrupted

  function UsageOf(outcome: Outcome): Option<AgentUsage> {
    match outcome
    case PlanReturned(_, usage) => Some(usage)
    case ImplReturned(_, usage) => Some(usage)
    case Refused(_, carried) => carried
    case Crashed => None
    case Interrupted => None
  }

  /** Where a task is. The comment says what it will do next. */
  datatype Pc =
    | Entering                                   // first step not run: no local copy yet
    | Waiting                                    // waits for an agent slot
    | Fetching | Cloning | Mapping               // awaits that step
    | PlanSaved                                  // PLANNING saved: clear the log, start the agent
    | ReadingHead                                // awaits the baseline commit
    | HeadSaved                                  // baseline saved: save IMPLEMENTING
    | Preparing                                  // awaits normalisation, then starts the agent
    | Agent                                      // awaits the agent
    | Restoring(outcome: Outcome)                // awaits the line-ending restore
    | Collecting(result: ImplementationResult)   // usage saved: awaits the diff
    | Collected                                  // result saved: save VALIDATING
    | CorrectionSaved                            // correction saved: save REVALIDATING
    | Recollecting                               // awaits the diff of a correction
    | Validating                                 // awaits validation
    | Validated                                  // results saved: save IMPLEMENTATION_READY
    | Refreshing(code: ErrorCode)                // slot released: awaits the diff refresh

  datatype Task = Task(kind: Kind, pc: Pc, local: Job)

  /** The task holds an agent slot. */
  predicate Holding(task: Task) {
    !task.pc.Entering? && !task.pc.Waiting? && !task.pc.Refreshing?
  }

  /** What happened to a job, whatever its record says. */
  datatype Ledger = Ledger(
    planCalls: nat, implCalls: nat, correctionCalls: nat,
    // Every usage the phase's agents returned or carried in their errors.
    planBooked: seq<AgentUsage>, implBooked: seq<AgentUsage>, correctionBooked: seq<AgentUsage>,
    // Correction runs whose agent started, but that gave the attempt back.
    refunds: nat)

  const FRESH_LEDGER := Ledger(0, 0, 0, [], [], [], 0)

  function AsSeq(usage: Option<AgentUsage>): seq<AgentUsage> {
    if usage.Some? then [usage.value] else []
  }

  function Book(ledger: Ledger, kind: Kind, spent: Option<AgentUsage>): Ledger {
    match kind
    case PlanRun => ledger.(planBooked := ledger.planBooked + AsSeq(spent))
    case ImplementRun => ledger.(implBooked := ledger.implBooked + AsSeq(spent))
    case CorrectRun => ledger.(correctionBooked := ledger.correctionBooked + AsSeq(spent))
  }

  // `stranded`: non-terminal, and nothing in this process will ever finish it.
  datatype Cell = Cell(stored: Job, tasks: seq<Task>, ledger: Ledger, stranded: bool)

  function NewCell(id: Id, owner: Option<Owner>, now: Time): Cell {
    var job := NewJob(id, owner, now);
    Cell(job, [Task(PlanRun, Entering, job)], FRESH_LEDGER, false)
  }

  /** What an awaited step that is not the agent hands back. */
  datatype Payload =
    | Nothing
    | Head(ref: Option<string>)
    | ClonedTo(kind: RepoSourceKind, path: string)
    | Collection(diff: Option<ImplementationDiff>)
    | Validation(results: seq<ValidationResult>)

  /** A job as one of its tasks sees it: the record, the task (`None` once it has ended), the ledger. */
  datatype Turn = Turn(stored: Job, task: Option<Task>, ledger: Ledger)

  // Building blocks

  /** Save `job` from the task and move the task to `pc`. */
  function SaveAt(turn: Turn, job: Job, pc: Pc, now: Time): Turn
    requires turn.task.Some?
  {
    var saved := Stamped(job, now);
    turn.(stored := saved, task := Some(turn.task.value.(pc := pc, local := saved)))
  }

  /** Save `job` from the task, which ends. */
  function SaveAndEnd(turn: Turn, job: Job, now: Time): Turn {
    turn.(stored := Stamped(job, now), task := None)
  }

  /** Move the task to `pc` with a new local copy, saving nothing. */
  function MoveTo(turn: Turn, pc: Pc, local: Job): Turn
    requires turn.task.Some?
  {
    turn.(task := Some(turn.task.value.(pc := pc, local := local)))
  }

  function FailureState(kind: Kind): JobState {
    if kind == PlanRun then Failed else ImplementationFailed
  }

  /** The `finally` block: a job still not terminal is failed from its stored record. */
  function FinallyBlock(turn: Turn, kind: Kind, now: Time): Turn {
    if IsTerminal(turn.stored.state) then turn.(task := None)
    else SaveAndEnd(turn, FailedAs(turn.stored, Internal, FailureState(kind)), now)
  }

  function WithUsage(job: Job, kind: Kind, usage: Option<AgentUsage>): Job {
    if usage.None? then job
    else match kind
      case PlanRun => job.(usage := usage)
      case ImplementRun => job.(implementationUsage := usage)
      case CorrectRun => job.(correctionUsage := usage)
  }

  /** The slot is released and the `except` block runs. */
  function EnterHandler(turn: Turn, code: ErrorCode, usage: Option<AgentUsage>, now: Time): Turn
    requires turn.task.Some?
  {
    var task := turn.task.value;
    var local := WithUsage(task.local, task.kind, usage);
    if task.kind == PlanRun then
      SaveAndEnd(turn, FailedAs(local, code, Failed), now)
    else
      MoveTo(turn, Refreshing(code), local)
  }

  /** The usage that the task holds and the store does not have yet. */
  function Held(task: Task, stored: Job): Option<AgentUsage> {
    match task.kind
    case PlanRun => None
    case ImplementRun =>
      if task.pc.Restoring? then UsageOf(task.pc.outcome)
      else if task.pc.Refreshing? && task.local.implementationUsage != stored.implementationUsage
      then task.local.implementationUsage
      else None
    case CorrectRun =>
      if task.pc.Restoring? then UsageOf(task.pc.outcome)
      else if task.pc.Refreshing? && task.local.correctionUsage != stored.correctionUsage
      then task.local.correctionUsage
      else None
  }

  /** The attempt of the last agent that ran is given back, unless none is left to give. */
  function Refunded(ledger: Ledger): Ledger {
    if ledger.correctionCalls > ledger.refunds then ledger.(refunds := ledger.refunds + 1) else ledger
  }

  // Task events

  /** A slot is free: the in-slot checks, up to the first suspension or save. */
  function GrantStep(turn: Turn, overBudget: bool, workspaceExists: bool, now: Time): Turn
    requires turn.task.Some?
  {
    var job := turn.task.value.local;
    if overBudget then EnterHandler(turn, BudgetLimitReached, None, now)
    else match turn.task.value.kind
      case PlanRun => SaveAt(turn, job.(state := FetchingTicket), Fetching, now)
      case ImplementRun =>
        if job.state != ImplementationQueued || job.plan.None? then
          EnterHandler(turn, ImplementationNotReady, None, now)
        else if job.repoInfo.None? then
          EnterHandler(turn, ImplementationNotSupported, None, now)
        else if !HasText(job.workspacePath) || !workspaceExists then
          EnterHandler(turn, ImplementationWorkspaceMissing, None, now)
        else
          MoveTo(turn, ReadingHead, job)
      case CorrectRun =>
        if job.state != Correcting then
          EnterHandler(turn, ValidationCorrectionNotAvailable, None, now)
        else
          SaveAt(turn, job.(correctionStartedAt := Some(now)), Preparing, now)
  }

  /** Clear the activity log (a save), then start the agent. */
  function StartAgent(turn: Turn, now: Time): Turn
    requires turn.task.Some?
  {
    var started := SaveAt(turn, turn.task.value.local, Agent, now);
    var ledger := turn.ledger;
    match turn.task.value.kind
    case PlanRun => started.(ledger := ledger.(planCalls := ledger.planCalls + 1))
    case ImplementRun => started.(ledger := ledger.(implCalls := ledger.implCalls + 1))
    case CorrectRun => started.(ledger := ledger.(correctionCalls := ledger.correctionCalls + 1))
  }

  /** The awaited results a task can go on with; `Nothing` where it simply goes on. */
  predicate CanProceed(task: Task, payload: Payload) {
    match task.pc
    case Cloning => payload.ClonedTo? && payload.path != ""
    case ReadingHead => payload.Head? && payload.ref != Some("")
    case Collecting(_) => payload.Collection?
    case Recollecting => payload.Collection?
    case Refreshing(_) => payload.Collection?
    case Validating => payload.Validation?
    case Entering => false
    case Waiting => false
    case Agent => false
    case _ => payload.Nothing?
  }

  function ProceedStep(turn: Turn, payload: Payload, now: Time): Turn
    requires turn.task.Some? && CanProceed(turn.task.value, payload)
  {
    var task := turn.task.value;
    var job := task.local;
    match task.pc
    case Fetching => SaveAt(turn, job.(state := CloningRepo), Cloning, now)
    case Cloning =>
      var cloned := job.(repoInfo := Some(payload.kind), workspacePath := Some(payload.path));
      SaveAt(turn, cloned.(state := MappingRepo), Mapping, now)
    case Mapping => SaveAt(turn, job.(state := Planning), PlanSaved, now)
    case PlanSaved => StartAgent(turn, now)
    case ReadingHead =>
      var ref := if payload.ref.Some? then payload.ref.value else "HEAD";
      var saved := SaveAt(turn, job.(baseline := Some(ref)), HeadSaved, now);
      // The local copy also takes the save's own timestamp; the next save stores it.
      MoveTo(saved, HeadSaved, saved.stored.(startedAt := Some(now)))
    case HeadSaved => SaveAt(turn, job.(state := Implementing), Preparing, now)
    case Preparing =>
      if task.kind == CorrectRun && !HasText(job.workspacePath) then
        EnterHandler(turn, ImplementationWorkspaceMissing, None, now)
      else
        StartAgent(turn, now)
    case Restoring(outcome) => RestoredStep(turn, outcome, now)
    case Collecting(result) =>
      if ClaimsUnseenChanges(result, payload.diff) then
        EnterHandler(turn, ImplementationInvalid, None, now)
      else
        SaveAt(turn, job.(implementationResult := Some(Listed(result, payload.diff)),
                          implementationDiff := payload.diff), Collected, now)
    case Collected => SaveAt(turn, job.(state := JobState.Validating), Pc.Validating, now)
    case CorrectionSaved => SaveAt(turn, job.(state := Revalidating), Recollecting, now)
    case Recollecting =>
      MoveTo(turn, Pc.Validating, job.(implementationDiff := Kept(payload.diff, job.implementationDiff)))
    case Validating =>
      var validated := job.(validationResults := payload.results);
      if task.kind == CorrectRun then
        SaveAndEnd(turn, validated.(correctionAttempted := true, state := ImplementationReady), now)
      else
        var saved := SaveAt(turn, validated, Validated, now);
        MoveTo(saved, Validated, saved.stored.(finishedAt := Some(now)))
    case Validated => SaveAndEnd(turn, job.(state := ImplementationReady), now)
    case Refreshing(code) => HandledStep(turn, code, payload.diff, now)
  }

  /** Line endings are back; the agent's own outcome goes on. */
  function RestoredStep(turn: Turn, outcome: Outcome, now: Time): Turn
    requires turn.task.Some?
  {
    var task := turn.task.value;
    match outcome
    case ImplReturned(result, usage) =>
      if task.kind == CorrectRun then
        SaveAt(turn, task.local.(correctionResult := Some(result), correctionUsage := Some(usage)),
               CorrectionSaved, now)
      else
        SaveAt(turn, task.local.(implementationUsage := Some(usage)), Collecting(result), now)
    case Refused(code, carried) => EnterHandler(turn, code, carried, now)
    case Interrupted => FinallyBlock(turn, task.kind, now)
    case _ => EnterHandler(turn, Internal, None, now)
  }

  /** The refresh is done: the failure is recorded and the task ends. */
  function HandledStep(turn: Turn, code: ErrorCode, diff: Option<ImplementationDiff>, now: Time): Turn
    requires turn.task.Some?
  {
    var job := Refreshed(turn.task.value.local, diff);
    var ledger := turn.ledger;
    if turn.task.value.kind == CorrectRun then
      var refunded := if code == BudgetLimitReached then Refunded(ledger) else ledger;
      SaveAndEnd(turn, CorrectionFailed(job, code, code != BudgetLimitReached), now).(ledger := refunded)
    else
      SaveAndEnd(turn, FailedAs(job, code, ImplementationFailed), now)
  }

  /** The agent step is over; the ledger books what it says it spent. */
  function FinishStep(turn: Turn, outcome: Outcome, now: Time): Turn
    requires turn.task.Some?
  {
    var task := turn.task.value;
    var booked := turn.(ledger := Book(turn.ledger, task.kind, UsageOf(outcome)));
    if task.kind == PlanRun then
      match outcome
      case PlanReturned(plan, usage) =>
        SaveAndEnd(booked, task.local.(plan := Some(plan), usage := Some(usage), state := PlanReady), now)
      case Refused(code, carried) => EnterHandler(booked, code, carried, now)
      case _ => EnterHandler(booked, Internal, None, now)
    else
      MoveTo(booked, Restoring(outcome), task.local)
  }

  /** The awaits in which a step other than the agent can raise a typed error. */
  predicate CanRaiseAppError(pc: Pc) {
    pc.Fetching? || pc.Cloning? || pc.Mapping? || pc.Preparing? || pc.Validating?
  }

  /** The awaits in which anything else can be raised. */
  predicate CanRaiseOther(pc: Pc) {
    CanRaiseAppError(pc) || pc.ReadingHead? || pc.Restoring? || pc.Collecting? || pc.Recollecting?
    || pc.Refreshing?
  }

  /** An exception that is no typed error. In the `except` block itself it ends the task. */
  function RaiseOtherStep(turn: Turn, now: Time): Turn
    requires turn.task.Some?
  {
    var task := turn.task.value;
    if task.pc.Refreshing? then FinallyBlock(turn, task.kind, now)
    else EnterHandler(turn, Internal, None, now)
  }

  /**
   Cancellation. During the agent call the line endings are still restored;
   anywhere else only the `finally` block runs. A task cancelled before its
   first step runs no code at all.
   */
  function CancelStep(turn: Turn, now: Time): Turn
    requires turn.task.Some?
  {
    var task := turn.task.value;
    if task.pc.Entering? then
      turn.(task := None)
    else if task.pc.Agent? && task.kind != PlanRun then
      MoveTo(turn, Restoring(Interrupted), task.local)
    else
      FinallyBlock(turn, task.kind, now)
  }

  datatype TaskEvent =
    | Begin
    | Grant(overBudget: bool, workspaceExists: bool)
    | Proceed(payload: Payload)
    | Finish(outcome: Outcome)
    | Activity
    | RaiseAppError(code: ErrorCode)
    | RaiseOther
    | Cancel

  predicate TaskEnabled(task: Task, event: TaskEvent) {
    match event
    case Begin => task.pc.Entering?
    case Grant(_, _) => task.pc.Waiting?
    case Proceed(payload) => CanProceed(task, payload)
    case Finish(outcome) =>
      && task.pc.Agent? && !outcome.Interrupted?
      && (outcome.PlanReturned? ==> task.kind == PlanRun)
      && (outcome.ImplReturned? ==> task.kind != PlanRun)
    case Activity => task.pc.Agent?
    case RaiseAppError(_) => CanRaiseAppError(task.pc)
    case RaiseOther => CanRaiseOther(task.pc)
    case Cancel => true
  }

  function TaskStep(turn: Turn, event: TaskEvent, now: Time): Turn
    requires turn.task.Some? && TaskEnabled(turn.task.value, event)
  {
    match event
    case Begin => MoveTo(turn, Waiting, turn.stored)
    case Grant(overBudget, workspaceExists) => GrantStep(turn, overBudget, workspaceExists, now)
    case Proceed(payload) => ProceedStep(turn, payload, now)
    case Finish(outcome) => FinishStep(turn, outcome, now)
    case Activity => SaveAt(turn, turn.task.value.local, Agent, now)
    case RaiseAppError(code) => EnterHandler(turn, code, None, now)
    case RaiseOther => RaiseOtherStep(turn, now)
    case Cancel => CancelStep(turn, now)
  }

  // Cell events

  datatype CellEvent =
    | Implement(workspaceExists: bool)   // route
    | Correct(workspaceExists: bool)     // route
    | OnTask(i: nat, event: TaskEvent)   // the i-th live task of the job
    | Crash
    | Recover(raises: bool, diff: Option<ImplementationDiff>)
    | Mark(removedAt: Time)              // the retention sweep

  predicate Enabled(cell: Cell, event: CellEvent) {
    match event
    case Implement(workspaceExists) => CanImplement(cell.stored) && workspaceExists
    case Correct(workspaceExists) => CanCorrect(cell.stored) && workspaceExists
    case OnTask(i, e) => i < |cell.tasks| && TaskEnabled(cell.tasks[i], e)
    case Crash => true
    case Recover(raises, _) =>
      && !IsTerminal(cell.stored.state)
      && (raises ==> IsCorrectionState(cell.stored.state) || IsImplementationState(cell.stored.state))
    case Mark(_) => IsTerminal(cell.stored.state) && cell.stored.workspaceRemovedAt.None?
  }

  function Launch(cell: Cell, job: Job, kind: Kind): Cell {
    cell.(stored := job, tasks := cell.tasks + [Task(kind, Entering, job)])
  }

  function AfterTurn(cell: Cell, i: nat, turn: Turn, stranded: bool): Cell
    requires i < |cell.tasks|
  {
    var rest := if turn.task.Some? then [turn.task.value] else [];
    Cell(turn.stored, cell.tasks[..i] + rest + cell.tasks[i + 1..], turn.ledger, stranded)
  }

  function Step(cell: Cell, event: CellEvent, now: Time): Cell
    requires Enabled(cell, event)
  {
    match event
    case Implement(_) => Launch(cell, Stamped(Approved(cell.stored, now), now), ImplementRun)
    case Correct(_) => Launch(cell, Stamped(CorrectionQueued(cell.stored), now), CorrectRun)
    case OnTask(i, e) =>
      var task := cell.tasks[i];
      var strands := e.Cancel? && task.pc.Entering?;
      AfterTurn(cell, i, TaskStep(Turn(cell.stored, Some(task), cell.ledger), e, now), cell.stranded || strands)
    // The process dies: tasks and local copies are gone, the record stays.
    case Crash =>
      cell.(tasks := [], stranded := !IsTerminal(cell.stored.state))
    // A recovery whose diff refresh raises skips the job.
    case Recover(raises, diff) =>
      if raises then cell
      else cell.(stored := Stamped(Recovered(cell.stored, diff), now), stranded := false)
    case Mark(removedAt) => cell.(stored := cell.stored.(workspaceRemovedAt := Some(removedAt)))
  }
}
