/**
 How far an owner can overshoot the spend limit. A run is in flight from the
 spend check inside its slot until its cost is saved; the limit is exceeded by
 at most the cost of the runs in flight together.
 */
module Budget {
  import opened Prelude
  import opened Models
  import opened Transitions
  import opened Sums
  import opened Spend
  import opened Lifecycle
  import opened LifecycleInvariant
  import opened System
  import opened SystemInvariant
  import opened Guarantees

  /** The task passed its spend check and has not yet saved the cost of its agent. */
  predicate InFlight(turn: Turn) {
    turn.task.Some? &&
    var task := turn.task.value;
    match task.kind
    case PlanRun => Holding(task)
    case ImplementRun =>
      task.pc.ReadingHead? || task.pc.HeadSaved? || task.pc.Preparing? || task.pc.Agent? || task.pc.Restoring?
      || (task.pc.Refreshing? && Held(task, turn.stored).Some?)
    case CorrectRun =>
      task.pc.Preparing? || task.pc.Agent? || task.pc.Restoring?
      || (task.pc.Refreshing? && Held(task, turn.stored).Some?)
  }

  /** No run costs more than `c`. */
  predicate CostsAtMost(event: CellEvent, c: real) {
    event.OnTask? && event.event.Finish? ==> Cost(UsageOf(event.event.outcome)) <= c
  }

  ghost function RunsCostAtMost(c: real): (Sys, Event) -> bool {
    (s: Sys, event: Event) => event.OnCell? ==> NoStepSaysBudget(event.event) && CostsAtMost(event.event, c)
  }

  /** What the record shows or will show of a run is at most `c`, and stamped with that run. */
  predicate Charged(turn: Turn, c: real) {
    && Cost(turn.stored.implementationUsage) <= c && Cost(ImplementationDue(turn)) <= c
    && Cost(turn.stored.correctionUsage) <= c && Cost(CorrectionDue(turn)) <= c
    && (turn.stored.correctionUsage.Some? ==> turn.stored.correctionStartedAt.Some?)
  }

  predicate Priced(turn: Turn, c: real) {
    NoRefund(turn) && Charged(turn, c)
  }

  /** The points where a task may save the cost it holds. */
  predicate Settles(task: Task) {
    task.pc.Restoring? || task.pc.Refreshing?
  }

  predicate CanCharge(turn: Turn, event: TaskEvent, clock: Time, c: real) {
    && TurnInv(turn, clock) && Priced(turn, c) && c >= 0.0
    && turn.task.Some? && TaskEnabled(turn.task.value, event)
    && NoStepSaysBudget(OnTask(0, event)) && CostsAtMost(OnTask(0, event), c)
  }

  lemma PlanFinishKeepsCharged(turn: Turn, event: TaskEvent, clock: Time, now: Time, c: real)
    requires CanCharge(turn, event, clock, c) && Live(turn, PlanRun) && event.Finish?
    ensures Charged(TaskStep(turn, event, now), c)
  {
    var before, after := turn.stored, TaskStep(turn, event, now);
    assert after.task.None? && after.stored.implementationUsage == before.implementationUsage;
    assert after.stored.correctionUsage == before.correctionUsage;
    assert after.stored.correctionStartedAt == before.correctionStartedAt;
  }

  lemma PlanKeepsCharged(turn: Turn, event: TaskEvent, clock: Time, now: Time, c: real)
    requires CanCharge(turn, event, clock, c) && Live(turn, PlanRun)
    ensures Charged(TaskStep(turn, event, now), c)
  {
    if event.Finish? {
      PlanFinishKeepsCharged(turn, event, clock, now, c);
    } else {
      var before, after := turn.stored, TaskStep(turn, event, now).stored;
      assert after.usage == before.usage && after.implementationUsage == before.implementationUsage;
      assert after.correctionUsage == before.correctionUsage;
    }
  }

  lemma ImplementProceedKeepsCharged(turn: Turn, event: TaskEvent, clock: Time, now: Time, c: real)
    requires CanCharge(turn, event, clock, c) && Live(turn, ImplementRun) && event.Proceed? && !Settles(turn.task.value)
    ensures Charged(TaskStep(turn, event, now), c)
  {
    var before, after := turn.stored, TaskStep(turn, event, now).stored;
    assert after.implementationUsage == before.implementationUsage;
    assert after.correctionUsage == before.correctionUsage && after.correctionStartedAt == before.correctionStartedAt;
  }

  lemma ImplementRestoredKeepsCharged(turn: Turn, event: TaskEvent, clock: Time, now: Time, c: real)
    requires CanCharge(turn, event, clock, c) && Live(turn, ImplementRun) && event.Proceed?
    requires turn.task.value.pc.Restoring?
    ensures Charged(TaskStep(turn, event, now), c)
  {}

  lemma ImplementHandledKeepsCharged(turn: Turn, event: TaskEvent, clock: Time, now: Time, c: real)
    requires CanCharge(turn, event, clock, c) && Live(turn, ImplementRun) && event.Proceed?
    requires turn.task.value.pc.Refreshing?
    ensures Charged(TaskStep(turn, event, now), c)
  {}

  lemma ImplementOtherKeepsCharged(turn: Turn, event: TaskEvent, clock: Time, now: Time, c: real)
    requires CanCharge(turn, event, clock, c) && Live(turn, ImplementRun) && !event.Proceed?
    ensures Charged(TaskStep(turn, event, now), c)
  {}

  lemma CorrectProceedKeepsCharged(turn: Turn, event: TaskEvent, clock: Time, now: Time, c: real)
    requires CanCharge(turn, event, clock, c) && Live(turn, CorrectRun) && event.Proceed? && !Settles(turn.task.value)
    ensures Charged(TaskStep(turn, event, now), c)
  {
    var before, after := turn, TaskStep(turn, event, now);
    assert after.stored.implementationUsage == before.stored.implementationUsage;
    assert ImplementationDue(after) == after.stored.implementationUsage;
  }

  lemma CorrectRestoredKeepsCharged(turn: Turn, event: TaskEvent, clock: Time, now: Time, c: real)
    requires CanCharge(turn, event, clock, c) && Live(turn, CorrectRun) && event.Proceed?
    requires turn.task.value.pc.Restoring?
    ensures Charged(TaskStep(turn, event, now), c)
  {
    var before, after := turn, TaskStep(turn, event, now);
    assert after.stored.implementationUsage == before.stored.implementationUsage;
    assert ImplementationDue(after) == after.stored.implementationUsage;
  }

  lemma CorrectHandledKeepsCharged(turn: Turn, event: TaskEvent, clock: Time, now: Time, c: real)
    requires CanCharge(turn, event, clock, c) && Live(turn, CorrectRun) && event.Proceed?
    requires turn.task.value.pc.Refreshing?
    ensures Charged(TaskStep(turn, event, now), c)
  {
    var before, after := turn, TaskStep(turn, event, now);
    assert after.stored.implementationUsage == before.stored.implementationUsage;
    assert ImplementationDue(after) == after.stored.implementationUsage;
  }

  lemma CorrectOtherKeepsCharged(turn: Turn, event: TaskEvent, clock: Time, now: Time, c: real)
    requires CanCharge(turn, event, clock, c) && Live(turn, CorrectRun) && !event.Proceed?
    ensures Charged(TaskStep(turn, event, now), c)
  {
    var before, after := turn, TaskStep(turn, event, now);
    assert after.stored.implementationUsage == before.stored.implementationUsage;
    assert ImplementationDue(after) == after.stored.implementationUsage;
  }

  lemma TaskStepKeepsPriced(turn: Turn, event: TaskEvent, clock: Time, now: Time, c: real)
    requires CanCharge(turn, event, clock, c)
    ensures Priced(TaskStep(turn, event, now), c)
  {
    TaskStepKeepsNoRefund(turn, event, clock, now);
    match turn.task.value.kind
    case PlanRun => PlanKeepsCharged(turn, event, clock, now, c);
    case ImplementRun =>
      if event.Proceed? && turn.task.value.pc.Restoring? {
        ImplementRestoredKeepsCharged(turn, event, clock, now, c);
      } else if event.Proceed? && turn.task.value.pc.Refreshing? {
        ImplementHandledKeepsCharged(turn, event, clock, now, c);
      } else if event.Proceed? {
        ImplementProceedKeepsCharged(turn, event, clock, now, c);
      } else {
        ImplementOtherKeepsCharged(turn, event, clock, now, c);
      }
    case CorrectRun =>
      if event.Proceed? && turn.task.value.pc.Restoring? {
        CorrectRestoredKeepsCharged(turn, event, clock, now, c);
      } else if event.Proceed? && turn.task.value.pc.Refreshing? {
        CorrectHandledKeepsCharged(turn, event, clock, now, c);
      } else if event.Proceed? {
        CorrectProceedKeepsCharged(turn, event, clock, now, c);
      } else {
        CorrectOtherKeepsCharged(turn, event, clock, now, c);
      }
  }

  /** The job's recorded spend plus, for a run in flight, the most it can add. */
  function Exposure(turn: Turn, since: Time, c: real): real {
    WindowCost(turn.stored, since) + if InFlight(turn) then c else 0.0
  }

  predicate Accepts(event: TaskEvent) {
    event.Grant? && !event.overBudget
  }

  /** A task's step never raises the exposure of its job, but for the check that lets it run. */
  predicate ExposureFalls(turn: Turn, event: TaskEvent, now: Time, since: Time, c: real)
    requires turn.task.Some? && TaskEnabled(turn.task.value, event)
  {
    var after := TaskStep(turn, event, now);
    && (!Accepts(event) ==> Exposure(after, since, c) <= Exposure(turn, since, c))
    && (Accepts(event) ==> WindowCost(after.stored, since) <= WindowCost(turn.stored, since))
  }

  lemma PlanExposure(turn: Turn, event: TaskEvent, clock: Time, now: Time, since: Time, c: real)
    requires CanCharge(turn, event, clock, c) && Live(turn, PlanRun)
    ensures ExposureFalls(turn, event, now, since, c)
  {
    var before, after := turn.stored, TaskStep(turn, event, now).stored;
    assert after.createdAt == before.createdAt;
    assert after.implementationUsage == before.implementationUsage && after.startedAt == before.startedAt;
    assert after.correctionUsage == before.correctionUsage && after.correctionStartedAt == before.correctionStartedAt;
  }

  /** The points before the agent of an implementation starts. */
  predicate Starting(pc: Pc) {
    pc.ReadingHead? || pc.HeadSaved? || pc.Preparing?
  }

  lemma StartImplementExposure(turn: Turn, event: TaskEvent, clock: Time, now: Time, since: Time, c: real)
    requires CanCharge(turn, event, clock, c) && Live(turn, ImplementRun) && event.Proceed?
    requires Starting(turn.task.value.pc)
    ensures ExposureFalls(turn, event, now, since, c)
  {
    var before, after := turn.stored, TaskStep(turn, event, now).stored;
    assert after.usage == before.usage && after.createdAt == before.createdAt;
    assert after.implementationUsage == before.implementationUsage == None;
    assert after.correctionUsage == before.correctionUsage && after.correctionStartedAt == before.correctionStartedAt;
  }

  lemma ImplementProceedExposure(turn: Turn, event: TaskEvent, clock: Time, now: Time, since: Time, c: real)
    requires CanCharge(turn, event, clock, c) && Live(turn, ImplementRun) && event.Proceed? && !Settles(turn.task.value)
    ensures ExposureFalls(turn, event, now, since, c)
  {
    if Starting(turn.task.value.pc) {
      StartImplementExposure(turn, event, clock, now, since, c);
    } else {
      var before, after := turn.stored, TaskStep(turn, event, now).stored;
      assert after.usage == before.usage && after.createdAt == before.createdAt;
      assert after.implementationUsage == before.implementationUsage && after.startedAt == before.startedAt;
      assert after.correctionUsage == before.correctionUsage && after.correctionStartedAt == before.correctionStartedAt;
    }
  }

  lemma ImplementRestoredExposure(turn: Turn, event: TaskEvent, clock: Time, now: Time, since: Time, c: real)
    requires CanCharge(turn, event, clock, c) && Live(turn, ImplementRun) && event.Proceed?
    requires turn.task.value.pc.Restoring?
    ensures ExposureFalls(turn, event, now, since, c)
  {}

  lemma ImplementHandledExposure(turn: Turn, event: TaskEvent, clock: Time, now: Time, since: Time, c: real)
    requires CanCharge(turn, event, clock, c) && Live(turn, ImplementRun) && event.Proceed?
    requires turn.task.value.pc.Refreshing?
    ensures ExposureFalls(turn, event, now, since, c)
  {}

  lemma ImplementOtherExposure(turn: Turn, event: TaskEvent, clock: Time, now: Time, since: Time, c: real)
    requires CanCharge(turn, event, clock, c) && Live(turn, ImplementRun) && !event.Proceed?
    ensures ExposureFalls(turn, event, now, since, c)
  {}

  lemma CorrectProceedExposure(turn: Turn, event: TaskEvent, clock: Time, now: Time, since: Time, c: real)
    requires CanCharge(turn, event, clock, c) && Live(turn, CorrectRun) && event.Proceed? && !Settles(turn.task.value)
    ensures ExposureFalls(turn, event, now, since, c)
  {}

  lemma CorrectRestoredExposure(turn: Turn, event: TaskEvent, clock: Time, now: Time, since: Time, c: real)
    requires CanCharge(turn, event, clock, c) && Live(turn, CorrectRun) && event.Proceed?
    requires turn.task.value.pc.Restoring?
    ensures ExposureFalls(turn, event, now, since, c)
  {}

  lemma CorrectHandledExposure(turn: Turn, event: TaskEvent, clock: Time, now: Time, since: Time, c: real)
    requires CanCharge(turn, event, clock, c) && Live(turn, CorrectRun) && event.Proceed?
    requires turn.task.value.pc.Refreshing?
    ensures ExposureFalls(turn, event, now, since, c)
  {
    var before, after := turn.stored, TaskStep(turn, event, now).stored;
    assert after.usage == before.usage && after.createdAt == before.createdAt;
    assert after.implementationUsage == before.implementationUsage && after.startedAt == before.startedAt;
    assert after.correctionStartedAt == before.correctionStartedAt;
    assert after.correctionUsage == turn.task.value.local.correctionUsage;
  }

  lemma CorrectOtherExposure(turn: Turn, event: TaskEvent, clock: Time, now: Time, since: Time, c: real)
    requires CanCharge(turn, event, clock, c) && Live(turn, CorrectRun) && !event.Proceed?
    ensures ExposureFalls(turn, event, now, since, c)
  {}

  lemma TaskStepExposure(turn: Turn, event: TaskEvent, clock: Time, now: Time, since: Time, c: real)
    requires CanCharge(turn, event, clock, c)
    ensures ExposureFalls(turn, event, now, since, c)
  {
    match turn.task.value.kind
    case PlanRun => PlanExposure(turn, event, clock, now, since, c);
    case ImplementRun =>
      if event.Proceed? && turn.task.value.pc.Restoring? {
        ImplementRestoredExposure(turn, event, clock, now, since, c);
      } else if event.Proceed? && turn.task.value.pc.Refreshing? {
        ImplementHandledExposure(turn, event, clock, now, since, c);
      } else if event.Proceed? {
        ImplementProceedExposure(turn, event, clock, now, since, c);
      } else {
        ImplementOtherExposure(turn, event, clock, now, since, c);
      }
    case CorrectRun =>
      if event.Proceed? && turn.task.value.pc.Restoring? {
        CorrectRestoredExposure(turn, event, clock, now, since, c);
      } else if event.Proceed? && turn.task.value.pc.Refreshing? {
        CorrectHandledExposure(turn, event, clock, now, since, c);
      } else if event.Proceed? {
        CorrectProceedExposure(turn, event, clock, now, since, c);
      } else {
        CorrectOtherExposure(turn, event, clock, now, since, c);
      }
  }

  // One job

  lemma WindowShrinks(job: Job, since: Time, later: Time)
    requires since <= later
    ensures WindowCost(job, later) <= WindowCost(job, since)
  {}

  predicate AcceptsRun(event: CellEvent) {
    event.OnTask? && Accepts(event.event)
  }

  lemma QuietStepExposure(cell: Cell, event: CellEvent, clock: Time, now: Time, c: real)
    requires Inv(cell, clock) && Priced(View(cell), c) && c >= 0.0 && Enabled(cell, event)
    requires !event.OnTask? && (event.Recover? ==> cell.tasks == [])
    ensures var after := Step(cell, event, now);
            && Charged(View(after), c) && !InFlight(View(after))
            && WindowCost(after.stored, now - SPEND_WINDOW) <= WindowCost(cell.stored, now - SPEND_WINDOW)
  {}

  /** What one event of a job does to its exposure. */
  predicate StepExposed(cell: Cell, event: CellEvent, now: Time, c: real)
    requires Enabled(cell, event)
  {
    var since, after := now - SPEND_WINDOW, View(Step(cell, event, now));
    && Priced(after, c)
    && if AcceptsRun(event) then WindowCost(after.stored, since) <= WindowCost(cell.stored, since)
       else Exposure(after, since, c) <= Exposure(View(cell), since, c)
  }

  lemma StepExposure(cell: Cell, event: CellEvent, clock: Time, now: Time, c: real)
    requires Inv(cell, clock) && Priced(View(cell), c) && c >= 0.0 && Enabled(cell, event)
    requires NoStepSaysBudget(event) && CostsAtMost(event, c) && (event.Recover? ==> cell.tasks == [])
    ensures StepExposed(cell, event, now, c)
  {
    StepKeepsNoRefund(cell, event, clock, now);
    if event.OnTask? {
      TaskExposed(cell, event, clock, now, c);
    } else {
      QuietStepExposure(cell, event, clock, now, c);
    }
  }

  lemma TaskExposed(cell: Cell, event: CellEvent, clock: Time, now: Time, c: real)
    requires Inv(cell, clock) && Enabled(cell, event) && event.OnTask?
    requires CanCharge(View(cell), event.event, clock, c)
    ensures StepExposed(cell, event, now, c)
  {
    OnTaskView(cell, event, now);
    TaskStepKeepsPriced(View(cell), event.event, clock, now, c);
    TaskStepExposure(View(cell), event.event, clock, now, now - SPEND_WINDOW, c);
  }

  lemma TaskStepKeepsOwner(turn: Turn, event: TaskEvent, now: Time)
    requires turn.task.Some? && TaskEnabled(turn.task.value, event)
    requires turn.task.value.pc.Entering? || turn.task.value.local.owner == turn.stored.owner
    ensures TaskStep(turn, event, now).stored.owner == turn.stored.owner
  {}

  lemma StepKeepsOwner(cell: Cell, event: CellEvent, clock: Time, now: Time)
    requires Inv(cell, clock) && Enabled(cell, event)
    ensures Step(cell, event, now).stored.owner == cell.stored.owner
  {
    if event.OnTask? {
      TaskStepKeepsOwner(View(cell), event.event, now);
    }
  }

  // All jobs

  ghost function InFlightOf(owner: Owner): Cell -> bool {
    (cell: Cell) => cell.stored.owner == Some(owner) && InFlight(View(cell))
  }

  /** How many of the owner's runs are in flight. */
  ghost function RunsInFlight(cells: map<Id, Cell>, owner: Owner): nat {
    |Select(cells, InFlightOf(owner))|
  }

  ghost function ExposureBy(owner: Owner, since: Time, c: real): Cell -> real {
    (cell: Cell) => if cell.stored.owner == Some(owner) then Exposure(View(cell), since, c) else 0.0
  }

  ghost function ChargeBy(owner: Owner, c: real): Cell -> real {
    (cell: Cell) => if InFlightOf(owner)(cell) then c else 0.0
  }

  ghost function TotalExposure(cells: map<Id, Cell>, owner: Owner, now: Time, c: real): real {
    SumBy(cells, ExposureBy(owner, now - SPEND_WINDOW, c))
  }

  lemma ExposureOfSplits(cell: Cell, owner: Owner, since: Time, c: real)
    ensures ExposureBy(owner, since, c)(cell) == SpentBy(owner, since)(cell) + ChargeBy(owner, c)(cell)
  {
    var turn := View(cell);
    assert Exposure(turn, since, c) == WindowCost(cell.stored, since) + if InFlight(turn) then c else 0.0;
    assert InFlightOf(owner)(cell) == (cell.stored.owner == Some(owner) && InFlight(turn));
  }

  lemma {:induction false} ExposureSplits(cells: map<Id, Cell>, owner: Owner, now: Time, c: real)
    ensures TotalExposure(cells, owner, now, c) == Spent(cells, owner, now) + Times(c, RunsInFlight(cells, owner))
  {
    var since := now - SPEND_WINDOW;
    forall id | id in cells
      ensures ExposureBy(owner, since, c)(cells[id]) == SpentBy(owner, since)(cells[id]) + ChargeBy(owner, c)(cells[id])
    {
      ExposureOfSplits(cells[id], owner, since, c);
    }
    SumAdd(cells, SpentBy(owner, since), ChargeBy(owner, c), ExposureBy(owner, since, c));
    SumSelected(cells, InFlightOf(owner), c, ChargeBy(owner, c));
  }

  predicate AllPriced(s: Sys, c: real) {
    forall id :: id in s.cells ==> Priced(View(s.cells[id]), c)
  }

  /** The event lets a run of this owner start. */
  predicate AdmitsRun(s: Sys, event: Event, owner: Owner) {
    && event.OnCell? && event.id in s.cells
    && s.cells[event.id].stored.owner == Some(owner) && AcceptsRun(event.event)
  }

  predicate Bounded(event: Event, c: real) {
    event.OnCell? ==> NoStepSaysBudget(event.event) && CostsAtMost(event.event, c)
  }

  lemma {:induction false} ExposureShrinks(cell: Cell, owner: Owner, since: Time, later: Time, c: real)
    requires since <= later
    ensures ExposureBy(owner, later, c)(cell) <= ExposureBy(owner, since, c)(cell)
  {
    WindowShrinks(cell.stored, since, later);
  }

  lemma {:induction false} TouchedExposure(cell: Cell, event: CellEvent, clock: Time, now: Time, owner: Owner, c: real)
    requires Inv(cell, clock) && Priced(View(cell), c) && c >= 0.0 && Enabled(cell, event)
    requires NoStepSaysBudget(event) && CostsAtMost(event, c) && (event.Recover? ==> cell.tasks == [])
    ensures
      var after, since := Step(cell, event, now), now - SPEND_WINDOW;
      && Priced(View(after), c) && after.stored.owner == cell.stored.owner
      && (AcceptsRun(event) ==> SpentBy(owner, since)(after) <= SpentBy(owner, since)(cell))
      && (!AcceptsRun(event) ==> ExposureBy(owner, since, c)(after) <= ExposureBy(owner, since, c)(cell))
  {
    StepKeepsOwner(cell, event, clock, now);
    StepExposure(cell, event, clock, now, c);
  }

  /** What an event that admits the owner's run (or not) may do to one job's share of the exposure. */
  ghost predicate ShareFalls(before: Cell, after: Cell, owner: Owner, admits: bool, clock: Time, now: Time, c: real) {
    var since := now - SPEND_WINDOW;
    && Priced(View(after), c)
    && (admits ==> SpentBy(owner, since)(after) <= SpentBy(owner, since)(before))
    && (!admits ==> ExposureBy(owner, since, c)(after) <= ExposureBy(owner, clock - SPEND_WINDOW, c)(before))
  }

  lemma {:induction false} TouchedShareFalls(
    cell: Cell, event: CellEvent, clock: Time, now: Time, owner: Owner, admits: bool, c: real)
    requires Inv(cell, clock) && clock < now && Priced(View(cell), c) && c >= 0.0 && Enabled(cell, event)
    requires NoStepSaysBudget(event) && CostsAtMost(event, c) && (event.Recover? ==> cell.tasks == [])
    requires cell.stored.owner == Some(owner) ==> (admits <==> AcceptsRun(event))
    ensures ShareFalls(cell, Step(cell, event, now), owner, admits, clock, now, c)
  {
    TouchedExposure(cell, event, clock, now, owner, c);
    ExposureShrinks(cell, owner, clock - SPEND_WINDOW, now - SPEND_WINDOW, c);
  }

  lemma {:induction false} UntouchedShareFalls(
    cell: Cell, owner: Owner, admits: bool, clock: Time, now: Time, c: real)
    requires clock < now && Priced(View(cell), c)
    ensures ShareFalls(cell, cell, owner, admits, clock, now, c)
  {
    ExposureShrinks(cell, owner, clock - SPEND_WINDOW, now - SPEND_WINDOW, c);
  }

  /** What one event does to one job's share of the exposure. */
  lemma NextExposureOf(cfg: Config, s: Sys, event: Event, now: Time, owner: Owner, c: real, id: Id)
    requires CellsOk(s) && c >= 0.0 && Possible(cfg, s, event, now) && Bounded(event, c)
    requires id in s.cells && id in Next(cfg, s, event, now).cells && Priced(View(s.cells[id]), c)
    ensures ShareFalls(s.cells[id], Next(cfg, s, event, now).cells[id], owner, AdmitsRun(s, event, owner), s.clock, now, c)
  {
    NextCell(cfg, s, event, now, id);
    var admits, touch := AdmitsRun(s, event, owner), Touches(cfg, s, event, id);
    if touch.None? {
      UntouchedShareFalls(s.cells[id], owner, admits, s.clock, now, c);
    } else if s.cells[id].stored.owner == Some(owner) {
      TouchedShareFalls(s.cells[id], touch.value, s.clock, now, owner, AcceptsRun(touch.value), c);
    } else {
      TouchedShareFalls(s.cells[id], touch.value, s.clock, now, owner, admits, c);
    }
  }

  lemma NextKeepsPriced(cfg: Config, s: Sys, event: Event, now: Time, c: real)
    requires SysInv(cfg, s) && AllPriced(s, c) && c >= 0.0 && Possible(cfg, s, event, now) && Bounded(event, c)
    ensures AllPriced(Next(cfg, s, event, now), c)
  {
    var t := Next(cfg, s, event, now);
    forall id | id in t.cells
      ensures Priced(View(t.cells[id]), c)
    {
      NextCell(cfg, s, event, now, id);
      if id in s.cells {
        NextExposureOf(cfg, s, event, now, "", c, id);
      }
    }
  }

  /** The jobs there were before the event, as they are after it. */
  ghost function Older(cfg: Config, s: Sys, event: Event, now: Time): map<Id, Cell>
    requires Possible(cfg, s, event, now)
  {
    if event.Create? then s.cells else Next(cfg, s, event, now).cells
  }

  lemma OlderKeys(cfg: Config, s: Sys, event: Event, now: Time)
    requires Possible(cfg, s, event, now)
    ensures Older(cfg, s, event, now).Keys == s.cells.Keys
    ensures event.Create? ==> Next(cfg, s, event, now).cells == s.cells[event.id := NewCell(event.id, event.owner, now)]
    ensures forall id :: id in s.cells ==>
              id in Next(cfg, s, event, now).cells && Older(cfg, s, event, now)[id] == Next(cfg, s, event, now).cells[id]
  {}

  lemma OlderExposed(cfg: Config, s: Sys, event: Event, now: Time, owner: Owner, c: real)
    requires SysInv(cfg, s) && AllPriced(s, c) && c >= 0.0 && Possible(cfg, s, event, now) && Bounded(event, c)
    ensures var older, since := Older(cfg, s, event, now), now - SPEND_WINDOW;
            && older.Keys == s.cells.Keys
            && forall id :: id in s.cells ==>
                 if AdmitsRun(s, event, owner) then SpentBy(owner, since)(older[id]) <= SpentBy(owner, since)(s.cells[id])
                 else ExposureBy(owner, since, c)(older[id]) <= ExposureBy(owner, s.clock - SPEND_WINDOW, c)(s.cells[id])
  {
    var older, since := Older(cfg, s, event, now), now - SPEND_WINDOW;
    OlderKeys(cfg, s, event, now);
    forall id | id in s.cells
      ensures if AdmitsRun(s, event, owner) then SpentBy(owner, since)(older[id]) <= SpentBy(owner, since)(s.cells[id])
              else ExposureBy(owner, since, c)(older[id]) <= ExposureBy(owner, s.clock - SPEND_WINDOW, c)(s.cells[id])
    {
      NextExposureOf(cfg, s, event, now, owner, c, id);
    }
  }

  lemma SpentFalls(after: map<Id, Cell>, before: map<Id, Cell>, owner: Owner, now: Time)
    requires after.Keys == before.Keys
    requires forall id :: id in before ==>
               SpentBy(owner, now - SPEND_WINDOW)(after[id]) <= SpentBy(owner, now - SPEND_WINDOW)(before[id])
    ensures Spent(after, owner, now) <= Spent(before, owner, now)
  {
    SumMonotone(after, SpentBy(owner, now - SPEND_WINDOW), before, SpentBy(owner, now - SPEND_WINDOW));
  }

  lemma ExposureFallsOver(after: map<Id, Cell>, now: Time, before: map<Id, Cell>, earlier: Time, owner: Owner, c: real)
    requires after.Keys == before.Keys
    requires forall id :: id in before ==>
               ExposureBy(owner, now - SPEND_WINDOW, c)(after[id])
               <= ExposureBy(owner, earlier - SPEND_WINDOW, c)(before[id])
    ensures TotalExposure(after, owner, now, c) <= TotalExposure(before, owner, earlier, c)
  {
    SumMonotone(after, ExposureBy(owner, now - SPEND_WINDOW, c), before, ExposureBy(owner, earlier - SPEND_WINDOW, c));
  }

  lemma NewJobHasNoExposure(cells: map<Id, Cell>, id: Id, owner: Option<Owner>, payer: Owner, now: Time, c: real)
    requires id !in cells
    ensures TotalExposure(cells[id := NewCell(id, owner, now)], payer, now, c) == TotalExposure(cells, payer, now, c)
  {
    SumUpdate(cells, id, NewCell(id, owner, now), ExposureBy(payer, now - SPEND_WINDOW, c));
  }

  lemma AdmissionKeepsSpent(cfg: Config, s: Sys, event: Event, now: Time, owner: Owner, c: real)
    requires SysInv(cfg, s) && AllPriced(s, c) && c >= 0.0 && Possible(cfg, s, event, now) && Bounded(event, c)
    requires AdmitsRun(s, event, owner)
    ensures Spent(Next(cfg, s, event, now).cells, owner, now) <= Spent(s.cells, owner, now)
  {
    OlderExposed(cfg, s, event, now, owner, c);
    SpentFalls(Older(cfg, s, event, now), s.cells, owner, now);
  }

  lemma NewJobsAddNothing(cfg: Config, s: Sys, event: Event, now: Time, owner: Owner, c: real)
    requires Possible(cfg, s, event, now)
    ensures TotalExposure(Next(cfg, s, event, now).cells, owner, now, c)
            == TotalExposure(Older(cfg, s, event, now), owner, now, c)
  {
    if event.Create? {
      NewJobHasNoExposure(s.cells, event.id, event.owner, owner, now, c);
    }
  }

  /** Only letting a run start raises the owner's exposure. */
  lemma OtherwiseExposureFalls(cfg: Config, s: Sys, event: Event, now: Time, owner: Owner, c: real)
    requires SysInv(cfg, s) && AllPriced(s, c) && c >= 0.0 && Possible(cfg, s, event, now) && Bounded(event, c)
    requires !AdmitsRun(s, event, owner)
    ensures TotalExposure(Next(cfg, s, event, now).cells, owner, now, c) <= TotalExposure(s.cells, owner, s.clock, c)
  {
    OlderExposed(cfg, s, event, now, owner, c);
    ExposureFallsOver(Older(cfg, s, event, now), now, s.cells, s.clock, owner, c);
    NewJobsAddNothing(cfg, s, event, now, owner, c);
  }

  /** The most runs of the owner that were in flight together at any point of the run. */
  ghost function MostInFlight(cfg: Config, events: seq<Timed>, owner: Owner): (k: nat)
    requires IsRun(cfg, events)
    ensures RunsInFlight(StateAfter(cfg, events).cells, owner) <= k
    decreases |events|
  {
    var n := RunsInFlight(StateAfter(cfg, events).cells, owner);
    if events == [] then n
    else
      var k := MostInFlight(cfg, events[..|events| - 1], owner);
      if n > k then n else k
  }

  /** The owner's exposure is below the limit plus one run's cost per run in flight together. */
  ghost predicate ExposureBelow(cfg: Config, events: seq<Timed>, owner: Owner, c: real)
    requires IsRun(cfg, events) && cfg.budget.Some?
  {
    var s := StateAfter(cfg, events);
    TotalExposure(s.cells, owner, s.clock, c) < cfg.budget.value + Times(c, MostInFlight(cfg, events, owner))
  }

  /** A waiting task's copy is the stored record, so its owner is the one whose budget is checked. */
  lemma WaitingTaskOwner(cell: Cell, i: nat, clock: Time)
    requires Inv(cell, clock) && i < |cell.tasks| && cell.tasks[i].pc.Waiting?
    ensures cell.tasks[i].local.owner == cell.stored.owner
  {
    assert LocalAgrees(cell.tasks[0], cell.stored);
  }

  /** A run is admitted only while the recorded spend is below the limit. */
  lemma AdmittedBelowBudget(cfg: Config, s: Sys, event: Event, now: Time, owner: Owner)
    requires CellsOk(s) && Possible(cfg, s, event, now) && AdmitsRun(s, event, owner) && cfg.budget.Some?
    ensures Spent(s.cells, owner, now) < cfg.budget.value
  {
    var cell, e := s.cells[event.id], event.event;
    assert CellEventAllowed(cfg, s, event.id, e, now);
    WaitingTaskOwner(cell, e.i, s.clock);
  }

  lemma {:induction false} AdmissionKeepsBound(
    cfg: Config, s: Sys, event: Event, now: Time, owner: Owner, c: real, k: nat)
    requires SysInv(cfg, s) && AllPriced(s, c) && c >= 0.0 && Possible(cfg, s, event, now) && Bounded(event, c)
    requires AdmitsRun(s, event, owner) && cfg.budget.Some?
    requires RunsInFlight(Next(cfg, s, event, now).cells, owner) <= k
    ensures TotalExposure(Next(cfg, s, event, now).cells, owner, now, c) < cfg.budget.value + Times(c, k)
  {
    var after := Next(cfg, s, event, now).cells;
    AdmittedBelowBudget(cfg, s, event, now, owner);
    AdmissionKeepsSpent(cfg, s, event, now, owner, c);
    ExposureSplits(after, owner, now, c);
    TimesMonotone(c, RunsInFlight(after, owner), k);
  }

  /** One event keeps the bound, if the count of runs in flight together keeps up. */
  lemma {:induction false} NextKeepsBound(
    cfg: Config, s: Sys, event: Event, now: Time, owner: Owner, c: real, k: nat, grown: nat)
    requires SysInv(cfg, s) && AllPriced(s, c) && c >= 0.0 && Possible(cfg, s, event, now) && Bounded(event, c)
    requires cfg.budget.Some? && TotalExposure(s.cells, owner, s.clock, c) < cfg.budget.value + Times(c, k)
    requires k <= grown && RunsInFlight(Next(cfg, s, event, now).cells, owner) <= grown
    ensures AllPriced(Next(cfg, s, event, now), c)
    ensures TotalExposure(Next(cfg, s, event, now).cells, owner, now, c) < cfg.budget.value + Times(c, grown)
  {
    NextKeepsPriced(cfg, s, event, now, c);
    if AdmitsRun(s, event, owner) {
      AdmissionKeepsBound(cfg, s, event, now, owner, c, grown);
    } else {
      OtherwiseExposureFalls(cfg, s, event, now, owner, c);
      TimesMonotone(c, k, grown);
    }
  }

  lemma {:induction false} RunKeepsBound(
    cfg: Config, before: seq<Timed>, event: Event, now: Time, owner: Owner, c: real, k: nat, grown: nat)
    requires IsRun(cfg, before) && Possible(cfg, StateAfter(cfg, before), event, now) && Bounded(event, c) && c >= 0.0
    requires AllPriced(StateAfter(cfg, before), c) && cfg.budget.Some?
    requires
      var s := StateAfter(cfg, before);
      TotalExposure(s.cells, owner, s.clock, c) < cfg.budget.value + Times(c, k)
    requires k <= grown && RunsInFlight(Next(cfg, StateAfter(cfg, before), event, now).cells, owner) <= grown
    ensures AllPriced(Next(cfg, StateAfter(cfg, before), event, now), c)
    ensures
      var t := Next(cfg, StateAfter(cfg, before), event, now);
      TotalExposure(t.cells, owner, now, c) < cfg.budget.value + Times(c, grown)
  {
    RunsKeepInv(cfg, before);
    NextKeepsBound(cfg, StateAfter(cfg, before), event, now, owner, c, k, grown);
  }

  lemma {:induction false} ExposureIsBounded(cfg: Config, events: seq<Timed>, owner: Owner, c: real)
    requires IsRun(cfg, events) && Throughout(cfg, events, RunsCostAtMost(c)) && c >= 0.0
    requires cfg.budget.Some? && cfg.budget.value > 0.0
    ensures AllPriced(StateAfter(cfg, events), c) && ExposureBelow(cfg, events, owner, c)
    decreases |events|
  {
    if events == [] {
      assert Select(START.cells, InFlightOf(owner)) == {};
    } else {
      var before, last := events[..|events| - 1], events[|events| - 1];
      ExposureIsBounded(cfg, before, owner, c);
      RunKeepsBound(cfg, before, last.event, last.now, owner, c, MostInFlight(cfg, before, owner),
                    MostInFlight(cfg, events, owner));
    }
  }

  lemma {:induction false} SpentIsBounded(cfg: Config, events: seq<Timed>, owner: Owner, c: real)
    requires IsRun(cfg, events) && Throughout(cfg, events, RunsCostAtMost(c)) && c >= 0.0
    requires cfg.budget.Some? && cfg.budget.value > 0.0
    ensures var s := StateAfter(cfg, events);
            Spent(s.cells, owner, s.clock) < cfg.budget.value + Times(c, MostInFlight(cfg, events, owner))
  {
    var s := StateAfter(cfg, events);
    ExposureIsBounded(cfg, events, owner, c);
    ExposureSplits(s.cells, owner, s.clock, c);
    TimesMonotone(c, 0, RunsInFlight(s.cells, owner));
  }

  /**
   The overshoot bound, for a positive limit. If no run costs more than `c` and
   no step but the spend check raises its code, the spend recorded for an owner
   over the last 24 hours is, at every point of every run, below the limit plus
   `c` for each of the owner's runs that were in flight together.
   */
  lemma {:induction false} OvershootIsBounded(cfg: Config, events: seq<Timed>, owner: Owner, c: real)
    requires IsRun(cfg, events) && Throughout(cfg, events, RunsCostAtMost(c)) && c >= 0.0
    requires cfg.budget.Some? && cfg.budget.value > 0.0
    ensures var s := StateAfter(cfg, events);
            Spent(s.cells, owner, s.clock) < cfg.budget.value + Product(c, MostInFlight(cfg, events, owner))
  {
    var s, k := StateAfter(cfg, events), MostInFlight(cfg, events, owner);
    SpentIsBounded(cfg, events, owner, c);
    BelowProduct(Spent(s.cells, owner, s.clock), cfg.budget.value, c, k);
  }

  // Plan runs hold their slot until their cost is saved

  ghost function NoFurtherRuns(): (Sys, Event) -> bool {
    (s: Sys, event: Event) => event.OnCell? ==> !IsRoute(event.event)
  }

  predicate OnlyPlans(s: Sys) {
    forall id :: id in s.cells ==> forall t :: t in s.cells[id].tasks ==> t.kind == PlanRun
  }

  lemma {:induction false} PlansOnly(cfg: Config, events: seq<Timed>)
    requires IsRun(cfg, events) && Throughout(cfg, events, NoFurtherRuns())
    ensures OnlyPlans(StateAfter(cfg, events))
    decreases |events|
  {
    if events != [] {
      var before, last := events[..|events| - 1], events[|events| - 1];
      var s, t := StateAfter(cfg, before), StateAfter(cfg, events);
      PlansOnly(cfg, before);
      RunsKeepInv(cfg, before);
      forall id | id in t.cells
        ensures forall task :: task in t.cells[id].tasks ==> task.kind == PlanRun
      {
        NextCell(cfg, s, last.event, last.now, id);
        if id in s.cells && Touches(cfg, s, last.event, id).Some? {
          var e := Touches(cfg, s, last.event, id).value;
          assert Inv(s.cells[id], s.clock);
          StepKeepsPlanKind(s.cells[id], e, s.clock, last.now);
        }
      }
    }
  }

  lemma StepKeepsPlanKind(cell: Cell, event: CellEvent, clock: Time, now: Time)
    requires Inv(cell, clock) && Enabled(cell, event) && !IsRoute(event)
    requires forall t :: t in cell.tasks ==> t.kind == PlanRun
    ensures forall t :: t in Step(cell, event, now).tasks ==> t.kind == PlanRun
  {
    if event.OnTask? {
      var turned := TaskStep(View(cell), event.event, now);
      assert cell.tasks[0] in cell.tasks;
      assert turned.task.Some? ==> turned.task.value.kind == PlanRun;
      assert Step(cell, event, now).tasks == if turned.task.Some? then [turned.task.value] else [];
    }
  }

  lemma {:induction false} PlansInFlightHoldSlots(cfg: Config, events: seq<Timed>, owner: Owner)
    requires IsRun(cfg, events) && Throughout(cfg, events, NoFurtherRuns())
    ensures MostInFlight(cfg, events, owner) <= cfg.slots
    decreases |events|
  {
    var s := StateAfter(cfg, events);
    RunsKeepInv(cfg, events);
    PlansOnly(cfg, events);
    var flying := Select(s.cells, InFlightOf(owner));
    forall id | id in flying
      ensures id in Holders(s.cells)
    {
      assert s.cells[id].tasks[0] in s.cells[id].tasks;
      assert Holding(s.cells[id].tasks[0]);
    }
    SubsetSize(flying, Holders(s.cells));
    if events != [] {
      PlansInFlightHoldSlots(cfg, events[..|events| - 1], owner);
    }
  }

  /** So with plan runs alone, and the same conditions, the limit is overshot by at most one run per slot. */
  lemma {:induction false} PlanOvershootIsBoundedBySlots(cfg: Config, events: seq<Timed>, owner: Owner, c: real)
    requires IsRun(cfg, events) && Throughout(cfg, events, RunsCostAtMost(c)) && c >= 0.0
    requires cfg.budget.Some? && cfg.budget.value > 0.0
    requires Throughout(cfg, events, NoFurtherRuns())
    ensures var s := StateAfter(cfg, events);
            Spent(s.cells, owner, s.clock) < cfg.budget.value + Product(c, cfg.slots)
  {
    var s := StateAfter(cfg, events);
    SpentIsBounded(cfg, events, owner, c);
    PlansInFlightHoldSlots(cfg, events, owner);
    TimesMonotone(c, MostInFlight(cfg, events, owner), cfg.slots);
    BelowProduct(Spent(s.cells, owner, s.clock), cfg.budget.value, c, cfg.slots);
  }
}
