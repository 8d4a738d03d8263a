/**
 What becomes of the usages that agents return or put on their errors. The
 ledger books every one of them; a record has room for one per phase.
 */
module Accounts {
  import opened Prelude
  import opened Models
  import opened Transitions
  import opened Sums
  import opened Spend
  import opened Lifecycle
  import opened LifecycleInvariant
  import opened System
  import opened SystemInvariant
  import opened Guarantees
  import opened Runner

  /** Every booked usage is on the record, or held by the task that will save it. */
  predicate AllKept(turn: Turn) {
    && turn.ledger.planBooked == AsSeq(turn.stored.usage)
    && turn.ledger.implBooked == AsSeq(ImplementationDue(turn))
    && turn.ledger.correctionBooked == AsSeq(CorrectionDue(turn))
  }

  /** The event ends a task that holds a usage without saving it. */
  predicate Drops(cell: Cell, event: CellEvent) {
    match event
    case Crash => cell.tasks != [] && Held(cell.tasks[0], cell.stored).Some?
    case OnTask(i, e) => i < |cell.tasks| && TaskDrops(cell.tasks[i], cell.stored, e)
    case _ => false
  }

  predicate TaskDrops(task: Task, stored: Job, event: TaskEvent) {
    (event.Cancel? || event.RaiseOther?) && Held(task, stored).Some?
  }

  /** A correction's agent ends with a usage after another correction's agent did: there is room for one. */
  predicate Displaces(cell: Cell, event: CellEvent) {
    event.OnTask? && event.i < |cell.tasks| && TaskDisplaces(cell.tasks[event.i], cell.ledger, event.event)
  }

  predicate TaskDisplaces(task: Task, ledger: Ledger, event: TaskEvent) {
    && event.Finish? && task.kind == CorrectRun && UsageOf(event.outcome).Some?
    && ledger.correctionBooked != []
  }

  predicate Loses(cell: Cell, event: CellEvent) {
    Drops(cell, event) || Displaces(cell, event)
  }

  lemma {:induction false} FinishKeepsAccounts(turn: Turn, event: TaskEvent, clock: Time, now: Time)
    requires CanStep(turn, event, clock, now) && event.Finish?
    ensures AllKept(TaskStep(turn, event, now)) <==>
      AllKept(turn) && !TaskDisplaces(turn.task.value, turn.ledger, event)
  {}

  /** The usages the record carries or will carry are the same, and nothing was booked. */
  predicate SameAccounts(turn: Turn, after: Turn) {
    && after.ledger.planBooked == turn.ledger.planBooked && after.stored.usage == turn.stored.usage
    && after.ledger.implBooked == turn.ledger.implBooked && ImplementationDue(after) == ImplementationDue(turn)
    && after.ledger.correctionBooked == turn.ledger.correctionBooked && CorrectionDue(after) == CorrectionDue(turn)
  }

  lemma {:induction false} PlanSameAccounts(turn: Turn, event: TaskEvent, clock: Time, now: Time)
    requires CanStep(turn, event, clock, now) && event.Proceed? && Live(turn, PlanRun)
    ensures SameAccounts(turn, TaskStep(turn, event, now))
  {}

  lemma {:induction false} ImplementSameAccounts(turn: Turn, event: TaskEvent, clock: Time, now: Time)
    requires CanStep(turn, event, clock, now) && event.Proceed? && Live(turn, ImplementRun)
    ensures SameAccounts(turn, TaskStep(turn, event, now))
  {
    var pc, after := turn.task.value.pc, TaskStep(turn, event, now);
    if pc.Restoring? {
      assert after.ledger == turn.ledger;
    } else if pc.Refreshing? {
      assert after.task.None? && after.stored.implementationUsage == turn.task.value.local.implementationUsage;
    } else {
      assert after.stored.implementationUsage == turn.stored.implementationUsage;
    }
  }

  lemma {:induction false} CorrectSameAccounts(turn: Turn, event: TaskEvent, clock: Time, now: Time)
    requires CanStep(turn, event, clock, now) && event.Proceed? && Live(turn, CorrectRun)
    ensures SameAccounts(turn, TaskStep(turn, event, now))
  {
    var pc, after := turn.task.value.pc, TaskStep(turn, event, now);
    if pc.Restoring? {
      assert after.ledger == turn.ledger;
    } else if pc.Refreshing? {
      assert after.task.None? && after.stored.correctionUsage == turn.task.value.local.correctionUsage;
    } else {
      assert after.stored.correctionUsage == turn.stored.correctionUsage;
    }
  }

  lemma {:induction false} StopSameAccounts(turn: Turn, event: TaskEvent, clock: Time, now: Time)
    requires CanStep(turn, event, clock, now) && (event.Cancel? || event.RaiseOther?)
    requires Held(turn.task.value, turn.stored).None?
    ensures SameAccounts(turn, TaskStep(turn, event, now))
  {
    assert TaskStep(turn, event, now).ledger == turn.ledger;
  }

  lemma {:induction false} StopDropsHeld(turn: Turn, event: TaskEvent, clock: Time, now: Time)
    requires CanStep(turn, event, clock, now) && (event.Cancel? || event.RaiseOther?)
    requires Held(turn.task.value, turn.stored).Some?
    ensures !AllKept(TaskStep(turn, event, now))
  {
    var after := TaskStep(turn, event, now);
    assert after.ledger == turn.ledger;
    if Live(turn, ImplementRun) {
      assert ImplementationDue(after) == turn.stored.implementationUsage;
    } else {
      assert CorrectionDue(after) == turn.stored.correctionUsage;
    }
  }

  lemma {:induction false} OtherSameAccounts(turn: Turn, event: TaskEvent, clock: Time, now: Time)
    requires CanStep(turn, event, clock, now)
    requires !event.Finish? && !event.Proceed? && !event.Cancel? && !event.RaiseOther?
    ensures SameAccounts(turn, TaskStep(turn, event, now))
  {
    assert TaskStep(turn, event, now).ledger == turn.ledger;
  }

  lemma {:induction false} TaskLossIsExact(turn: Turn, event: TaskEvent, clock: Time, now: Time)
    requires CanStep(turn, event, clock, now)
    ensures AllKept(TaskStep(turn, event, now)) <==>
      && AllKept(turn)
      && !TaskDrops(turn.task.value, turn.stored, event) && !TaskDisplaces(turn.task.value, turn.ledger, event)
  {
    if event.Finish? {
      FinishKeepsAccounts(turn, event, clock, now);
    } else if event.Proceed? {
      match turn.task.value.kind
      case PlanRun => PlanSameAccounts(turn, event, clock, now);
      case ImplementRun => ImplementSameAccounts(turn, event, clock, now);
      case CorrectRun => CorrectSameAccounts(turn, event, clock, now);
    } else if !event.Cancel? && !event.RaiseOther? {
      OtherSameAccounts(turn, event, clock, now);
    } else if Held(turn.task.value, turn.stored).None? {
      StopSameAccounts(turn, event, clock, now);
    } else {
      StopDropsHeld(turn, event, clock, now);
    }
  }

  lemma {:induction false} OnTaskLossIsExact(cell: Cell, event: CellEvent, clock: Time, now: Time)
    requires Inv(cell, clock) && clock < now && Enabled(cell, event) && event.OnTask?
    ensures AllKept(View(Step(cell, event, now))) <==> AllKept(View(cell)) && !Loses(cell, event)
  {
    TaskLossIsExact(View(cell), event.event, clock, now);
    OnTaskView(cell, event, now);
  }

  /**
   A usage is lost in exactly the events that drop a held one or displace an
   earlier one, and what is lost is never found again.
   */
  lemma {:induction false} LossIsExact(cell: Cell, event: CellEvent, clock: Time, now: Time)
    requires Inv(cell, clock) && clock < now && Enabled(cell, event)
    requires event.Recover? ==> cell.tasks == []
    ensures AllKept(View(Step(cell, event, now))) <==> AllKept(View(cell)) && !Loses(cell, event)
  {
    match event
    case OnTask(_, _) => OnTaskLossIsExact(cell, event, clock, now);
    case Crash => assert View(Step(cell, Crash, now)) == View(cell).(task := None);
    case Implement(_) => assert cell.tasks == [];
    case Correct(_) => assert cell.tasks == [];
    case _ =>
  }

  // Whole runs

  /** No event drops or displaces a usage of this job. */
  ghost function KeepsUsagesOf(cfg: Config, id: Id): (Sys, Event) -> bool {
    (s: Sys, event: Event) =>
      id in s.cells ==>
        var touch := Touches(cfg, s, event, id);
        touch.Some? ==> !Loses(s.cells[id], touch.value)
  }

  lemma {:induction false} NothingToLoseYet(cfg: Config, events: seq<Timed>, id: Id)
    requires IsRun(cfg, events) && id !in StateAfter(cfg, events).cells
    ensures Throughout(cfg, events, KeepsUsagesOf(cfg, id))
    decreases |events|
  {
    if events != [] {
      var before, last := events[..|events| - 1], events[|events| - 1];
      CellsOnlyGrow(cfg, StateAfter(cfg, before), last.event, last.now);
      NothingToLoseYet(cfg, before, id);
    }
  }

  lemma {:induction false} CellsOnlyGrow(cfg: Config, s: Sys, event: Event, now: Time)
    requires Possible(cfg, s, event, now)
    ensures s.cells.Keys <= Next(cfg, s, event, now).cells.Keys
  {}

  lemma {:induction false} NextLossIsExact(cfg: Config, s: Sys, event: Event, now: Time, id: Id)
    requires CellsOk(s) && Possible(cfg, s, event, now) && id in s.cells
    ensures id in Next(cfg, s, event, now).cells
    ensures AllKept(View(Next(cfg, s, event, now).cells[id])) <==>
      AllKept(View(s.cells[id])) && KeepsUsagesOf(cfg, id)(s, event)
  {
    CellsOnlyGrow(cfg, s, event, now);
    NextCell(cfg, s, event, now, id);
    var touch := Touches(cfg, s, event, id);
    if touch.Some? {
      LossIsExact(s.cells[id], touch.value, s.clock, now);
    }
  }

  /**
   Over a job's whole history every usage its agents returned or put on their
   errors is on its record, or held by the task that will save it, exactly when
   no event dropped or displaced one.
   */
  lemma {:induction false} UsagesAreKeptExactly(cfg: Config, events: seq<Timed>, id: Id)
    requires IsRun(cfg, events) && id in StateAfter(cfg, events).cells
    ensures AllKept(View(StateAfter(cfg, events).cells[id])) <==> Throughout(cfg, events, KeepsUsagesOf(cfg, id))
    decreases |events|
  {
    var before, last := events[..|events| - 1], events[|events| - 1];
    var s := StateAfter(cfg, before);
    RunsKeepInv(cfg, before);
    if id in s.cells {
      UsagesAreKeptExactly(cfg, before, id);
      NextLossIsExact(cfg, s, last.event, last.now, id);
    } else {
      NewJobIsKept(cfg, events, id);
    }
  }

  lemma {:induction false} NewJobIsKept(cfg: Config, events: seq<Timed>, id: Id)
    requires IsRun(cfg, events) && id in StateAfter(cfg, events).cells
    requires id !in StateAfter(cfg, events[..|events| - 1]).cells
    ensures AllKept(View(StateAfter(cfg, events).cells[id])) && Throughout(cfg, events, KeepsUsagesOf(cfg, id))
  {
    var before, last := events[..|events| - 1], events[|events| - 1];
    NothingToLoseYet(cfg, before, id);
    NextCell(cfg, StateAfter(cfg, before), last.event, last.now, id);
  }

  /**
   Cost conservation. A job without a live task carries exactly the usages its
   agents returned or put on their errors, each phase's one and only one, if
   and only if no event dropped or displaced one. Planning needs no condition:
   its outcome and its save are one step.
   */
  lemma {:induction false} CostsAreConserved(cfg: Config, events: seq<Timed>, id: Id)
    requires IsRun(cfg, events) && id in StateAfter(cfg, events).cells
    ensures
      var cell := StateAfter(cfg, events).cells[id];
      && cell.ledger.planBooked == AsSeq(cell.stored.usage)
      && (cell.tasks == [] ==>
          (Throughout(cfg, events, KeepsUsagesOf(cfg, id)) <==>
           && cell.ledger.implBooked == AsSeq(cell.stored.implementationUsage)
           && cell.ledger.correctionBooked == AsSeq(cell.stored.correctionUsage)))
  {
    RunsKeepInv(cfg, events);
    assert Inv(StateAfter(cfg, events).cells[id], StateAfter(cfg, events).clock);
    UsagesAreKeptExactly(cfg, events, id);
  }

  // One run of a runner

  /** No step of the path drops or displaces a usage. */
  ghost predicate PathKeepsUsages(start: Turn, path: seq<TimedStep>)
    requires IsPath(start, path)
    decreases |path|
  {
    path == [] || (
      var before, event := path[..|path| - 1], path[|path| - 1].event;
      var turn := PathEnd(start, before);
      && PathKeepsUsages(start, before)
      && !TaskDrops(turn.task.value, turn.stored, event) && !TaskDisplaces(turn.task.value, turn.ledger, event))
  }

  lemma {:induction false} PathLossIsExact(start: Turn, path: seq<TimedStep>, clock: Time)
    requires IsPath(start, path) && TurnInv(start, clock) && Advances(path, clock)
    ensures AllKept(PathEnd(start, path)) <==> AllKept(start) && PathKeepsUsages(start, path)
    decreases |path|
  {
    if path != [] {
      var before, last := path[..|path| - 1], path[|path| - 1];
      PathKeepsInv(start, before, clock);
      PathLossIsExact(start, before, clock);
      TaskLossIsExact(PathEnd(start, before), last.event, LastTime(before, clock), last.now);
    }
  }

  /**
   A run of a runner from a state the protocol can be in, with every usage so
   far on its record, leaves the record with exactly the usages its agents
   returned or carried if and only if no step dropped or displaced one.
   */
  lemma {:induction false} RunEndsAccounted(
    kind: Kind, before: Job, ledger: Ledger, path: seq<TimedStep>, after: Job, clock: Time)
    requires TurnInv(Turn(before, Some(Task(kind, Entering, before)), ledger), clock) && Advances(path, clock)
    requires AllKept(Turn(before, Some(Task(kind, Entering, before)), ledger))
    requires IsRunOf(kind, before, ledger, path, after)
    ensures
      var start := Turn(before, Some(Task(kind, Entering, before)), ledger);
      var end := PathEnd(start, path).ledger;
      && end.planCalls <= 1 && end.implCalls <= 1 && end.correctionCalls <= end.refunds + 1
      && end.planBooked == AsSeq(after.usage)
      && (PathKeepsUsages(start, path) <==>
           && end.implBooked == AsSeq(after.implementationUsage)
           && end.correctionBooked == AsSeq(after.correctionUsage))
  {
    var start := Turn(before, Some(Task(kind, Entering, before)), ledger);
    PathKeepsInv(start, path, clock);
    PathLossIsExact(start, path, clock);
  }

  // Where nothing is displaced

  /** No crash, cancellation or failing cleanup hits a task between its agent's outcome and the save. */
  ghost function NothingDropped(cfg: Config): (Sys, Event) -> bool {
    (s: Sys, event: Event) =>
      forall id :: id in s.cells ==>
        var touch := Touches(cfg, s, event, id);
        touch.Some? ==> !Drops(s.cells[id], touch.value)
  }

  /** While the correction agent has run at most once, none of its usages is displaced. */
  lemma {:induction false} OneCorrectionDisplacesNothing(cell: Cell, event: CellEvent, clock: Time)
    requires Inv(cell, clock) && Enabled(cell, event) && cell.ledger.correctionCalls <= 1
    ensures !Displaces(cell, event)
  {}

  lemma {:induction false} NothingIsDisplaced(cfg: Config, events: seq<Timed>, id: Id)
    requires IsRun(cfg, events)
    requires Throughout(cfg, events, NothingDropped(cfg)) && Throughout(cfg, events, OnlyChecksSayBudget())
    ensures Throughout(cfg, events, KeepsUsagesOf(cfg, id))
    decreases |events|
  {
    if events != [] {
      var before, last := events[..|events| - 1], events[|events| - 1];
      var s := StateAfter(cfg, before);
      NothingIsDisplaced(cfg, before, id);
      RunsKeepInv(cfg, before);
      if id in s.cells {
        CorrectionRunsAtMostOnce(cfg, before, id);
        CellsOnlyGrow(cfg, s, last.event, last.now);
        NextCell(cfg, s, last.event, last.now, id);
        var touch := Touches(cfg, s, last.event, id);
        if touch.Some? {
          OneCorrectionDisplacesNothing(s.cells[id], touch.value, s.clock);
        }
      }
    }
  }

  function Booked(ledger: Ledger, agent: AgentKind): seq<AgentUsage> {
    match agent
    case PlanAgent => ledger.planBooked
    case ImplementationAgent => ledger.implBooked
    case CorrectionAgent => ledger.correctionBooked
  }

  function TotalCost(usages: seq<AgentUsage>): real {
    if usages == [] then 0.0 else Cost(Some(usages[0])) + TotalCost(usages[1..])
  }

  /** All that the agents of one kind ever cost one owner. */
  ghost function BookedCost(owner: Option<Owner>, agent: AgentKind): Cell -> real {
    (cell: Cell) => if cell.stored.owner == owner then TotalCost(Booked(cell.ledger, agent)) else 0.0
  }

  lemma {:induction false} TotalOfRecorded(usage: Option<AgentUsage>)
    ensures TotalCost(AsSeq(usage)) == Cost(usage)
  {
    if usage.Some? {
      assert [usage.value][1..] == [];
    }
  }

  /** No event of the run drops or displaces a usage of any of the owner's jobs. */
  ghost predicate KeepsUsagesOfOwner(cfg: Config, events: seq<Timed>, owner: Option<Owner>)
    requires IsRun(cfg, events)
  {
    var cells := StateAfter(cfg, events).cells;
    forall id :: id in cells && cells[id].stored.owner == owner ==> Throughout(cfg, events, KeepsUsagesOf(cfg, id))
  }

  /** The records of an owner's jobs carry all that their agents were ever booked for. */
  ghost predicate CarriesAll(cells: map<Id, Cell>, owner: Option<Owner>) {
    forall id, agent :: id in cells && cells[id].stored.owner == owner ==>
      Booked(cells[id].ledger, agent) == AsSeq(Recorded(cells[id].stored, agent))
  }

  /** Once no task lives, an owner's records carry everything exactly if no event lost a usage of that owner's jobs. */
  lemma {:induction false} OwnersCostsAreConserved(cfg: Config, events: seq<Timed>, owner: Option<Owner>)
    requires IsRun(cfg, events)
    requires forall id :: id in StateAfter(cfg, events).cells ==> StateAfter(cfg, events).cells[id].tasks == []
    ensures KeepsUsagesOfOwner(cfg, events, owner) <==> CarriesAll(StateAfter(cfg, events).cells, owner)
  {
    var cells := StateAfter(cfg, events).cells;
    forall id | id in cells
      ensures Throughout(cfg, events, KeepsUsagesOf(cfg, id)) <==>
        forall agent :: Booked(cells[id].ledger, agent) == AsSeq(Recorded(cells[id].stored, agent))
    {
      JobsCostsAreConserved(cfg, events, id);
    }
  }

  lemma {:induction false} JobsCostsAreConserved(cfg: Config, events: seq<Timed>, id: Id)
    requires IsRun(cfg, events) && id in StateAfter(cfg, events).cells && StateAfter(cfg, events).cells[id].tasks == []
    ensures
      var cell := StateAfter(cfg, events).cells[id];
      Throughout(cfg, events, KeepsUsagesOf(cfg, id)) <==>
        forall agent :: Booked(cell.ledger, agent) == AsSeq(Recorded(cell.stored, agent))
  {
    CostsAreConserved(cfg, events, id);
    var cell := StateAfter(cfg, events).cells[id];
    assert Booked(cell.ledger, PlanAgent) == cell.ledger.planBooked;
    assert Booked(cell.ledger, ImplementationAgent) == cell.ledger.implBooked;
    assert Booked(cell.ledger, CorrectionAgent) == cell.ledger.correctionBooked;
  }

  /**
   And then each of the owner's grouped sums is all that the agents ever cost
   that owner.
   */
  lemma {:induction false} GroupedSumsAddUp(cfg: Config, events: seq<Timed>, owner: Option<Owner>, agent: AgentKind)
    requires IsRun(cfg, events) && KeepsUsagesOfOwner(cfg, events, owner)
    requires forall id :: id in StateAfter(cfg, events).cells ==> StateAfter(cfg, events).cells[id].tasks == []
    ensures var cells := StateAfter(cfg, events).cells;
            SumBy(StoredRows(cells), RecordedCost(owner, agent)) == SumBy(cells, BookedCost(owner, agent))
  {
    OwnersCostsAreConserved(cfg, events, owner);
    SumsOfCarried(StateAfter(cfg, events).cells, owner, agent);
  }

  lemma {:induction false} SumsOfCarried(cells: map<Id, Cell>, owner: Option<Owner>, agent: AgentKind)
    requires CarriesAll(cells, owner)
    ensures SumBy(StoredRows(cells), RecordedCost(owner, agent)) == SumBy(cells, BookedCost(owner, agent))
  {
    forall id | id in cells
      ensures RecordedCost(owner, agent)(StoredRows(cells)[id]) == BookedCost(owner, agent)(cells[id])
    {
      TotalOfRecorded(Recorded(cells[id].stored, agent));
    }
    SumCongruent(StoredRows(cells), RecordedCost(owner, agent), cells, BookedCost(owner, agent));
  }

  /**
   Displacing does happen. Two correction agents whose errors carry the
   spend check's code and a usage each leave only the second one on the record,
   with no crash, no cancellation and no failing cleanup.
   */
  lemma {:induction false} SecondCorrectionDisplaces(
    cell: Cell, first: AgentUsage, second: AgentUsage, clock: Time, now: Time)
    returns (between: Cell, after: Cell)
    requires Inv(cell, clock) && CanCorrect(cell.stored) && clock < now
    ensures CellSteps(cell, RefundedCorrection(Some(first)), now) == Some(between)
    ensures CellSteps(between, RefundedCorrection(Some(second)), now + 7) == Some(after)
    ensures after.stored.correctionUsage == Some(second)
    ensures after.ledger.correctionBooked == cell.ledger.correctionBooked + [first, second]
    ensures after.tasks == [] && !AllKept(View(after))
  {
    between := GivenBack(cell, Some(first), now);
    after := GivenBack(between, Some(second), now + 7);
    BudgetCodeGivesAttemptBack(cell, Some(first), clock, now);
    GivenBackKeepsInv(cell, Some(first), clock, now);
    BudgetCodeGivesAttemptBack(between, Some(second), now + 6, now + 7);
    assert AsSeq(Some(first)) + AsSeq(Some(second)) == [first, second];
  }
}
