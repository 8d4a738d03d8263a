/**
 One run, written out: a job is planned and implemented, the process dies
 between the agent's outcome and its save, and recovery skips the job.
 */
module Witnesses {
  import opened Prelude
  import opened Models
  import opened Transitions
  import opened Sums
  import opened Spend
  import opened Lifecycle
  import opened System
  import opened Guarantees

  const GRANTED: CellEvent := OnTask(0, Grant(false, true))

  // Extending a run by one job's steps

  /** The service up, with this job and the others. */
  function Among(others: map<Id, Cell>, id: Id, cell: Cell, clock: Time): Sys {
    Sys(others[id := cell], Up, clock, Idle, {}, {})
  }

  const NOBODY: map<Id, Cell> := map[]

  /** The run has led to this job and the others, and nothing else. */
  ghost predicate LeadsTo(cfg: Config, others: map<Id, Cell>, events: seq<Timed>, id: Id, cell: Cell, clock: Time) {
    IsRun(cfg, events) && StateAfter(cfg, events) == Among(others, id, cell, clock)
  }

  lemma {:induction false} OneMore(cfg: Config, events: seq<Timed>, event: Event, now: Time)
    requires IsRun(cfg, events) && Possible(cfg, StateAfter(cfg, events), event, now)
    ensures IsRun(cfg, events + [Timed(event, now)])
    ensures StateAfter(cfg, events + [Timed(event, now)]) == Next(cfg, StateAfter(cfg, events), event, now)
  {
    var longer := events + [Timed(event, now)];
    assert longer[..|longer| - 1] == events;
  }

  lemma {:induction false} Extends(
    cfg: Config, others: map<Id, Cell>, events: seq<Timed>, id: Id, cell: Cell, clock: Time, event: CellEvent, now: Time)
    requires LeadsTo(cfg, others, events, id, cell, clock) && clock < now
    requires CellEventAllowed(cfg, Among(others, id, cell, clock), id, event, now) && !CancelledUnstarted(cell, event)
    ensures LeadsTo(cfg, others, events + [Timed(OnCell(id, event), now)], id, Step(cell, event, now), now)
  {
    OneMore(cfg, events, OnCell(id, event), now);
    assert others[id := cell][id := Step(cell, event, now)] == others[id := Step(cell, event, now)];
  }

  /** A task's own step that needs no slot and is no cancellation. */
  predicate Quiet(event: CellEvent) {
    event.OnTask? && !event.event.Grant? && !event.event.Cancel?
  }

  function TimedFrom(id: Id, steps: seq<CellEvent>, now: Time): seq<Timed> {
    if steps == [] then [] else [Timed(OnCell(id, steps[0]), now)] + TimedFrom(id, steps[1..], now + 1)
  }

  lemma {:induction false} TimedFromOne(id: Id, events: seq<Timed>, steps: seq<CellEvent>, now: Time)
    requires steps != []
    ensures events + TimedFrom(id, steps, now) ==
      events + [Timed(OnCell(id, steps[0]), now)] + TimedFrom(id, steps[1..], now + 1)
  {}

  lemma {:induction false} ExtendsBy(
    cfg: Config, others: map<Id, Cell>, events: seq<Timed>, id: Id, cell: Cell, clock: Time,
    steps: seq<CellEvent>, now: Time, after: Cell)
    requires LeadsTo(cfg, others, events, id, cell, clock) && clock == now - 1
    requires CellSteps(cell, steps, now) == Some(after) && forall k :: 0 <= k < |steps| ==> Quiet(steps[k])
    ensures LeadsTo(cfg, others, events + TimedFrom(id, steps, now), id, after, now - 1 + |steps|)
    decreases |steps|
  {
    if steps == [] {
      assert events + TimedFrom(id, steps, now) == events;
    } else {
      var step := Timed(OnCell(id, steps[0]), now);
      Extends(cfg, others, events, id, cell, clock, steps[0], now);
      ExtendsBy(cfg, others, events + [step], id, Step(cell, steps[0], now), now, steps[1..], now + 1, after);
      TimedFromOne(id, events, steps, now);
    }
  }

  lemma {:induction false} OneJobSpends(id: Id, cell: Cell, owner: Owner, now: Time)
    ensures Spent(map[id := cell], owner, now) == SpentBy(owner, now - SPEND_WINDOW)(cell)
  {
    var none: map<Id, Cell> := map[];
    SumUpdate(none, id, cell, SpentBy(owner, now - SPEND_WINDOW));
    assert none[id := cell] == map[id := cell];
  }

  predicate NobodyHolds(cells: map<Id, Cell>) {
    forall id :: id in cells ==> !HoldsSlot(cells[id])
  }

  /** A waiting task gets its slot while nobody holds one, and is not refused while its owner is below the limit. */
  lemma {:induction false} ExtendsByGrant(
    cfg: Config, others: map<Id, Cell>, events: seq<Timed>, id: Id, cell: Cell, clock: Time, now: Time)
    requires LeadsTo(cfg, others, events, id, cell, clock) && clock < now && cfg.slots > 0
    requires |cell.tasks| == 1 && cell.tasks[0].pc.Waiting? && cell.tasks[0].local == cell.stored
    requires NobodyHolds(others[id := cell]) && !OverBudget(cfg, others[id := cell], cell.stored.owner, now)
    ensures LeadsTo(cfg, others, events + [Timed(OnCell(id, GRANTED), now)], id, Step(cell, GRANTED, now), now)
  {
    assert Holders(others[id := cell]) == {};
    Extends(cfg, others, events, id, cell, clock, GRANTED, now);
  }

  /** In particular a job alone that has cost nothing. */
  lemma {:induction false} ExtendsByFreeGrant(
    cfg: Config, events: seq<Timed>, id: Id, cell: Cell, clock: Time, now: Time)
    requires LeadsTo(cfg, NOBODY, events, id, cell, clock) && clock < now && cfg.slots > 0
    requires |cell.tasks| == 1 && cell.tasks[0].pc.Waiting? && cell.tasks[0].local == cell.stored
    requires cfg.budget.Some? ==> WindowCost(cell.stored, now - SPEND_WINDOW) < cfg.budget.value
    ensures LeadsTo(cfg, NOBODY, events + [Timed(OnCell(id, GRANTED), now)], id, Step(cell, GRANTED, now), now)
  {
    assert NOBODY[id := cell] == map[id := cell];
    if cell.stored.owner.Some? {
      OneJobSpends(id, cell, cell.stored.owner.value, now);
    }
    ExtendsByGrant(cfg, NOBODY, events, id, cell, clock, now);
  }

  // Planning, with the slot granted at `at`

  const WORKSPACE := "workspace"

  const CLONING_STEPS: seq<CellEvent> := [OnTask(0, Proceed(Nothing)), OnTask(0, Proceed(ClonedTo(Remote, WORKSPACE)))]

  function PlanSteps(plan: string, usage: AgentUsage): seq<CellEvent> {
    [OnTask(0, Proceed(Nothing)), OnTask(0, Proceed(Nothing)), OnTask(0, Finish(PlanReturned(plan, usage)))]
  }

  function CreateAndWait(id: Id, owner: Option<Owner>): seq<Timed> {
    [Timed(Create(id, owner), 1), Timed(OnCell(id, OnTask(0, Begin)), 2)]
  }

  function WaitingCell(id: Id, owner: Option<Owner>, created: Time): Cell {
    var job := NewJob(id, owner, created);
    Cell(job, [Task(PlanRun, Waiting, job)], FRESH_LEDGER, false)
  }

  lemma {:induction false} JobWaits(cfg: Config, id: Id, owner: Option<Owner>)
    ensures LeadsTo(cfg, NOBODY, CreateAndWait(id, owner), id, WaitingCell(id, owner, 1), 2)
  {
    var create, cell := Timed(Create(id, owner), 1), NewCell(id, owner, 1);
    assert IsRun(cfg, []) && StateAfter(cfg, []) == START;
    assert [create][..0] == [];
    assert START.cells[id := cell] == NOBODY[id := cell];
    assert LeadsTo(cfg, NOBODY, [create], id, cell, 1);
    Extends(cfg, NOBODY, [create], id, cell, 1, OnTask(0, Begin), 2);
    assert Step(cell, OnTask(0, Begin), 2) == WaitingCell(id, owner, 1);
  }

  function PlannedRecord(id: Id, owner: Option<Owner>, created: Time, plan: string, usage: AgentUsage, at: Time): Job {
    NewJob(id, owner, created).(state := PlanReady, repoInfo := Some(Remote), workspacePath := Some(WORKSPACE),
                          plan := Some(plan), usage := Some(usage), updatedAt := at + 5)
  }

  function PlannedCell(id: Id, owner: Option<Owner>, created: Time, plan: string, usage: AgentUsage, at: Time): Cell {
    Cell(PlannedRecord(id, owner, created, plan, usage, at), [], FRESH_LEDGER.(planCalls := 1, planBooked := [usage]), false)
  }

  /** The job while its repository is being mapped, and while its plan agent runs. */
  function MappingCell(id: Id, owner: Option<Owner>, created: Time, at: Time): Cell {
    var job := NewJob(id, owner, created).(state := MappingRepo, repoInfo := Some(Remote), workspacePath := Some(WORKSPACE),
                                     updatedAt := at + 2);
    Cell(job, [Task(PlanRun, Mapping, job)], FRESH_LEDGER, false)
  }

  lemma {:induction false} Clones(id: Id, owner: Option<Owner>, created: Time, at: Time)
    ensures
      var fetching := Step(WaitingCell(id, owner, created), GRANTED, at);
      CellSteps(fetching, CLONING_STEPS, at + 1) == Some(MappingCell(id, owner, created, at))
  {
    var fetching := Step(WaitingCell(id, owner, created), GRANTED, at);
    var saved0 := NewJob(id, owner, created).(state := FetchingTicket, updatedAt := at);
    var saved1 := saved0.(state := CloningRepo, updatedAt := at + 1);
    var c1 := Cell(saved1, [Task(PlanRun, Cloning, saved1)], FRESH_LEDGER, false);
    var c2 := MappingCell(id, owner, created, at);
    assert fetching == Cell(saved0, [Task(PlanRun, Fetching, saved0)], FRESH_LEDGER, false);
    TwoSteps(fetching, c1, c2, CLONING_STEPS, at + 1);
  }

  function AgentCell(id: Id, owner: Option<Owner>, created: Time, at: Time): Cell {
    var job := MappingCell(id, owner, created, at).stored.(state := Planning, updatedAt := at + 4);
    Cell(job, [Task(PlanRun, Agent, job)], FRESH_LEDGER.(planCalls := 1), false)
  }

  lemma {:induction false} AgentPlans(
    id: Id, owner: Option<Owner>, created: Time, plan: string, usage: AgentUsage, at: Time)
    ensures
      var asked, returned := AgentCell(id, owner, created, at), OnTask(0, Finish(PlanReturned(plan, usage)));
      Enabled(asked, returned) && Step(asked, returned, at + 5) == PlannedCell(id, owner, created, plan, usage, at)
  {}

  lemma {:induction false} Plans(id: Id, owner: Option<Owner>, created: Time, plan: string, usage: AgentUsage, at: Time)
    ensures CellSteps(MappingCell(id, owner, created, at), PlanSteps(plan, usage), at + 3) ==
      Some(PlannedCell(id, owner, created, plan, usage, at))
  {
    var mapping := MappingCell(id, owner, created, at);
    var saved := mapping.stored.(state := Planning, updatedAt := at + 3);
    AgentPlans(id, owner, created, plan, usage, at);
    ThreeSteps(mapping, Cell(saved, [Task(PlanRun, PlanSaved, saved)], FRESH_LEDGER, false),
               AgentCell(id, owner, created, at), PlannedCell(id, owner, created, plan, usage, at), PlanSteps(plan, usage), at + 3);
  }

  lemma {:induction false} ClonesAndPlans(
    id: Id, owner: Option<Owner>, created: Time, plan: string, usage: AgentUsage, at: Time)
    ensures
      var fetching := Step(WaitingCell(id, owner, created), GRANTED, at);
      CellSteps(fetching, CLONING_STEPS + PlanSteps(plan, usage), at + 1) ==
        Some(PlannedCell(id, owner, created, plan, usage, at))
  {
    Clones(id, owner, created, at);
    Plans(id, owner, created, plan, usage, at);
    CellStepsAppend(Step(WaitingCell(id, owner, created), GRANTED, at), CLONING_STEPS,
                    MappingCell(id, owner, created, at), PlanSteps(plan, usage),
                    PlannedCell(id, owner, created, plan, usage, at), at + 1);
  }

  /** A plan that is let in at `at` ends at `at + 5`. */
  function PlannedFrom(events: seq<Timed>, id: Id, plan: string, usage: AgentUsage, at: Time): seq<Timed> {
    events + [Timed(OnCell(id, GRANTED), at)] + TimedFrom(id, CLONING_STEPS + PlanSteps(plan, usage), at + 1)
  }

  lemma {:induction false} WaitingIsPlanned(
    cfg: Config, others: map<Id, Cell>, events: seq<Timed>, id: Id, owner: Option<Owner>, created: Time, clock: Time,
    plan: string, usage: AgentUsage, at: Time)
    requires LeadsTo(cfg, others, events, id, WaitingCell(id, owner, created), clock) && clock < at && cfg.slots > 0
    requires NobodyHolds(others[id := WaitingCell(id, owner, created)])
    requires !OverBudget(cfg, others[id := WaitingCell(id, owner, created)], owner, at)
    ensures LeadsTo(cfg, others, PlannedFrom(events, id, plan, usage, at), id,
                    PlannedCell(id, owner, created, plan, usage, at), at + 5)
  {
    var waiting := WaitingCell(id, owner, created);
    ExtendsByGrant(cfg, others, events, id, waiting, clock, at);
    ClonesAndPlans(id, owner, created, plan, usage, at);
    ExtendsBy(cfg, others, events + [Timed(OnCell(id, GRANTED), at)], id, Step(waiting, GRANTED, at), at,
              CLONING_STEPS + PlanSteps(plan, usage), at + 1, PlannedCell(id, owner, created, plan, usage, at));
  }

  /** A job is created at 1, waits for its slot until `at`, and is planned at `at + 5`. */
  function PlanningRun(id: Id, owner: Option<Owner>, plan: string, usage: AgentUsage, at: Time): seq<Timed> {
    PlannedFrom(CreateAndWait(id, owner), id, plan, usage, at)
  }

  lemma {:induction false} JobIsPlanned(
    cfg: Config, id: Id, owner: Option<Owner>, plan: string, usage: AgentUsage, at: Time)
    requires cfg.slots > 0 && at > 2 && (cfg.budget.Some? ==> cfg.budget.value > 0.0)
    ensures LeadsTo(cfg, NOBODY, PlanningRun(id, owner, plan, usage, at), id,
                    PlannedCell(id, owner, 1, plan, usage, at), at + 5)
  {
    var waiting := WaitingCell(id, owner, 1);
    JobWaits(cfg, id, owner);
    assert NOBODY[id := waiting] == map[id := waiting];
    if owner.Some? {
      OneJobSpends(id, waiting, owner.value, at);
    }
    WaitingIsPlanned(cfg, NOBODY, CreateAndWait(id, owner), id, owner, 1, 2, plan, usage, at);
  }

  // Implementing it, up to the agent's return

  /** The approved job once its task waits for a slot, approved at `now`. */
  function QueuedCell(planned: Cell, now: Time): Cell {
    var job := Stamped(Approved(planned.stored, now), now);
    planned.(stored := job, tasks := [Task(ImplementRun, Waiting, job)])
  }

  lemma {:induction false} JobIsQueued(cfg: Config, events: seq<Timed>, id: Id, planned: Cell, now: Time)
    requires LeadsTo(cfg, NOBODY, events, id, planned, now - 1) && cfg.budget.None?
    requires CanImplement(planned.stored) && planned.tasks == []
    ensures LeadsTo(cfg, NOBODY, events + [Timed(OnCell(id, Implement(true)), now)]
                                 + [Timed(OnCell(id, OnTask(0, Begin)), now + 1)], id, QueuedCell(planned, now), now + 1)
  {
    var approved := Step(planned, Implement(true), now);
    Extends(cfg, NOBODY, events, id, planned, now - 1, Implement(true), now);
    Extends(cfg, NOBODY, events + [Timed(OnCell(id, Implement(true)), now)], id, approved, now, OnTask(0, Begin), now + 1);
    assert Step(approved, OnTask(0, Begin), now + 1) == QueuedCell(planned, now);
  }

  const PREPARING_STEPS: seq<CellEvent> := [OnTask(0, Proceed(Head(None))), OnTask(0, Proceed(Nothing))]

  function AgentSteps(result: ImplementationResult, usage: AgentUsage): seq<CellEvent> {
    [OnTask(0, Proceed(Nothing)), OnTask(0, Finish(ImplReturned(result, usage)))]
  }

  /** The job as its agent is about to start; its slot was granted at `now`. */
  function PreparingCell(queued: Cell, now: Time): Cell {
    var job := queued.stored.(baseline := Some("HEAD"), startedAt := Some(now + 1), state := Implementing,
                              updatedAt := now + 2);
    queued.(stored := job, tasks := [Task(ImplementRun, Preparing, job)])
  }

  /** The job as its agent has just returned. */
  function ReturnedCell(queued: Cell, result: ImplementationResult, usage: AgentUsage, now: Time): Cell {
    var job := PreparingCell(queued, now).stored.(updatedAt := now + 3);
    Cell(job, [Task(ImplementRun, Restoring(ImplReturned(result, usage)), job)],
         queued.ledger.(implCalls := queued.ledger.implCalls + 1, implBooked := queued.ledger.implBooked + [usage]),
         queued.stranded)
  }

  predicate QueuedFor(cell: Cell) {
    && cell.tasks == [Task(ImplementRun, Waiting, cell.stored)]
    && cell.stored.state == ImplementationQueued && cell.stored.plan.Some? && cell.stored.repoInfo.Some?
    && HasText(cell.stored.workspacePath)
  }

  lemma {:induction false} Prepares(queued: Cell, now: Time)
    requires QueuedFor(queued)
    ensures CellSteps(Step(queued, GRANTED, now), PREPARING_STEPS, now + 1) == Some(PreparingCell(queued, now))
  {
    var reading := queued.(tasks := [Task(ImplementRun, ReadingHead, queued.stored)]);
    var saved := queued.stored.(baseline := Some("HEAD"), updatedAt := now + 1);
    var c1 := queued.(stored := saved, tasks := [Task(ImplementRun, HeadSaved, saved.(startedAt := Some(now + 1)))]);
    var c2 := PreparingCell(queued, now);
    assert Step(queued, GRANTED, now) == reading;
    TwoSteps(reading, c1, c2, PREPARING_STEPS, now + 1);
  }

  lemma {:induction false} Returns(queued: Cell, result: ImplementationResult, usage: AgentUsage, now: Time)
    requires QueuedFor(queued)
    ensures CellSteps(PreparingCell(queued, now), AgentSteps(result, usage), now + 3) ==
      Some(ReturnedCell(queued, result, usage, now))
  {
    var steps, c0, c2 := AgentSteps(result, usage), PreparingCell(queued, now), ReturnedCell(queued, result, usage, now);
    var saved := c0.stored.(updatedAt := now + 3);
    var c1 := Cell(saved, [Task(ImplementRun, Agent, saved)],
                   queued.ledger.(implCalls := queued.ledger.implCalls + 1), queued.stranded);
    TwoSteps(c0, c1, c2, steps, now + 3);
  }

  lemma {:induction false} PreparesAndReturns(queued: Cell, result: ImplementationResult, usage: AgentUsage, now: Time)
    requires QueuedFor(queued)
    ensures CellSteps(Step(queued, GRANTED, now), PREPARING_STEPS + AgentSteps(result, usage), now + 1) ==
      Some(ReturnedCell(queued, result, usage, now))
  {
    Prepares(queued, now);
    Returns(queued, result, usage, now);
    CellStepsAppend(Step(queued, GRANTED, now), PREPARING_STEPS, PreparingCell(queued, now),
                    AgentSteps(result, usage), ReturnedCell(queued, result, usage, now), now + 1);
  }

  /** After `events` the planned job is approved at `now`, and its agent returns at `now + 6`. */
  function ImplementingRun(
    events: seq<Timed>, id: Id, result: ImplementationResult, usage: AgentUsage, now: Time): seq<Timed>
  {
    events + [Timed(OnCell(id, Implement(true)), now)] + [Timed(OnCell(id, OnTask(0, Begin)), now + 1)]
    + [Timed(OnCell(id, GRANTED), now + 2)] + TimedFrom(id, PREPARING_STEPS + AgentSteps(result, usage), now + 3)
  }

  lemma {:induction false} AgentReturned(
    cfg: Config, events: seq<Timed>, id: Id, planned: Cell, result: ImplementationResult, usage: AgentUsage, now: Time)
    requires LeadsTo(cfg, NOBODY, events, id, planned, now - 1) && cfg.budget.None? && cfg.slots > 0
    requires CanImplement(planned.stored) && planned.tasks == []
    ensures LeadsTo(cfg, NOBODY, ImplementingRun(events, id, result, usage, now), id,
                    ReturnedCell(QueuedCell(planned, now), result, usage, now + 2), now + 6)
  {
    var queued := QueuedCell(planned, now);
    var approved := events + [Timed(OnCell(id, Implement(true)), now)] + [Timed(OnCell(id, OnTask(0, Begin)), now + 1)];
    JobIsQueued(cfg, events, id, planned, now);
    ExtendsByFreeGrant(cfg, approved, id, queued, now + 1, now + 2);
    PreparesAndReturns(queued, result, usage, now + 2);
    ExtendsBy(cfg, NOBODY, approved + [Timed(OnCell(id, GRANTED), now + 2)], id, Step(queued, GRANTED, now + 2), now + 2,
              PREPARING_STEPS + AgentSteps(result, usage), now + 3, ReturnedCell(queued, result, usage, now + 2));
  }

  // The process dies before the outcome is saved

  /** The whole run, from the empty service to the agent's return. */
  function ReturnedRun(id: Id, plan: string, result: ImplementationResult, usage: AgentUsage): seq<Timed> {
    ImplementingRun(PlanningRun(id, None, plan, usage, 3), id, result, usage, 9)
  }

  function ReturnedAt(id: Id, plan: string, result: ImplementationResult, usage: AgentUsage): Cell {
    ReturnedCell(QueuedCell(PlannedCell(id, None, 1, plan, usage, 3), 9), result, usage, 11)
  }

  lemma {:induction false} RunReturns(cfg: Config, id: Id, plan: string, result: ImplementationResult, usage: AgentUsage)
    requires cfg.budget.None? && cfg.slots > 0
    ensures LeadsTo(cfg, NOBODY, ReturnedRun(id, plan, result, usage), id, ReturnedAt(id, plan, result, usage), 15)
  {
    JobIsPlanned(cfg, id, None, plan, usage, 3);
    AgentReturned(cfg, PlanningRun(id, None, plan, usage, 3), id, PlannedCell(id, None, 1, plan, usage, 3), result, usage, 9);
  }

  /** The cell of a process that died. */
  function DeadCell(cell: Cell): Cell {
    cell.(tasks := [], stranded := !IsTerminal(cell.stored.state))
  }

  lemma {:induction false} ProcessDies(cfg: Config, events: seq<Timed>, id: Id, cell: Cell, clock: Time, now: Time)
    requires LeadsTo(cfg, NOBODY, events, id, cell, clock) && clock < now
    ensures IsRun(cfg, events + [Timed(Kill, now)])
    ensures StateAfter(cfg, events + [Timed(Kill, now)]) == Among(NOBODY, id, DeadCell(cell), now).(phase := Down)
  {
    OneMore(cfg, events, Kill, now);
    var s := Among(NOBODY, id, cell, clock);
    assert (map i | i in s.cells :: Step(s.cells[i], Crash, now)) == map[id := DeadCell(cell)];
  }

  /**
   A usage that an agent returned can be lost: the process dies while the line
   endings are restored, and the record never learns of it.
   */
  lemma {:induction false} ReturnedUsageCanBeLost(
    cfg: Config, id: Id, plan: string, result: ImplementationResult, usage: AgentUsage)
    requires cfg.budget.None? && cfg.slots > 0
    ensures
      var events := ReturnedRun(id, plan, result, usage) + [Timed(Kill, 16)];
      && IsRun(cfg, events) && id in StateAfter(cfg, events).cells
      && StateAfter(cfg, events).cells[id].ledger.implBooked == [usage]
      && StateAfter(cfg, events).cells[id].stored.implementationUsage.None?
      && StateAfter(cfg, events).cells[id].tasks == []
  {
    RunReturns(cfg, id, plan, result, usage);
    ProcessDies(cfg, ReturnedRun(id, plan, result, usage), id, ReturnedAt(id, plan, result, usage), 15, 16);
  }

  // Recovery skips the job

  function SkippedRun(events: seq<Timed>, id: Id, now: Time): seq<Timed> {
    events + [Timed(Kill, now)] + [Timed(Restart([id]), now + 1)]
    + [Timed(RecoverNext(true, None), now + 2)] + [Timed(Serve, now + 3)]
  }

  lemma {:induction false} RecoveryRaises(cfg: Config, id: Id, dead: Cell, now: Time)
    requires IsImplementationState(dead.stored.state)
    ensures
      var down := Among(NOBODY, id, dead, now).(phase := Down);
      var recovering := Among(NOBODY, id, dead, now + 1).(phase := Recovering([id]));
      && Possible(cfg, down, Restart([id]), now + 1) && Next(cfg, down, Restart([id]), now + 1) == recovering
      && Possible(cfg, recovering, RecoverNext(true, None), now + 2)
      && Next(cfg, recovering, RecoverNext(true, None), now + 2) ==
           Among(NOBODY, id, dead, now + 2).(phase := Recovering([]), excused := {id})
  {
    var down := Among(NOBODY, id, dead, now).(phase := Down);
    var recovering := Among(NOBODY, id, dead, now + 1).(phase := Recovering([id]));
    assert Next(cfg, down, Restart([id]), now + 1) == recovering;
    assert [id][1..] == [] && {} + {id} == {id};
    assert map[id := dead][id := dead] == map[id := dead];
    assert Step(dead, Recover(true, None), now + 2) == dead;
  }

  lemma {:induction false} RecoverySkips(cfg: Config, events: seq<Timed>, id: Id, cell: Cell, clock: Time, now: Time)
    requires LeadsTo(cfg, NOBODY, events, id, cell, clock) && clock < now && IsImplementationState(cell.stored.state)
    ensures IsRun(cfg, SkippedRun(events, id, now))
    ensures StateAfter(cfg, SkippedRun(events, id, now)) == Among(NOBODY, id, DeadCell(cell), now + 3).(excused := {id})
  {
    var killed := events + [Timed(Kill, now)];
    var restarted := killed + [Timed(Restart([id]), now + 1)];
    var skipped := restarted + [Timed(RecoverNext(true, None), now + 2)];
    var dead := DeadCell(cell);
    ProcessDies(cfg, events, id, cell, clock, now);
    RecoveryRaises(cfg, id, dead, now);
    OneMore(cfg, killed, Restart([id]), now + 1);
    OneMore(cfg, restarted, RecoverNext(true, None), now + 2);
    OneMore(cfg, skipped, Serve, now + 3);
  }

  /** A recovery whose refresh raises leaves its job unfinished, with the service up and nothing running it. */
  lemma {:induction false} SkippedRecoveryLeavesJob(
    cfg: Config, id: Id, plan: string, result: ImplementationResult, usage: AgentUsage)
    requires cfg.budget.None? && cfg.slots > 0
    ensures
      var events := SkippedRun(ReturnedRun(id, plan, result, usage), id, 16);
      && IsRun(cfg, events) && StateAfter(cfg, events).phase.Up?
      && id in StateAfter(cfg, events).cells && id in StateAfter(cfg, events).excused
      && StateAfter(cfg, events).cells[id].stored.state == Implementing
      && StateAfter(cfg, events).cells[id].tasks == []
  {
    RunReturns(cfg, id, plan, result, usage);
    RecoverySkips(cfg, ReturnedRun(id, plan, result, usage), id, ReturnedAt(id, plan, result, usage), 15, 16);
  }
}
