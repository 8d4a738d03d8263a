/**
 When the cost of a plan counts. It is stamped with its job's creation, not
 with its run, so a plan that waits long for its slot counts for less than a
 window, or not at all.
 */
module PlanWindow {
  import opened Prelude
  import opened Models
  import opened Transitions
  import opened Sums
  import opened Spend
  import opened Lifecycle
  import opened LifecycleInvariant
  import opened System
  import opened SystemInvariant
  import opened Guarantees
  import opened Witnesses
  import opened Origins

  // The stamp of a plan's cost is the time of the job's creation

  lemma {:induction false} TaskStepKeepsCreation(turn: Turn, event: TaskEvent, now: Time)
    requires turn.task.Some? && TaskEnabled(turn.task.value, event)
    requires turn.task.value.pc.Entering? || turn.task.value.local.createdAt == turn.stored.createdAt
    ensures TaskStep(turn, event, now).stored.createdAt == turn.stored.createdAt
  {
    if event.Proceed? {
      ProceedKeepsCreation(turn, event, now);
    }
  }

  lemma {:induction false} ProceedKeepsCreation(turn: Turn, event: TaskEvent, now: Time)
    requires turn.task.Some? && TaskEnabled(turn.task.value, event) && event.Proceed?
    requires turn.task.value.local.createdAt == turn.stored.createdAt
    ensures TaskStep(turn, event, now).stored.createdAt == turn.stored.createdAt
  {}

  lemma {:induction false} StepKeepsCreation(cell: Cell, event: CellEvent, clock: Time, now: Time)
    requires Inv(cell, clock) && clock < now && Enabled(cell, event)
    ensures Step(cell, event, now).stored.createdAt == cell.stored.createdAt
  {
    if event.OnTask? {
      TaskStepKeepsCreation(View(cell), event.event, now);
    }
  }

  /** When the run created the job. */
  function CreatedWhen(events: seq<Timed>, id: Id): Time {
    if events == [] then 0
    else
      var last := events[|events| - 1];
      if last.event.Create? && last.event.id == id then last.now else CreatedWhen(events[..|events| - 1], id)
  }

  lemma {:induction false} CreationIsStamped(cfg: Config, events: seq<Timed>, id: Id)
    requires IsRun(cfg, events) && id in StateAfter(cfg, events).cells
    ensures StateAfter(cfg, events).cells[id].stored.createdAt == CreatedWhen(events, id)
    decreases |events|
  {
    var before, last := events[..|events| - 1], events[|events| - 1];
    var s := StateAfter(cfg, before);
    NextCell(cfg, s, last.event, last.now, id);
    if id in s.cells {
      RunsKeepInv(cfg, before);
      CreationIsStamped(cfg, before, id);
      var touch := Touches(cfg, s, last.event, id);
      if touch.Some? {
        StepKeepsCreation(s.cells[id], touch.value, s.clock, last.now);
      }
    }
  }

  // What a run adds to its owner's spend

  function WithoutCost(cells: map<Id, Cell>, id: Id, agent: AgentKind): map<Id, Cell>
    requires id in cells
  {
    cells[id := cells[id].(stored := Unspent(cells[id].stored, agent))]
  }

  /** The cost that an agent of this job has on record. */
  predicate HasSpent(cells: map<Id, Cell>, owner: Owner, id: Id, agent: AgentKind, cost: real) {
    && id in cells && cells[id].stored.owner == Some(owner)
    && HasCost(Recorded(cells[id].stored, agent), cost) && cost > 0.0
  }

  lemma {:induction false} RunShare(
    cells: map<Id, Cell>, owner: Owner, id: Id, agent: AgentKind, cost: real, now: Time)
    requires HasSpent(cells, owner, id, agent, cost)
    ensures Spent(cells, owner, now) - Spent(WithoutCost(cells, id, agent), owner, now) ==
      if now < CountsFrom(cells[id].stored, agent) + SPEND_WINDOW then cost else 0.0
  {
    SpentIsSumOfRows(cells, owner, now);
    SpentIsSumOfRows(WithoutCost(cells, id, agent), owner, now);
    EachCostCounts(StoredRows(cells), owner, id, agent, cost, now);
    assert StoredRows(WithoutCost(cells, id, agent)) ==
      StoredRows(cells)[id := Unspent(cells[id].stored, agent)];
  }

  /**
   In every run, at every instant, a recorded plan cost counts towards its
   owner's spend exactly until a window after its job was created.
   */
  lemma {:induction false} PlanCountsFromCreation(
    cfg: Config, events: seq<Timed>, owner: Owner, id: Id, cost: real, now: Time)
    requires IsRun(cfg, events) && HasSpent(StateAfter(cfg, events).cells, owner, id, PlanAgent, cost)
    ensures
      var cells := StateAfter(cfg, events).cells;
      Spent(cells, owner, now) - Spent(WithoutCost(cells, id, PlanAgent), owner, now) ==
        if now < CreatedWhen(events, id) + SPEND_WINDOW then cost else 0.0
  {
    RunShare(StateAfter(cfg, events).cells, owner, id, PlanAgent, cost, now);
    CreationIsStamped(cfg, events, id);
  }

  /**
   A recorded implementation cost counts exactly until a window after the event
   of the run in which that implementation read its baseline.
   */
  lemma {:induction false} ImplementationCountsFromStart(
    cfg: Config, events: seq<Timed>, owner: Owner, id: Id, cost: real, now: Time)
    requires IsRun(cfg, events) && HasSpent(StateAfter(cfg, events).cells, owner, id, ImplementationAgent, cost)
    ensures
      var cells, started := StateAfter(cfg, events).cells, OriginOf(cfg, events, id).started;
      && started.Some?
      && Spent(cells, owner, now) - Spent(WithoutCost(cells, id, ImplementationAgent), owner, now) ==
           if now < started.value + SPEND_WINDOW then cost else 0.0
  {
    RunsKeepInv(cfg, events);
    OriginsAreRecorded(cfg, events, id);
    RunShare(StateAfter(cfg, events).cells, owner, id, ImplementationAgent, cost, now);
  }

  /**
   A recorded correction cost counts exactly until a window after the event in
   which the job's latest correction passed its checks; until a window after the
   last save, if a newer correction was asked for and has not passed them.
   */
  lemma {:induction false} CorrectionCountsFromStart(
    cfg: Config, events: seq<Timed>, owner: Owner, id: Id, cost: real, now: Time)
    requires IsRun(cfg, events) && HasSpent(StateAfter(cfg, events).cells, owner, id, CorrectionAgent, cost)
    ensures
      var cells, started := StateAfter(cfg, events).cells, OriginOf(cfg, events, id).corrected;
      var from := if started.Some? then started.value else cells[id].stored.updatedAt;
      Spent(cells, owner, now) - Spent(WithoutCost(cells, id, CorrectionAgent), owner, now) ==
        if now < from + SPEND_WINDOW then cost else 0.0
  {
    OriginsAreRecorded(cfg, events, id);
    RunShare(StateAfter(cfg, events).cells, owner, id, CorrectionAgent, cost, now);
  }

  /** From now on the plan's cost changes no spend check. */
  ghost predicate NeverCounts(s: Sys, owner: Owner, id: Id)
    requires id in s.cells
  {
    forall now :: now >= s.clock ==> Spent(s.cells, owner, now) == Spent(WithoutCost(s.cells, id, PlanAgent), owner, now)
  }

  /** So it never counts from the moment it is saved exactly when that is a window or more after the creation. */
  lemma {:induction false} LatePlanNeverCounts(cfg: Config, events: seq<Timed>, owner: Owner, id: Id, cost: real)
    requires IsRun(cfg, events) && HasSpent(StateAfter(cfg, events).cells, owner, id, PlanAgent, cost)
    ensures NeverCounts(StateAfter(cfg, events), owner, id) <==>
      StateAfter(cfg, events).clock >= CreatedWhen(events, id) + SPEND_WINDOW
  {
    var s := StateAfter(cfg, events);
    PlanCountsFromCreation(cfg, events, owner, id, cost, s.clock);
    if s.clock >= CreatedWhen(events, id) + SPEND_WINDOW {
      forall now | now >= s.clock
        ensures Spent(s.cells, owner, now) == Spent(WithoutCost(s.cells, id, PlanAgent), owner, now)
      {
        PlanCountsFromCreation(cfg, events, owner, id, cost, now);
      }
    }
  }

  lemma {:induction false} ClockGrows(cfg: Config, events: seq<Timed>, k: nat)
    requires IsRun(cfg, events) && k < |events|
    ensures events[k].now <= StateAfter(cfg, events).clock
    decreases |events|
  {
    if k < |events| - 1 {
      ClockGrows(cfg, events[..|events| - 1], k);
    }
  }

  /** The `k`-th event of the run lets the job's plan run start. */
  ghost predicate GrantsPlan(cfg: Config, events: seq<Timed>, k: nat, id: Id)
    requires k < |events|
  {
    var event := events[k].event;
    && IsRun(cfg, events[..k]) && id in StateAfter(cfg, events[..k]).cells
    && event.OnCell? && event.id == id && AcceptsPlan(StateAfter(cfg, events[..k]).cells[id], event.event)
  }

  predicate AcceptsPlan(cell: Cell, event: CellEvent) {
    && event.OnTask? && event.i < |cell.tasks| && cell.tasks[event.i].kind == PlanRun
    && event.event.Grant? && !event.event.overBudget
  }

  /** In particular when the plan run itself started that late. */
  lemma {:induction false} LateStartNeverCounts(
    cfg: Config, events: seq<Timed>, k: nat, owner: Owner, id: Id, cost: real)
    requires IsRun(cfg, events) && HasSpent(StateAfter(cfg, events).cells, owner, id, PlanAgent, cost)
    requires k < |events| && GrantsPlan(cfg, events, k, id) && events[k].now >= CreatedWhen(events, id) + SPEND_WINDOW
    ensures NeverCounts(StateAfter(cfg, events), owner, id)
  {
    ClockGrows(cfg, events, k);
    LatePlanNeverCounts(cfg, events, owner, id, cost);
  }

  /** It happens: a plan whatever its cost, saved just now, and a spend of nothing. */
  lemma {:induction false} LatePlanCostsNothing(
    cfg: Config, id: Id, owner: Owner, plan: string, usage: AgentUsage)
    requires cfg.slots > 0 && (cfg.budget.Some? ==> cfg.budget.value > 0.0)
    ensures
      var events := PlanningRun(id, Some(owner), plan, usage, 1 + SPEND_WINDOW);
      && IsRun(cfg, events) && id in StateAfter(cfg, events).cells
      && StateAfter(cfg, events).cells[id].stored.usage == Some(usage)
      && Spent(StateAfter(cfg, events).cells, owner, StateAfter(cfg, events).clock) == 0.0
  {
    var at := 1 + SPEND_WINDOW;
    var cell := PlannedCell(id, Some(owner), 1, plan, usage, at);
    JobIsPlanned(cfg, id, Some(owner), plan, usage, at);
    OneJobSpends(id, cell, owner, at + 5);
  }
}
