/**
 What the limit does not bound: what agents really cost in a window. Plans that
 have waited a window for their slot count nothing, so any number of them runs.
 */
module RealSpend {
  import opened Prelude
  import opened Models
  import opened Sums
  import opened Spend
  import opened Lifecycle
  import opened System
  import opened Accounts
  import opened Witnesses

  predicate DistinctIds(ids: seq<Id>) {
    forall i, j :: 0 <= i < j < |ids| ==> ids[i] != ids[j]
  }

  // The jobs are created and wait

  function CreatedAt(i: nat): Time {
    2 * i + 1
  }

  /** The first `n` jobs are created, and wait for a slot. */
  function Queueing(ids: seq<Id>, owner: Owner, n: nat): seq<Timed>
    requires n <= |ids|
  {
    if n == 0 then [] else QueuedFrom(Queueing(ids, owner, n - 1), ids[n - 1], owner, CreatedAt(n - 1))
  }

  /** When the `i`-th plan is let in: a window after the last job's creation. */
  function LetInAt(n: nat, i: nat): Time {
    CreatedAt(n) + SPEND_WINDOW + 6 * i
  }

  /** The `i`-th of these jobs, once the first `planned` are planned. */
  function CellOf(ids: seq<Id>, owner: Owner, plan: string, usage: AgentUsage, planned: nat, i: nat): Cell
    requires i < |ids|
  {
    if i < planned then PlannedCell(ids[i], Some(owner), CreatedAt(i), plan, usage, LetInAt(|ids|, i))
    else WaitingCell(ids[i], Some(owner), CreatedAt(i))
  }

  /** The first `n` of these jobs, of which the first `planned` are planned. */
  function Table(ids: seq<Id>, owner: Owner, plan: string, usage: AgentUsage, n: nat, planned: nat): map<Id, Cell>
    requires n <= |ids|
  {
    if n == 0 then NOBODY
    else Table(ids, owner, plan, usage, n - 1, planned)[ids[n - 1] := CellOf(ids, owner, plan, usage, planned, n - 1)]
  }

  /** A service that holds this table and does nothing else. */
  function Plain(cells: map<Id, Cell>, clock: Time): Sys {
    Sys(cells, Up, clock, Idle, {}, {})
  }

  lemma {:induction false} RowOf(
    ids: seq<Id>, owner: Owner, plan: string, usage: AgentUsage, n: nat, planned: nat, id: Id) returns (i: nat)
    requires n <= |ids| && id in Table(ids, owner, plan, usage, n, planned)
    ensures i < n && ids[i] == id
    ensures Table(ids, owner, plan, usage, n, planned)[id] == CellOf(ids, owner, plan, usage, planned, i)
    decreases n
  {
    if ids[n - 1] == id {
      i := n - 1;
    } else {
      i := RowOf(ids, owner, plan, usage, n - 1, planned, id);
    }
  }

  lemma {:induction false} NotYetInTable(
    ids: seq<Id>, owner: Owner, plan: string, usage: AgentUsage, n: nat, planned: nat)
    requires DistinctIds(ids) && n < |ids|
    ensures ids[n] !in Table(ids, owner, plan, usage, n, planned)
  {
    if ids[n] in Table(ids, owner, plan, usage, n, planned) {
      var i := RowOf(ids, owner, plan, usage, n, planned, ids[n]);
      assert false;
    }
  }

  /** Planning one more changes that one's row. */
  lemma {:induction false} TableOnePlanned(
    ids: seq<Id>, owner: Owner, plan: string, usage: AgentUsage, n: nat, k: nat)
    requires DistinctIds(ids) && k < n <= |ids|
    ensures
      Table(ids, owner, plan, usage, n, k + 1) ==
        Table(ids, owner, plan, usage, n, k)[ids[k] := CellOf(ids, owner, plan, usage, k + 1, k)]
    ensures
      Table(ids, owner, plan, usage, n, k) ==
        Table(ids, owner, plan, usage, n, k)[ids[k] := CellOf(ids, owner, plan, usage, k, k)]
    decreases n
  {
    if k < n - 1 {
      TableOnePlanned(ids, owner, plan, usage, n - 1, k);
      assert ids[k] != ids[n - 1];
    } else {
      TableSoFar(ids, owner, plan, usage, k, k);
    }
  }

  /** A job that is not in the table yet makes no difference to it. */
  lemma {:induction false} TableSoFar(ids: seq<Id>, owner: Owner, plan: string, usage: AgentUsage, n: nat, k: nat)
    requires n <= k && n <= |ids|
    ensures Table(ids, owner, plan, usage, n, k) == Table(ids, owner, plan, usage, n, k + 1)
    decreases n
  {
    if n > 0 {
      TableSoFar(ids, owner, plan, usage, n - 1, k);
    }
  }

  /** A new job is created at `at` and waits. */
  function QueuedFrom(events: seq<Timed>, id: Id, owner: Owner, at: Time): seq<Timed> {
    events + [Timed(Create(id, Some(owner)), at)] + [Timed(OnCell(id, OnTask(0, Begin)), at + 1)]
  }

  lemma {:induction false} NewJobQueues(
    cfg: Config, events: seq<Timed>, cells: map<Id, Cell>, clock: Time, id: Id, owner: Owner, at: Time)
    requires IsRun(cfg, events) && StateAfter(cfg, events) == Plain(cells, clock) && clock < at && id !in cells
    ensures LeadsTo(cfg, cells, QueuedFrom(events, id, owner, at), id, WaitingCell(id, Some(owner), at), at + 1)
  {
    var cell := NewCell(id, Some(owner), at);
    OneMore(cfg, events, Create(id, Some(owner)), at);
    Extends(cfg, cells, events + [Timed(Create(id, Some(owner)), at)], id, cell, at, OnTask(0, Begin), at + 1);
    assert Step(cell, OnTask(0, Begin), at + 1) == WaitingCell(id, Some(owner), at);
  }

  lemma {:induction false} AllQueue(cfg: Config, ids: seq<Id>, owner: Owner, plan: string, usage: AgentUsage, n: nat)
    requires DistinctIds(ids) && n <= |ids|
    ensures IsRun(cfg, Queueing(ids, owner, n))
    ensures StateAfter(cfg, Queueing(ids, owner, n)) == Plain(Table(ids, owner, plan, usage, n, 0), 2 * n)
    decreases n
  {
    if n > 0 {
      AllQueue(cfg, ids, owner, plan, usage, n - 1);
      NotYetInTable(ids, owner, plan, usage, n - 1, 0);
      NewJobQueues(cfg, Queueing(ids, owner, n - 1), Table(ids, owner, plan, usage, n - 1, 0), 2 * (n - 1), ids[n - 1],
                   owner, CreatedAt(n - 1));
    }
  }

  // A window later they are planned, one after the other

  /** All the jobs queue; then the first `n` are planned. */
  function LateRun(ids: seq<Id>, owner: Owner, plan: string, usage: AgentUsage, n: nat): seq<Timed>
    requires n <= |ids|
  {
    if n == 0 then Queueing(ids, owner, |ids|)
    else PlannedFrom(LateRun(ids, owner, plan, usage, n - 1), ids[n - 1], plan, usage, LetInAt(|ids|, n - 1))
  }

  /** None of them ever counts. */
  lemma {:induction false} NothingSpent(
    ids: seq<Id>, owner: Owner, plan: string, usage: AgentUsage, planned: nat, now: Time)
    requires DistinctIds(ids) && now >= CreatedAt(|ids|) + SPEND_WINDOW
    ensures Spent(Table(ids, owner, plan, usage, |ids|, planned), owner, now) == 0.0
  {
    var cells := Table(ids, owner, plan, usage, |ids|, planned);
    forall id | id in cells
      ensures SpentBy(owner, now - SPEND_WINDOW)(cells[id]) == 0.0
    {
      var _ := RowOf(ids, owner, plan, usage, |ids|, planned, id);
    }
    SumZero(cells, SpentBy(owner, now - SPEND_WINDOW));
  }

  lemma {:induction false} NobodyInside(ids: seq<Id>, owner: Owner, plan: string, usage: AgentUsage, planned: nat)
    requires DistinctIds(ids)
    ensures NobodyHolds(Table(ids, owner, plan, usage, |ids|, planned))
  {
    var cells := Table(ids, owner, plan, usage, |ids|, planned);
    forall id | id in cells
      ensures !HoldsSlot(cells[id])
    {
      var _ := RowOf(ids, owner, plan, usage, |ids|, planned, id);
    }
  }

  lemma {:induction false} NextCanStart(
    cfg: Config, ids: seq<Id>, owner: Owner, plan: string, usage: AgentUsage, n: nat)
    requires DistinctIds(ids) && n < |ids| && (cfg.budget.Some? ==> cfg.budget.value > 0.0)
    ensures
      var cells, waiting := Table(ids, owner, plan, usage, |ids|, n), WaitingCell(ids[n], Some(owner), CreatedAt(n));
      && cells[ids[n] := waiting] == cells && NobodyHolds(cells)
      && !OverBudget(cfg, cells, Some(owner), LetInAt(|ids|, n))
  {
    TableOnePlanned(ids, owner, plan, usage, |ids|, n);
    NothingSpent(ids, owner, plan, usage, n, LetInAt(|ids|, n));
    NobodyInside(ids, owner, plan, usage, n);
  }

  /** The clock once the first `n` are planned. */
  function ClockAt(ids: seq<Id>, n: nat): Time {
    if n == 0 then 2 * |ids| else LetInAt(|ids|, n - 1) + 5
  }

  lemma {:induction false} OneMorePlanned(
    cfg: Config, events: seq<Timed>, ids: seq<Id>, owner: Owner, plan: string, usage: AgentUsage, n: nat)
    requires DistinctIds(ids) && n < |ids| && cfg.slots > 0 && (cfg.budget.Some? ==> cfg.budget.value > 0.0)
    requires IsRun(cfg, events)
    requires StateAfter(cfg, events) == Plain(Table(ids, owner, plan, usage, |ids|, n), ClockAt(ids, n))
    ensures
      LeadsTo(cfg, Table(ids, owner, plan, usage, |ids|, n), PlannedFrom(events, ids[n], plan, usage, LetInAt(|ids|, n)),
              ids[n], CellOf(ids, owner, plan, usage, n + 1, n), ClockAt(ids, n + 1))
  {
    NextCanStart(cfg, ids, owner, plan, usage, n);
    WaitingIsPlanned(cfg, Table(ids, owner, plan, usage, |ids|, n), events, ids[n], Some(owner), CreatedAt(n),
                     ClockAt(ids, n), plan, usage, LetInAt(|ids|, n));
  }

  lemma {:induction false} AllPlanned(
    cfg: Config, ids: seq<Id>, owner: Owner, plan: string, usage: AgentUsage, n: nat)
    requires DistinctIds(ids) && n <= |ids| && cfg.slots > 0 && (cfg.budget.Some? ==> cfg.budget.value > 0.0)
    ensures IsRun(cfg, LateRun(ids, owner, plan, usage, n))
    ensures StateAfter(cfg, LateRun(ids, owner, plan, usage, n)) ==
      Plain(Table(ids, owner, plan, usage, |ids|, n), ClockAt(ids, n))
    decreases n
  {
    if n == 0 {
      AllQueue(cfg, ids, owner, plan, usage, |ids|);
    } else {
      AllPlanned(cfg, ids, owner, plan, usage, n - 1);
      OneMorePlanned(cfg, LateRun(ids, owner, plan, usage, n - 1), ids, owner, plan, usage, n - 1);
      TableOnePlanned(ids, owner, plan, usage, |ids|, n - 1);
    }
  }

  // What it all cost

  lemma {:induction false} RowIsBooked(
    ids: seq<Id>, owner: Owner, plan: string, usage: AgentUsage, n: nat, planned: nat)
    requires DistinctIds(ids) && n < |ids|
    ensures
      SumBy(Table(ids, owner, plan, usage, n + 1, planned), BookedCost(Some(owner), PlanAgent)) ==
        SumBy(Table(ids, owner, plan, usage, n, planned), BookedCost(Some(owner), PlanAgent))
        + if n < planned then Cost(Some(usage)) else 0.0
  {
    NotYetInTable(ids, owner, plan, usage, n, planned);
    SumUpdate(Table(ids, owner, plan, usage, n, planned), ids[n], CellOf(ids, owner, plan, usage, planned, n),
              BookedCost(Some(owner), PlanAgent));
    CellIsBooked(ids, owner, plan, usage, planned, n);
  }

  /** What the agents were booked for: `planned` plans. */
  lemma {:induction false} TableIsBooked(
    ids: seq<Id>, owner: Owner, plan: string, usage: AgentUsage, n: nat, planned: nat)
    requires DistinctIds(ids) && n <= |ids|
    ensures
      SumBy(Table(ids, owner, plan, usage, n, planned), BookedCost(Some(owner), PlanAgent)) ==
        Times(Cost(Some(usage)), if n < planned then n else planned)
    decreases n
  {
    if n > 0 {
      TableIsBooked(ids, owner, plan, usage, n - 1, planned);
      RowIsBooked(ids, owner, plan, usage, n - 1, planned);
    }
  }

  lemma {:induction false} CellIsBooked(
    ids: seq<Id>, owner: Owner, plan: string, usage: AgentUsage, planned: nat, i: nat)
    requires i < |ids|
    ensures
      BookedCost(Some(owner), PlanAgent)(CellOf(ids, owner, plan, usage, planned, i)) ==
        if i < planned then Cost(Some(usage)) else 0.0
  {
    TotalOfRecorded(Some(usage));
  }

  lemma {:induction false} TimedFromIsLater(id: Id, steps: seq<CellEvent>, now: Time)
    ensures forall k :: 0 <= k < |TimedFrom(id, steps, now)| ==> TimedFrom(id, steps, now)[k].now >= now
    decreases |steps|
  {
    if steps != [] {
      TimedFromIsLater(id, steps[1..], now + 1);
    }
  }

  /** All that happens after the queueing happens from the first letting-in on. */
  lemma {:induction false} LateRunIsLate(
    ids: seq<Id>, owner: Owner, plan: string, usage: AgentUsage, n: nat)
    requires n <= |ids|
    ensures Queueing(ids, owner, |ids|) <= LateRun(ids, owner, plan, usage, n)
    ensures forall k :: |Queueing(ids, owner, |ids|)| <= k < |LateRun(ids, owner, plan, usage, n)| ==>
      LateRun(ids, owner, plan, usage, n)[k].now >= LetInAt(|ids|, 0)
    decreases n
  {
    if n > 0 {
      LateRunIsLate(ids, owner, plan, usage, n - 1);
      TimedFromIsLater(ids[n - 1], CLONING_STEPS + PlanSteps(plan, usage), LetInAt(|ids|, n - 1) + 1);
    }
  }

  /**
   The limit bounds recorded spend as it is stamped, not what agents really cost
   in a window. For any number of jobs there is a run, possible even with one
   slot and the smallest limit, in which that many plans run one after the
   other within 24 hours, each costing what it likes, while no spend check ever
   counts any of them.
   */
  lemma {:induction false} RealSpendHasNoBound(cfg: Config, ids: seq<Id>, owner: Owner, plan: string, usage: AgentUsage)
    requires DistinctIds(ids) && 6 * |ids| <= SPEND_WINDOW
    requires cfg.slots > 0 && (cfg.budget.Some? ==> cfg.budget.value > 0.0)
    ensures
      var early, run := Queueing(ids, owner, |ids|), LateRun(ids, owner, plan, usage, |ids|);
      && early <= run && IsRun(cfg, early) && IsRun(cfg, run)
      && (forall k :: |early| <= k < |run| ==> run[k].now > StateAfter(cfg, run).clock - SPEND_WINDOW)
      && SumBy(StateAfter(cfg, early).cells, BookedCost(Some(owner), PlanAgent)) == 0.0
      && SumBy(StateAfter(cfg, run).cells, BookedCost(Some(owner), PlanAgent)) == Times(Cost(Some(usage)), |ids|)
      && (ids != [] ==> Spent(StateAfter(cfg, run).cells, owner, StateAfter(cfg, run).clock) == 0.0)
  {
    AllQueue(cfg, ids, owner, plan, usage, |ids|);
    AllPlanned(cfg, ids, owner, plan, usage, |ids|);
    TableIsBooked(ids, owner, plan, usage, |ids|, 0);
    TableIsBooked(ids, owner, plan, usage, |ids|, |ids|);
    LateRunIsLate(ids, owner, plan, usage, |ids|);
    if ids != [] {
      NothingSpent(ids, owner, plan, usage, |ids|, ClockAt(ids, |ids|));
    }
  }
}
