/**
 The whole service: every job's cell, one clock, the agent-slot cap, the
 owners' budgets, startup recovery and the retention sweep. A run is a list of
 timed events, each possible in the state the earlier ones lead to.
 */
module System {
  import opened Prelude
  import opened Models
  import opened Transitions
  import opened Sums
  import opened Spend
  import opened Lifecycle

  // `budget`: the rolling limit per owner (`None`: off). `retention`: how long
  // a finished job keeps its workspace untouched.
  datatype Config = Config(budget: Option<real>, slots: nat, retention: Time)

  datatype Phase = Down | Recovering(todo: seq<Id>) | Up

  // What the sweep listed: the record as it was then. It reads no more of it
  // than its `updatedAt` and whether it was already marked.
  datatype Candidate = Candidate(id: Id, listed: Job)

  datatype Sweep =
    | Idle
    | Sweeping(todo: seq<Candidate>, startedAt: Time)
    | Deleting(id: Id, todo: seq<Candidate>, startedAt: Time)

  // `deleted`: workspaces the sweep has begun to delete. `excused`: jobs whose
  // recovery was skipped, or whose task was cancelled before its first step,
  // since this process started.
  datatype Sys = Sys(
    cells: map<Id, Cell>, phase: Phase, clock: Time, sweep: Sweep, deleted: set<Id>, excused: set<Id>)

  datatype Event =
    | Create(id: Id, owner: Option<Owner>)
    | OnCell(id: Id, event: CellEvent)
    | Kill
    | Restart(found: seq<Id>)
    | RecoverNext(raises: bool, diff: Option<ImplementationDiff>)
    | Serve
    | SweepList(ids: seq<Id>)
    | SweepNext
    | SweepDelete

  const START := Sys(map[], Up, 0, Idle, {}, {})

  // Budget and slots

  /** What an owner's job weighs in the window that opens after `since`. */
  ghost function SpentBy(owner: Owner, since: Time): Cell -> real {
    (cell: Cell) => if cell.stored.owner == Some(owner) then WindowCost(cell.stored, since) else 0.0
  }

  /** An owner's recorded spend over the window that ends at `now`. */
  ghost function Spent(cells: map<Id, Cell>, owner: Owner, now: Time): real {
    SumBy(cells, SpentBy(owner, now - SPEND_WINDOW))
  }

  lemma SpentIsSumOfRows(cells: map<Id, Cell>, owner: Owner, now: Time)
    ensures Spent(cells, owner, now) == OwnerSpent(StoredRows(cells), owner, now)
  {
    SumCongruent(cells, SpentBy(owner, now - SPEND_WINDOW), StoredRows(cells), JobSpent(owner, now - SPEND_WINDOW));
  }

  /** `check_spend_limit` raises. */
  ghost predicate OverBudget(cfg: Config, cells: map<Id, Cell>, owner: Option<Owner>, now: Time) {
    cfg.budget.Some? && owner.Some? && Spent(cells, owner.value, now) >= cfg.budget.value
  }

  /** The job table, as a store keeps it. */
  function StoredRows(cells: map<Id, Cell>): map<Id, Job> {
    map id | id in cells :: cells[id].stored
  }

  predicate HoldsSlot(cell: Cell) {
    exists i :: 0 <= i < |cell.tasks| && Holding(cell.tasks[i])
  }

  /** The jobs with a task inside an agent slot. */
  ghost function Holders(cells: map<Id, Cell>): set<Id> {
    Select(cells, HoldsSlot)
  }

  // The sweep

  /** The conditional update of `mark_workspace_removed`. */
  predicate MarkSucceeds(cells: map<Id, Cell>, candidate: Candidate) {
    && candidate.id in cells
    && IsTerminal(cells[candidate.id].stored.state)
    && cells[candidate.id].stored.updatedAt == candidate.listed.updatedAt
    && cells[candidate.id].stored.workspaceRemovedAt.None?
  }

  ghost function SweepStep(cfg: Config, s: Sys): Sys
    requires s.sweep.Sweeping?
  {
    if s.sweep.todo == [] then s.(sweep := Idle)
    else
      var candidate, rest, at := s.sweep.todo[0], s.sweep.todo[1..], s.sweep.startedAt;
      if candidate.listed.workspaceRemovedAt.Some? then
        s.(sweep := Deleting(candidate.id, rest, at))
      else if candidate.listed.updatedAt > at - cfg.retention || !MarkSucceeds(s.cells, candidate) then
        s.(sweep := Sweeping(rest, at))
      else
        var cell := s.cells[candidate.id];
        s.(cells := s.cells[candidate.id := Step(cell, Mark(at), s.clock)],
           sweep := Deleting(candidate.id, rest, at))
  }

  predicate Distinct(ids: seq<Id>) {
    forall i, j :: 0 <= i < j < |ids| ==> ids[i] != ids[j]
  }

  // Steps

  predicate IsRoute(event: CellEvent) {
    event.Implement? || event.Correct?
  }

  ghost predicate CellEventAllowed(cfg: Config, s: Sys, id: Id, event: CellEvent, now: Time)
    requires id in s.cells
  {
    var cell := s.cells[id];
    && Enabled(cell, event)
    && (IsRoute(event) || event.OnTask?)
    && (IsRoute(event) ==> !OverBudget(cfg, s.cells, cell.stored.owner, now))
    && (event.OnTask? && event.event.Grant? ==>
          && |Holders(s.cells)| < cfg.slots
          && event.event.overBudget == OverBudget(cfg, s.cells, cell.tasks[event.i].local.owner, now))
  }

  ghost predicate Possible(cfg: Config, s: Sys, event: Event, now: Time) {
    && s.clock < now
    && match event
       // The route's own spend check came earlier, with suspensions in between.
       case Create(id, owner) => s.phase.Up? && id !in s.cells
       case OnCell(id, e) => s.phase.Up? && id in s.cells && CellEventAllowed(cfg, s, id, e, now)
       case Kill => true
       case Restart(found) =>
         && s.phase.Down? && Distinct(found)
         && forall id :: id in found <==> id in s.cells && !IsTerminal(s.cells[id].stored.state)
       case RecoverNext(raises, diff) =>
         && s.phase.Recovering? && s.phase.todo != [] && s.phase.todo[0] in s.cells
         && Enabled(s.cells[s.phase.todo[0]], Recover(raises, diff))
       case Serve => s.phase.Recovering? && s.phase.todo == []
       case SweepList(ids) =>
         && s.phase.Up? && s.sweep.Idle? && Distinct(ids)
         && forall id :: id in ids <==> id in s.cells && IsTerminal(s.cells[id].stored.state)
       case SweepNext => s.phase.Up? && s.sweep.Sweeping?
       case SweepDelete => s.phase.Up? && s.sweep.Deleting?
  }

  predicate CancelledUnstarted(cell: Cell, event: CellEvent) {
    event.OnTask? && event.event.Cancel? && event.i < |cell.tasks| && cell.tasks[event.i].pc.Entering?
  }

  ghost function Next(cfg: Config, s: Sys, event: Event, now: Time): Sys
    requires Possible(cfg, s, event, now)
  {
    var t := s.(clock := now);
    match event
    case Create(id, owner) => t.(cells := s.cells[id := NewCell(id, owner, now)])
    case OnCell(id, e) =>
      var cells := s.cells[id := Step(s.cells[id], e, now)];
      t.(cells := cells, excused := if CancelledUnstarted(s.cells[id], e) then s.excused + {id} else s.excused)
    case Kill =>
      t.(cells := map id | id in s.cells :: Step(s.cells[id], Crash, now), phase := Down, sweep := Idle)
    case Restart(found) => t.(phase := Recovering(found), excused := {})
    case RecoverNext(raises, diff) =>
      var id := s.phase.todo[0];
      t.(cells := s.cells[id := Step(s.cells[id], Recover(raises, diff), now)],
         phase := Recovering(s.phase.todo[1..]),
         excused := if raises then s.excused + {id} else s.excused)
    case Serve => t.(phase := Up)
    case SweepList(ids) =>
      t.(sweep := Sweeping(seq(|ids|, i requires 0 <= i < |ids| => Candidate(ids[i], s.cells[ids[i]].stored)), now))
    case SweepNext => SweepStep(cfg, t)
    case SweepDelete =>
      t.(deleted := s.deleted + {s.sweep.id}, sweep := Sweeping(s.sweep.todo, s.sweep.startedAt))
  }

  // Runs

  datatype Timed = Timed(event: Event, now: Time)

  ghost predicate IsRun(cfg: Config, events: seq<Timed>)
    decreases |events|, 0
  {
    events == [] || (
      var before, last := events[..|events| - 1], events[|events| - 1];
      IsRun(cfg, before) && Possible(cfg, StateAfter(cfg, before), last.event, last.now))
  }

  ghost function StateAfter(cfg: Config, events: seq<Timed>): Sys
    requires IsRun(cfg, events)
    decreases |events|, 1
  {
    if events == [] then START
    else
      var before, last := events[..|events| - 1], events[|events| - 1];
      Next(cfg, StateAfter(cfg, before), last.event, last.now)
  }
}
