/** The inductive invariant of the whole service, kept by every event of every run. */
module SystemInvariant {
  import opened Prelude
  import opened Models
  import opened Transitions
  import opened Sums
  import opened Spend
  import opened Lifecycle
  import opened LifecycleInvariant
  import opened System

  predicate Marked(s: Sys, id: Id) {
    id in s.cells && s.cells[id].stored.workspaceRemovedAt.Some?
  }

  /** Since it was listed the record is unchanged, was saved later, or was marked. */
  predicate CandidateOk(s: Sys, candidate: Candidate) {
    && candidate.id in s.cells
    && IsTerminal(candidate.listed.state)
    && (candidate.listed.workspaceRemovedAt.Some? ==> Marked(s, candidate.id))
    && var stored := s.cells[candidate.id].stored;
       stored == candidate.listed || stored.updatedAt > candidate.listed.updatedAt || stored.workspaceRemovedAt.Some?
  }

  predicate CellsOk(s: Sys) {
    forall id :: id in s.cells ==>
      Inv(s.cells[id], s.clock) && (!s.phase.Up? ==> s.cells[id].tasks == [])
  }

  predicate PhaseOk(s: Sys) {
    match s.phase
    case Down => true
    case Recovering(todo) =>
      && Distinct(todo)
      && (forall id :: id in todo ==> id in s.cells && !IsTerminal(s.cells[id].stored.state))
      && (forall id :: id in s.cells && s.cells[id].stranded ==> id in todo || id in s.excused)
      && (forall id :: id in s.excused ==> id in s.cells && s.cells[id].stranded && id !in todo)
    case Up =>
      && (forall id :: id in s.cells && s.cells[id].stranded ==> id in s.excused)
      && (forall id :: id in s.excused ==> id in s.cells && s.cells[id].stranded)
  }

  predicate SweepOk(s: Sys) {
    && (!s.phase.Up? ==> s.sweep.Idle?)
    && (s.sweep.Sweeping? || s.sweep.Deleting? ==> forall c :: c in s.sweep.todo ==> CandidateOk(s, c))
    && (s.sweep.Deleting? ==> Marked(s, s.sweep.id))
    && (forall id :: id in s.deleted ==> Marked(s, id))
  }

  ghost predicate SysInv(cfg: Config, s: Sys) {
    CellsOk(s) && PhaseOk(s) && SweepOk(s) && |Holders(s.cells)| <= cfg.slots
  }

  /** What one event can do to one record: nothing, a save stamped `now`, or the mark. */
  predicate RecordMoved(before: Job, after: Job, now: Time) {
    && (before.workspaceRemovedAt.Some? ==> after == before)
    && (after == before || after.updatedAt == now
        || (IsTerminal(before.state) && after == before.(workspaceRemovedAt := after.workspaceRemovedAt)
            && after.workspaceRemovedAt.Some?))
  }

  lemma TaskStepSavesOrNot(turn: Turn, event: TaskEvent, now: Time)
    requires turn.task.Some? && TaskEnabled(turn.task.value, event)
    ensures var after := TaskStep(turn, event, now).stored;
            after == turn.stored || after.updatedAt == now
  {}

  lemma StepMovesRecord(cell: Cell, event: CellEvent, clock: Time, now: Time)
    requires Inv(cell, clock) && Enabled(cell, event)
    ensures RecordMoved(cell.stored, Step(cell, event, now).stored, now)
  {
    if event.OnTask? {
      TaskStepSavesOrNot(Turn(cell.stored, Some(cell.tasks[event.i]), cell.ledger), event.event, now);
    }
  }

  // Slots

  lemma HoldersGrow(cells: map<Id, Cell>, id: Id, cell: Cell)
    requires id in cells ==> HoldsSlot(cell) ==> HoldsSlot(cells[id])
    requires id !in cells ==> !HoldsSlot(cell)
    ensures |Holders(cells[id := cell])| <= |Holders(cells)|
  {
    var old_, new_ := Holders(cells), Holders(cells[id := cell]);
    assert new_ <= old_;
    SubsetSize(new_, old_);
  }

  lemma {:induction false} SubsetSize(a: set<Id>, b: set<Id>)
    requires a <= b
    ensures |a| <= |b|
  {
    assert b == a + (b - a);
  }

  /** Only a grant takes a slot. */
  lemma StepTakesNoSlot(cell: Cell, event: CellEvent, clock: Time, now: Time)
    requires Inv(cell, clock) && Enabled(cell, event) && !(event.OnTask? && event.event.Grant?)
    ensures HoldsSlot(Step(cell, event, now)) ==> HoldsSlot(cell)
  {}

  // Replacing one cell

  predicate Replaces(s: Sys, t: Sys, id: Id, cell: Cell) {
    t.cells == s.cells[id := cell] && s.clock < t.clock
  }

  lemma ReplaceKeepsCells(s: Sys, t: Sys, id: Id, cell: Cell)
    requires CellsOk(s) && Replaces(s, t, id, cell) && Inv(cell, t.clock)
    requires !t.phase.Up? ==> !s.phase.Up? && cell.tasks == []
    ensures CellsOk(t)
  {
    forall k | k in t.cells
      ensures Inv(t.cells[k], t.clock) && (!t.phase.Up? ==> t.cells[k].tasks == [])
    {
      if k != id {
        TickKeepsInv(s.cells[k], s.clock, t.clock);
      }
    }
  }

  lemma ReplaceKeepsCandidates(s: Sys, t: Sys, id: Id, cell: Cell, todo: seq<Candidate>)
    requires CellsOk(s) && Replaces(s, t, id, cell)
    requires id in s.cells ==> RecordMoved(s.cells[id].stored, cell.stored, t.clock)
    requires forall c :: c in todo ==> CandidateOk(s, c)
    ensures forall c :: c in todo ==> CandidateOk(t, c)
    ensures forall k :: Marked(s, k) ==> Marked(t, k)
  {
    forall c | c in todo
      ensures CandidateOk(t, c)
    {
      assert CandidateOk(s, c);
      if c.id == id {
        assert Inv(s.cells[id], s.clock);
      }
    }
  }

  // One lemma per kind of event

  lemma ReplaceKeepsSweep(s: Sys, t: Sys, id: Id, cell: Cell)
    requires CellsOk(s) && SweepOk(s) && Replaces(s, t, id, cell)
    requires id in s.cells ==> RecordMoved(s.cells[id].stored, cell.stored, t.clock)
    requires t.sweep == s.sweep && t.deleted == s.deleted && (t.phase.Up? <==> s.phase.Up?)
    ensures SweepOk(t)
  {
    ReplaceKeepsCandidates(s, t, id, cell, if s.sweep.Idle? then [] else s.sweep.todo);
  }

  lemma CreateKeepsPhase(cfg: Config, s: Sys, event: Event, now: Time)
    requires PhaseOk(s) && event.Create? && Possible(cfg, s, event, now)
    ensures PhaseOk(Next(cfg, s, event, now))
  {
    assert !NewCell(event.id, event.owner, now).stranded;
  }

  lemma CreateKeepsInv(cfg: Config, s: Sys, event: Event, now: Time)
    requires SysInv(cfg, s) && event.Create? && Possible(cfg, s, event, now)
    ensures SysInv(cfg, Next(cfg, s, event, now))
  {
    var t, cell := Next(cfg, s, event, now), NewCell(event.id, event.owner, now);
    NewCellInv(event.id, event.owner, now);
    ReplaceKeepsCells(s, t, event.id, cell);
    ReplaceKeepsSweep(s, t, event.id, cell);
    HoldersGrow(s.cells, event.id, cell);
    CreateKeepsPhase(cfg, s, event, now);
  }

  lemma GrantKeepsCap(cells: map<Id, Cell>, id: Id, cell: Cell, slots: nat)
    requires |Holders(cells)| < slots
    ensures |Holders(cells[id := cell])| <= slots
  {
    var old_, new_ := Holders(cells), Holders(cells[id := cell]);
    assert new_ <= old_ + {id};
    SubsetSize(new_, old_ + {id});
  }

  /** Being stranded changes only with the cell events that also excuse the job. */
  lemma OnCellKeepsPhase(cfg: Config, s: Sys, event: Event, now: Time)
    requires CellsOk(s) && PhaseOk(s) && event.OnCell? && Possible(cfg, s, event, now)
    ensures PhaseOk(Next(cfg, s, event, now))
  {
    var cell := s.cells[event.id];
    assert Inv(cell, s.clock);
    assert Step(cell, event.event, now).stranded == (cell.stranded || CancelledUnstarted(cell, event.event));
  }

  lemma OnCellKeepsCap(cfg: Config, s: Sys, event: Event, now: Time)
    requires SysInv(cfg, s) && event.OnCell? && Possible(cfg, s, event, now)
    ensures |Holders(Next(cfg, s, event, now).cells)| <= cfg.slots
  {
    var id, e := event.id, event.event;
    var before, after := s.cells[id], Step(s.cells[id], e, now);
    if e.OnTask? && e.event.Grant? {
      GrantKeepsCap(s.cells, id, after, cfg.slots);
    } else {
      StepTakesNoSlot(before, e, s.clock, now);
      HoldersGrow(s.cells, id, after);
    }
  }

  lemma OnCellKeepsInv(cfg: Config, s: Sys, event: Event, now: Time)
    requires SysInv(cfg, s) && event.OnCell? && Possible(cfg, s, event, now)
    ensures SysInv(cfg, Next(cfg, s, event, now))
  {
    var id, e := event.id, event.event;
    var before, after := s.cells[id], Step(s.cells[id], e, now);
    var t := Next(cfg, s, event, now);
    StepKeepsInv(before, e, s.clock, now);
    StepMovesRecord(before, e, s.clock, now);
    ReplaceKeepsCells(s, t, id, after);
    ReplaceKeepsSweep(s, t, id, after);
    OnCellKeepsPhase(cfg, s, event, now);
    OnCellKeepsCap(cfg, s, event, now);
  }

  lemma KillKeepsInv(cfg: Config, s: Sys, now: Time)
    requires SysInv(cfg, s) && s.clock < now
    ensures SysInv(cfg, Next(cfg, s, Kill, now))
  {
    var t := Next(cfg, s, Kill, now);
    forall id | id in s.cells
      ensures Inv(t.cells[id], now) && t.cells[id].stored == s.cells[id].stored && t.cells[id].tasks == []
    {
      StepKeepsInv(s.cells[id], Crash, s.clock, now);
    }
    assert forall id :: Marked(s, id) ==> Marked(t, id);
    assert Holders(t.cells) == {};
  }

  lemma RestartKeepsInv(cfg: Config, s: Sys, event: Event, now: Time)
    requires SysInv(cfg, s) && event.Restart? && Possible(cfg, s, event, now)
    ensures SysInv(cfg, Next(cfg, s, event, now))
  {
    var t := Next(cfg, s, event, now);
    forall id | id in s.cells
      ensures Inv(t.cells[id], now)
    {
      TickKeepsInv(s.cells[id], s.clock, now);
    }
    assert forall id :: Marked(s, id) ==> Marked(t, id);
  }

  lemma HeadLeaves(todo: seq<Id>)
    requires Distinct(todo) && todo != []
    ensures Distinct(todo[1..]) && todo[0] !in todo[1..]
    ensures forall id :: id in todo <==> id == todo[0] || id in todo[1..]
  {
    assert todo == [todo[0]] + todo[1..];
  }

  /** What recovery does to one job: nothing if it raises, else it finishes it. */
  lemma RecoveredCell(cell: Cell, event: CellEvent, clock: Time, now: Time)
    requires Inv(cell, clock) && cell.tasks == [] && event.Recover? && Enabled(cell, event)
    ensures cell.stranded && (event.raises ==> Step(cell, event, now) == cell)
    ensures !event.raises ==> !Step(cell, event, now).stranded && IsTerminal(Step(cell, event, now).stored.state)
  {}

  lemma RecoverNextKeepsPhase(cfg: Config, s: Sys, event: Event, now: Time)
    requires CellsOk(s) && PhaseOk(s) && event.RecoverNext? && Possible(cfg, s, event, now)
    ensures PhaseOk(Next(cfg, s, event, now))
  {
    var id := s.phase.todo[0];
    HeadLeaves(s.phase.todo);
    RecoveredCell(s.cells[id], Recover(event.raises, event.diff), s.clock, now);
  }

  lemma RecoverNextKeepsInv(cfg: Config, s: Sys, event: Event, now: Time)
    requires SysInv(cfg, s) && event.RecoverNext? && Possible(cfg, s, event, now)
    ensures SysInv(cfg, Next(cfg, s, event, now))
  {
    var id, e := s.phase.todo[0], Recover(event.raises, event.diff);
    var before, after := s.cells[id], Step(s.cells[id], e, now);
    var t := Next(cfg, s, event, now);
    StepKeepsInv(before, e, s.clock, now);
    StepMovesRecord(before, e, s.clock, now);
    ReplaceKeepsCells(s, t, id, after);
    ReplaceKeepsSweep(s, t, id, after);
    HoldersGrow(s.cells, id, after);
    RecoverNextKeepsPhase(cfg, s, event, now);
  }

  lemma TickAll(s: Sys, t: Sys)
    requires CellsOk(s) && t.cells == s.cells && s.clock <= t.clock && (!t.phase.Up? ==> !s.phase.Up?)
    ensures CellsOk(t)
  {
    forall id | id in t.cells
      ensures Inv(t.cells[id], t.clock) && (!t.phase.Up? ==> t.cells[id].tasks == [])
    {
      TickKeepsInv(s.cells[id], s.clock, t.clock);
    }
  }

  lemma SweepListKeepsInv(cfg: Config, s: Sys, event: Event, now: Time)
    requires SysInv(cfg, s) && event.SweepList? && Possible(cfg, s, event, now)
    ensures SysInv(cfg, Next(cfg, s, event, now))
  {
    var t := Next(cfg, s, event, now);
    TickAll(s, t);
    forall c | c in t.sweep.todo
      ensures CandidateOk(t, c)
    {
      var i :| 0 <= i < |t.sweep.todo| && t.sweep.todo[i] == c;
      assert event.ids[i] in event.ids;
    }
  }

  /** The next candidate is due and its conditional update succeeds. */
  ghost predicate MarksNext(cfg: Config, s: Sys) {
    && s.sweep.Sweeping? && s.sweep.todo != []
    && s.sweep.todo[0].listed.workspaceRemovedAt.None?
    && s.sweep.todo[0].listed.updatedAt <= s.sweep.startedAt - cfg.retention
    && MarkSucceeds(s.cells, s.sweep.todo[0])
  }

  lemma MarkKeepsSweep(cfg: Config, s: Sys, now: Time)
    requires SysInv(cfg, s) && Possible(cfg, s, SweepNext, now) && MarksNext(cfg, s)
    ensures SweepOk(Next(cfg, s, SweepNext, now))
  {
    var t := Next(cfg, s, SweepNext, now);
    var id, at := s.sweep.todo[0].id, s.sweep.startedAt;
    StepMovesRecord(s.cells[id], Mark(at), s.clock, now);
    ReplaceKeepsCandidates(s, t, id, Step(s.cells[id], Mark(at), now), s.sweep.todo);
  }

  lemma MarkKeepsPhase(cfg: Config, s: Sys, now: Time)
    requires PhaseOk(s) && Possible(cfg, s, SweepNext, now) && MarksNext(cfg, s)
    ensures PhaseOk(Next(cfg, s, SweepNext, now))
  {
    var cell, at := s.cells[s.sweep.todo[0].id], s.sweep.startedAt;
    assert Step(cell, Mark(at), now).stranded == cell.stranded;
  }

  lemma MarkKeepsInv(cfg: Config, s: Sys, now: Time)
    requires SysInv(cfg, s) && Possible(cfg, s, SweepNext, now) && MarksNext(cfg, s)
    ensures SysInv(cfg, Next(cfg, s, SweepNext, now))
  {
    var t := Next(cfg, s, SweepNext, now);
    var id, at := s.sweep.todo[0].id, s.sweep.startedAt;
    var after := Step(s.cells[id], Mark(at), now);
    StepKeepsInv(s.cells[id], Mark(at), s.clock, now);
    ReplaceKeepsCells(s, t, id, after);
    HoldersGrow(s.cells, id, after);
    MarkKeepsSweep(cfg, s, now);
    MarkKeepsPhase(cfg, s, now);
  }

  lemma SameCellsSameMarks(s: Sys, t: Sys)
    requires t.cells == s.cells
    ensures forall c :: CandidateOk(s, c) ==> CandidateOk(t, c)
    ensures forall id :: Marked(s, id) ==> Marked(t, id)
  {}

  lemma SkipKeepsSweep(cfg: Config, s: Sys, now: Time)
    requires SweepOk(s) && Possible(cfg, s, SweepNext, now) && !MarksNext(cfg, s)
    ensures SweepOk(Next(cfg, s, SweepNext, now)) && Next(cfg, s, SweepNext, now).cells == s.cells
  {
    var t := Next(cfg, s, SweepNext, now);
    assert t.cells == s.cells;
    SameCellsSameMarks(s, t);
    if s.sweep.todo != [] {
      assert CandidateOk(s, s.sweep.todo[0]);
    }
  }

  lemma SkipKeepsInv(cfg: Config, s: Sys, now: Time)
    requires SysInv(cfg, s) && Possible(cfg, s, SweepNext, now) && !MarksNext(cfg, s)
    ensures SysInv(cfg, Next(cfg, s, SweepNext, now))
  {
    SkipKeepsSweep(cfg, s, now);
    TickAll(s, Next(cfg, s, SweepNext, now));
  }

  lemma ServeKeepsInv(cfg: Config, s: Sys, now: Time)
    requires SysInv(cfg, s) && Possible(cfg, s, Serve, now)
    ensures SysInv(cfg, Next(cfg, s, Serve, now))
  {
    var t := Next(cfg, s, Serve, now);
    TickAll(s, t);
    SameCellsSameMarks(s, t);
  }

  lemma DeleteKeepsInv(cfg: Config, s: Sys, now: Time)
    requires SysInv(cfg, s) && Possible(cfg, s, SweepDelete, now)
    ensures SysInv(cfg, Next(cfg, s, SweepDelete, now))
  {
    var t := Next(cfg, s, SweepDelete, now);
    TickAll(s, t);
    SameCellsSameMarks(s, t);
  }

  /** The cell event, if any, that `event` is for the job `id`. */
  ghost function Touches(cfg: Config, s: Sys, event: Event, id: Id): Option<CellEvent> {
    match event
    case OnCell(k, e) => if k == id then Some(e) else None
    case Kill => Some(Crash)
    case RecoverNext(raises, diff) =>
      if s.phase.Recovering? && s.phase.todo != [] && s.phase.todo[0] == id then Some(Recover(raises, diff)) else None
    case SweepNext => if MarksNext(cfg, s) && s.sweep.todo[0].id == id then Some(Mark(s.sweep.startedAt)) else None
    case _ => None
  }

  /** Every job is new, untouched, or took one enabled step of its own. */
  lemma NextCell(cfg: Config, s: Sys, event: Event, now: Time, id: Id)
    requires Possible(cfg, s, event, now) && id in Next(cfg, s, event, now).cells
    ensures var after := Next(cfg, s, event, now).cells[id];
            if id !in s.cells then event.Create? && event.id == id && after == NewCell(id, event.owner, now)
            else match Touches(cfg, s, event, id)
              case None => after == s.cells[id]
              case Some(e) => Enabled(s.cells[id], e) && after == Step(s.cells[id], e, now)
  {}

  lemma NextKeepsInv(cfg: Config, s: Sys, event: Event, now: Time)
    requires SysInv(cfg, s) && Possible(cfg, s, event, now)
    ensures SysInv(cfg, Next(cfg, s, event, now))
  {
    match event
    case Create(_, _) => CreateKeepsInv(cfg, s, event, now);
    case OnCell(_, _) => OnCellKeepsInv(cfg, s, event, now);
    case Kill => KillKeepsInv(cfg, s, now);
    case Restart(_) => RestartKeepsInv(cfg, s, event, now);
    case RecoverNext(_, _) => RecoverNextKeepsInv(cfg, s, event, now);
    case Serve => ServeKeepsInv(cfg, s, now);
    case SweepList(_) => SweepListKeepsInv(cfg, s, event, now);
    case SweepNext =>
      if MarksNext(cfg, s) {
        MarkKeepsInv(cfg, s, now);
      } else {
        SkipKeepsInv(cfg, s, now);
      }
    case SweepDelete => DeleteKeepsInv(cfg, s, now);
  }

  /** The invariant holds after every run. */
  lemma {:induction false} RunsKeepInv(cfg: Config, events: seq<Timed>)
    requires IsRun(cfg, events)
    ensures SysInv(cfg, StateAfter(cfg, events))
    decreases |events|
  {
    if events == [] {
      assert Holders(START.cells) == {};
    } else {
      var before, last := events[..|events| - 1], events[|events| - 1];
      RunsKeepInv(cfg, before);
      NextKeepsInv(cfg, StateAfter(cfg, before), last.event, last.now);
    }
  }
  // What the cap is for

  /** The task awaits its agent or another step of its run; the refresh of its `except` block is none. */
  predicate AtWork(task: Task) {
    task.pc.Agent? || (CanRaiseOther(task.pc) && !task.pc.Refreshing?)
  }

  predicate IsAtWork(cell: Cell) {
    exists i :: 0 <= i < |cell.tasks| && AtWork(cell.tasks[i])
  }

  lemma {:induction false} WorkTakesSlot(task: Task)
    ensures AtWork(task) ==> Holding(task)
  {}

  lemma {:induction false} WorkHoldsSlots(cells: map<Id, Cell>)
    ensures |Select(cells, IsAtWork)| <= |Holders(cells)|
  {
    forall id | id in Select(cells, IsAtWork)
      ensures id in Holders(cells)
    {
      var i :| 0 <= i < |cells[id].tasks| && AtWork(cells[id].tasks[i]);
      WorkTakesSlot(cells[id].tasks[i]);
    }
    SubsetSize(Select(cells, IsAtWork), Holders(cells));
  }

  /** In every run no more jobs are at work at a time than there are slots. */
  lemma {:induction false} WorkIsCapped(cfg: Config, events: seq<Timed>)
    requires IsRun(cfg, events)
    ensures |Select(StateAfter(cfg, events).cells, IsAtWork)| <= cfg.slots
  {
    RunsKeepInv(cfg, events);
    WorkHoldsSlots(StateAfter(cfg, events).cells);
  }

  /** A step that raises gives the slot back, before the `except` block refreshes anything. */
  lemma {:induction false} RaisingFreesSlot(turn: Turn, event: TaskEvent, now: Time)
    requires turn.task.Some? && TaskEnabled(turn.task.value, event) && (event.RaiseAppError? || event.RaiseOther?)
    ensures var after := TaskStep(turn, event, now).task; after.Some? ==> !Holding(after.value)
  {}
}
