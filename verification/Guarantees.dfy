/** What holds in every run of the service. */
module Guarantees {
  import opened Prelude
  import opened Models
  import opened Transitions
  import opened Sums
  import opened Spend
  import opened Lifecycle
  import opened LifecycleInvariant
  import opened System
  import opened SystemInvariant

  // Every job is running, finished, or known to be stuck

  /**
   In every run, while the service is up: a job is non-terminal exactly when it
   has one live task, whose local state is the stored one, or it is one of the
   excused jobs, which have none.
   */
  lemma {:induction false} UnfinishedJobsAreRunning(cfg: Config, events: seq<Timed>, id: Id)
    requires IsRun(cfg, events) && StateAfter(cfg, events).phase.Up? && id in StateAfter(cfg, events).cells
    ensures var s := StateAfter(cfg, events);
            var cell := s.cells[id];
            && (!IsTerminal(cell.stored.state) <==> |cell.tasks| == 1 || id in s.excused)
            && (id in s.excused ==> cell.tasks == [])
            && (cell.tasks != [] && !cell.tasks[0].pc.Entering? ==> cell.tasks[0].local.state == cell.stored.state)
  {
    RunsKeepInv(cfg, events);
    var s := StateAfter(cfg, events);
    assert Inv(s.cells[id], s.clock);
  }

  /** The two ways a job gets excused: its recovery raised, or its task was cancelled unstarted. */
  ghost predicate Excuses(s: Sys, event: Event, id: Id) {
    || (event.RecoverNext? && event.raises && s.phase.Recovering? && s.phase.todo != [] && s.phase.todo[0] == id)
    || (event.OnCell? && event.id == id && id in s.cells && CancelledUnstarted(s.cells[id], event.event))
  }

  /** Some event excused the job, and the process has not been restarted since. */
  ghost predicate WasExcused(cfg: Config, events: seq<Timed>, id: Id) {
    exists k :: 0 <= k < |events| && ExcusedAt(cfg, events, k, id)
  }

  ghost predicate ExcusedAt(cfg: Config, events: seq<Timed>, k: nat, id: Id)
    requires k < |events|
  {
    && IsRun(cfg, events[..k]) && Excuses(StateAfter(cfg, events[..k]), events[k].event, id)
    && forall j :: k < j < |events| ==> !events[j].event.Restart?
  }

  lemma {:induction false} ExcusedBefore(cfg: Config, events: seq<Timed>, k: nat, id: Id)
    requires events != [] && k < |events| - 1
    ensures ExcusedAt(cfg, events, k, id) <==>
      ExcusedAt(cfg, events[..|events| - 1], k, id) && !events[|events| - 1].event.Restart?
  {
    assert events[..|events| - 1][..k] == events[..k];
  }

  lemma {:induction false} ExcusedOneMore(cfg: Config, events: seq<Timed>, id: Id)
    requires events != [] && IsRun(cfg, events)
    ensures
      var before, last := events[..|events| - 1], events[|events| - 1];
      WasExcused(cfg, events, id) <==>
        || Excuses(StateAfter(cfg, before), last.event, id)
        || (!last.event.Restart? && WasExcused(cfg, before, id))
  {
    var n := |events| - 1;
    assert ExcusedAt(cfg, events, n, id) <==> Excuses(StateAfter(cfg, events[..n]), events[n].event, id);
    forall k | 0 <= k < n
      ensures ExcusedAt(cfg, events, k, id) <==> ExcusedAt(cfg, events[..n], k, id) && !events[n].event.Restart?
    {
      ExcusedBefore(cfg, events, k, id);
    }
  }

  lemma {:induction false} NextExcused(cfg: Config, s: Sys, event: Event, now: Time, id: Id)
    requires Possible(cfg, s, event, now)
    ensures id in Next(cfg, s, event, now).excused <==>
      Excuses(s, event, id) || (!event.Restart? && id in s.excused)
  {}

  /** Exactly those jobs are excused. */
  lemma {:induction false} ExcusedExactly(cfg: Config, events: seq<Timed>, id: Id)
    requires IsRun(cfg, events)
    ensures id in StateAfter(cfg, events).excused <==> WasExcused(cfg, events, id)
    decreases |events|
  {
    if events != [] {
      var before, last := events[..|events| - 1], events[|events| - 1];
      ExcusedExactly(cfg, before, id);
      ExcusedOneMore(cfg, events, id);
      NextExcused(cfg, StateAfter(cfg, before), last.event, last.now, id);
    }
  }

  /** A stranded cell takes no step of its own: only a crash or recovery can touch it. */
  lemma {:induction false} StuckCellIsIdle(cell: Cell, event: CellEvent, clock: Time)
    requires Inv(cell, clock) && cell.stranded && Enabled(cell, event)
    ensures event.Crash? || event.Recover?
  {}

  lemma {:induction false} StuckCellStays(cfg: Config, s: Sys, event: Event, now: Time, id: Id)
    requires Possible(cfg, s, event, now) && s.phase.Up? && !event.Kill?
    requires id in s.cells && Inv(s.cells[id], s.clock) && s.cells[id].stranded
    ensures id in Next(cfg, s, event, now).cells && Next(cfg, s, event, now).cells[id] == s.cells[id]
  {
    NextCell(cfg, s, event, now, id);
    var touch := Touches(cfg, s, event, id);
    if touch.Some? {
      StuckCellIsIdle(s.cells[id], touch.value, s.clock);
    }
  }

  lemma {:induction false} UpStays(cfg: Config, s: Sys, event: Event, now: Time)
    requires Possible(cfg, s, event, now) && s.phase.Up? && !event.Kill?
    ensures Next(cfg, s, event, now).phase.Up? && !event.Restart?
  {}

  ghost predicate IsStuck(s: Sys, id: Id) {
    && s.phase.Up? && id in s.excused && id in s.cells
    && s.cells[id].stranded && !IsTerminal(s.cells[id].stored.state) && s.cells[id].tasks == []
  }

  lemma {:induction false} ExcusedIsStuck(cfg: Config, s: Sys, id: Id)
    requires SysInv(cfg, s) && s.phase.Up? && id in s.excused
    ensures IsStuck(s, id)
  {
    assert Inv(s.cells[id], s.clock);
  }

  lemma {:induction false} NextKeepsStuck(cfg: Config, s: Sys, event: Event, now: Time, id: Id)
    requires CellsOk(s) && IsStuck(s, id) && Possible(cfg, s, event, now) && !event.Kill?
    ensures IsStuck(Next(cfg, s, event, now), id) && Next(cfg, s, event, now).cells[id] == s.cells[id]
  {
    StuckCellStays(cfg, s, event, now, id);
    UpStays(cfg, s, event, now);
    NextExcused(cfg, s, event, now, id);
  }

  /** Nothing finishes an excused job, or touches it at all, until the process ends. */
  lemma {:induction false} ExcusedJobsStayStuck(cfg: Config, events: seq<Timed>, n: nat, id: Id)
    requires IsRun(cfg, events) && n <= |events| && IsRun(cfg, events[..n])
    requires StateAfter(cfg, events[..n]).phase.Up? && id in StateAfter(cfg, events[..n]).excused
    requires forall k :: n <= k < |events| ==> !events[k].event.Kill?
    ensures
      var s, t := StateAfter(cfg, events[..n]), StateAfter(cfg, events);
      IsStuck(s, id) && IsStuck(t, id) && t.cells[id] == s.cells[id]
    decreases |events|
  {
    if n == |events| {
      assert events[..n] == events;
      RunsKeepInv(cfg, events);
      ExcusedIsStuck(cfg, StateAfter(cfg, events), id);
    } else {
      var before, last := events[..|events| - 1], events[|events| - 1];
      assert before[..n] == events[..n];
      ExcusedJobsStayStuck(cfg, before, n, id);
      RunsKeepInv(cfg, before);
      NextKeepsStuck(cfg, StateAfter(cfg, before), last.event, last.now, id);
    }
  }

  /** `P` holds of every event of the run, in the state it happens in. */
  ghost predicate Throughout(cfg: Config, events: seq<Timed>, P: (Sys, Event) -> bool)
    requires IsRun(cfg, events)
    decreases |events|
  {
    events == [] || (
      var before, last := events[..|events| - 1], events[|events| - 1];
      Throughout(cfg, before, P) && P(StateAfter(cfg, before), last.event))
  }

  /**
   A task cancelled before its first step leaves its job queued, with the
   service up and nothing running it.
   */
  lemma {:induction false} UnstartedCancelStrandsJob(cfg: Config, id: Id)
    ensures
      var events := [Timed(Create(id, None), 1), Timed(OnCell(id, OnTask(0, Cancel)), 2)];
      && IsRun(cfg, events)
      && StateAfter(cfg, events).phase.Up? && id in StateAfter(cfg, events).excused
      && StateAfter(cfg, events).cells[id].stored.state == Queued
      && StateAfter(cfg, events).cells[id].tasks == []
  {
    var create, cancel := Timed(Create(id, None), 1), Timed(OnCell(id, OnTask(0, Cancel)), 2);
    var events := [create, cancel];
    assert events[..1] == [create];
    assert [create][..0] == [];
    assert IsRun(cfg, []) && StateAfter(cfg, []) == START;
    assert IsRun(cfg, [create]);
    var s := StateAfter(cfg, [create]);
    assert s.cells[id] == NewCell(id, None, 1);
    assert IsRun(cfg, events);
  }

  // Recovery

  /** Recovery in which no handler raised leaves every job terminal. */
  lemma {:induction false} RecoveryFinishesEveryJob(cfg: Config, events: seq<Timed>)
    requires IsRun(cfg, events)
    requires StateAfter(cfg, events).phase == Recovering([]) && StateAfter(cfg, events).excused == {}
    ensures forall id :: id in StateAfter(cfg, events).cells ==> IsTerminal(StateAfter(cfg, events).cells[id].stored.state)
  {
    RunsKeepInv(cfg, events);
    var s := StateAfter(cfg, events);
    forall id | id in s.cells
      ensures IsTerminal(s.cells[id].stored.state)
    {
      assert Inv(s.cells[id], s.clock);
    }
  }

  /** Until the service is up again, a crash and the recovery after it change no terminal job. */
  lemma {:induction false} RecoveryLeavesFinishedJobsAlone(
    cfg: Config, events: seq<Timed>, event: Event, now: Time, id: Id)
    requires IsRun(cfg, events) && Possible(cfg, StateAfter(cfg, events), event, now)
    requires event.Kill? || event.Restart? || event.RecoverNext? || event.Serve?
    requires id in StateAfter(cfg, events).cells && IsTerminal(StateAfter(cfg, events).cells[id].stored.state)
    ensures var s := StateAfter(cfg, events);
            Next(cfg, s, event, now).cells[id].stored == s.cells[id].stored
  {}

  // Agents run at most once

  /**
   Over a job's whole history, with crashes and restarts anywhere: at most one
   plan run, at most one implementation run, and at most one correction run
   that did not give its attempt back.
   */
  lemma {:induction false} AgentsRunAtMostOnce(cfg: Config, events: seq<Timed>, id: Id)
    requires IsRun(cfg, events) && id in StateAfter(cfg, events).cells
    ensures var ledger := StateAfter(cfg, events).cells[id].ledger;
            && ledger.planCalls <= 1 && ledger.implCalls <= 1
            && ledger.correctionCalls <= ledger.refunds + 1
  {
    RunsKeepInv(cfg, events);
    assert Inv(StateAfter(cfg, events).cells[id], StateAfter(cfg, events).clock);
  }

  /** No step but the spend check raises BUDGET_LIMIT_REACHED. */
  predicate NoStepSaysBudget(event: CellEvent) {
    event.OnTask? ==>
      && (event.event.RaiseAppError? ==> event.event.code != BudgetLimitReached)
      && (event.event.Finish? && event.event.outcome.Refused? ==> event.event.outcome.code != BudgetLimitReached)
  }

  ghost function OnlyChecksSayBudget(): (Sys, Event) -> bool {
    (s: Sys, event: Event) => event.OnCell? ==> NoStepSaysBudget(event.event)
  }

  /** Only a correction refused before its agent started carries the budget code. */
  predicate NoRefund(turn: Turn) {
    && turn.ledger.refunds == 0
    && (turn.task.Some? && turn.task.value.pc.Restoring? && turn.task.value.pc.outcome.Refused?
        ==> turn.task.value.pc.outcome.code != BudgetLimitReached)
    && (Live(turn, CorrectRun) && turn.task.value.pc == Refreshing(BudgetLimitReached)
        ==> turn.ledger.correctionCalls == 0)
  }

  lemma ProceedKeepsNoRefund(turn: Turn, event: TaskEvent, clock: Time, now: Time)
    requires TurnInv(turn, clock) && NoRefund(turn) && turn.task.Some? && TaskEnabled(turn.task.value, event)
    requires event.Proceed?
    ensures NoRefund(TaskStep(turn, event, now))
  {
    var pc := turn.task.value.pc;
    if !pc.Refreshing? {
      assert TaskStep(turn, event, now).ledger.refunds == turn.ledger.refunds;
    }
  }

  lemma TaskStepKeepsNoRefund(turn: Turn, event: TaskEvent, clock: Time, now: Time)
    requires TurnInv(turn, clock) && NoRefund(turn) && turn.task.Some? && TaskEnabled(turn.task.value, event)
    requires NoStepSaysBudget(OnTask(0, event))
    ensures NoRefund(TaskStep(turn, event, now))
  {
    if event.Proceed? {
      ProceedKeepsNoRefund(turn, event, clock, now);
    }
  }

  lemma StepKeepsNoRefund(cell: Cell, event: CellEvent, clock: Time, now: Time)
    requires Inv(cell, clock) && NoRefund(View(cell)) && Enabled(cell, event) && NoStepSaysBudget(event)
    ensures NoRefund(View(Step(cell, event, now)))
  {
    match event
    case OnTask(i, e) =>
      TaskStepKeepsNoRefund(View(cell), e, clock, now);
      OnTaskView(cell, event, now);
    case _ =>
  }

  lemma {:induction false} NobodyRefunds(cfg: Config, events: seq<Timed>, id: Id)
    requires IsRun(cfg, events) && Throughout(cfg, events, OnlyChecksSayBudget())
    requires id in StateAfter(cfg, events).cells
    ensures NoRefund(View(StateAfter(cfg, events).cells[id]))
    decreases |events|
  {
    var before, last := events[..|events| - 1], events[|events| - 1];
    var s := StateAfter(cfg, before);
    NextCell(cfg, s, last.event, last.now, id);
    RunsKeepInv(cfg, before);
    if id in s.cells {
      NobodyRefunds(cfg, before, id);
      var touch := Touches(cfg, s, last.event, id);
      if touch.Some? {
        StepKeepsNoRefund(s.cells[id], touch.value, s.clock, last.now);
      }
    }
  }

  /** The correction agent, too, runs at most once, as only the spend check raises the budget code. */
  lemma {:induction false} CorrectionRunsAtMostOnce(cfg: Config, events: seq<Timed>, id: Id)
    requires IsRun(cfg, events) && Throughout(cfg, events, OnlyChecksSayBudget())
    requires id in StateAfter(cfg, events).cells
    ensures StateAfter(cfg, events).cells[id].ledger.correctionCalls <= 1
  {
    NobodyRefunds(cfg, events, id);
    AgentsRunAtMostOnce(cfg, events, id);
  }

  ghost function CellSteps(cell: Cell, events: seq<CellEvent>, now: Time): Option<Cell>
    decreases |events|
  {
    if events == [] then Some(cell)
    else if !Enabled(cell, events[0]) then None
    else CellSteps(Step(cell, events[0], now), events[1..], now + 1)
  }

  lemma {:induction false} FirstStep(cell: Cell, events: seq<CellEvent>, now: Time)
    requires events != []
    ensures CellSteps(cell, events, now) ==
      if !Enabled(cell, events[0]) then None else CellSteps(Step(cell, events[0], now), events[1..], now + 1)
  {}

  lemma {:induction false} TwoSteps(c0: Cell, c1: Cell, c2: Cell, events: seq<CellEvent>, now: Time)
    requires |events| == 2 && Enabled(c0, events[0]) && Step(c0, events[0], now) == c1
    requires Enabled(c1, events[1]) && Step(c1, events[1], now + 1) == c2
    ensures CellSteps(c0, events, now) == Some(c2)
  {
    assert CellSteps(c2, [], now + 2) == Some(c2);
    assert CellSteps(c1, events[1..], now + 1) == Some(c2);
  }

  lemma {:induction false} ThreeSteps(c0: Cell, c1: Cell, c2: Cell, c3: Cell, events: seq<CellEvent>, now: Time)
    requires |events| == 3 && Enabled(c0, events[0]) && Step(c0, events[0], now) == c1
    requires Enabled(c1, events[1]) && Step(c1, events[1], now + 1) == c2
    requires Enabled(c2, events[2]) && Step(c2, events[2], now + 2) == c3
    ensures CellSteps(c0, events, now) == Some(c3)
  {
    TwoSteps(c1, c2, c3, events[1..], now + 1);
  }

  const CORRECTION_REACHES_AGENT: seq<CellEvent> := [
    Correct(true), OnTask(0, Begin), OnTask(0, Grant(false, true)), OnTask(0, Proceed(Nothing))]

  /** The agent's error carries the spend check's code, and a usage. */
  function AgentSaysBudgetWith(carried: Option<AgentUsage>): seq<CellEvent> {
    [OnTask(0, Finish(Refused(BudgetLimitReached, carried))), OnTask(0, Proceed(Nothing)),
     OnTask(0, Proceed(Collection(None)))]
  }

  /** A correctable job whose correction, started at `now`, has called its agent. */
  function Running(cell: Cell, now: Time): Cell {
    var job := cell.stored.(state := Correcting, correctionStartedAt := Some(now + 2), updatedAt := now + 3);
    Cell(job, [Task(CorrectRun, Agent, job)],
         cell.ledger.(correctionCalls := cell.ledger.correctionCalls + 1), false)
  }

  /** A correctable job as the route leaves it. */
  function CorrectionTaken(cell: Cell, now: Time): Cell {
    var job := Stamped(CorrectionQueued(cell.stored), now);
    Cell(job, [Task(CorrectRun, Entering, job)], cell.ledger, false)
  }

  lemma {:induction false} TakenReachesAgent(cell: Cell, now: Time)
    requires HasText(cell.stored.workspacePath)
    ensures CellSteps(CorrectionTaken(cell, now), CORRECTION_REACHES_AGENT[1..], now + 1) == Some(Running(cell, now))
  {
    var taken := CorrectionTaken(cell, now);
    var job := taken.stored.(correctionStartedAt := Some(now + 2), updatedAt := now + 2);
    ThreeSteps(taken, taken.(tasks := [Task(CorrectRun, Waiting, taken.stored)]),
               taken.(stored := job, tasks := [Task(CorrectRun, Preparing, job)]), Running(cell, now),
               CORRECTION_REACHES_AGENT[1..], now + 1);
  }

  /** Any correctable job can reach its correction agent. */
  lemma {:induction false} CorrectionReachesAgent(cell: Cell, clock: Time, now: Time)
    requires Inv(cell, clock) && CanCorrect(cell.stored) && clock < now
    ensures CellSteps(cell, CORRECTION_REACHES_AGENT, now) == Some(Running(cell, now))
  {
    assert cell.tasks == [] && !cell.stranded;
    assert Step(cell, CORRECTION_REACHES_AGENT[0], now) == CorrectionTaken(cell, now);
    TakenReachesAgent(cell, now);
    FirstStep(cell, CORRECTION_REACHES_AGENT, now);
  }

  /** A correctable job after a correction whose agent said so, started at `now`. */
  function GivenBack(cell: Cell, carried: Option<AgentUsage>, now: Time): Cell {
    var job := cell.stored.(state := Correcting, correctionStartedAt := Some(now + 2));
    var failed := CorrectionFailed(WithUsage(job, CorrectRun, carried), BudgetLimitReached, false);
    var ledger := cell.ledger.(correctionCalls := cell.ledger.correctionCalls + 1);
    Cell(Stamped(failed, now + 6), [], Refunded(Book(ledger, CorrectRun, carried)), false)
  }

  /** That job as the `except` block refreshes its diff. */
  function HandlingBudget(cell: Cell, carried: Option<AgentUsage>, now: Time): Cell {
    var running := Running(cell, now);
    var local := WithUsage(running.stored, CorrectRun, carried);
    running.(tasks := [Task(CorrectRun, Refreshing(BudgetLimitReached), local)],
             ledger := Book(running.ledger, CorrectRun, carried))
  }

  lemma {:induction false} HandlerGivesBack(cell: Cell, carried: Option<AgentUsage>, now: Time)
    ensures
      var handling, refreshed := HandlingBudget(cell, carried, now), OnTask(0, Proceed(Collection(None)));
      Enabled(handling, refreshed) && Step(handling, refreshed, now + 6) == GivenBack(cell, carried, now)
  {}

  lemma {:induction false} AgentSaysBudget(cell: Cell, carried: Option<AgentUsage>, now: Time)
    ensures CellSteps(Running(cell, now), AgentSaysBudgetWith(carried), now + 4) == Some(GivenBack(cell, carried, now))
  {
    var running, handling := Running(cell, now), HandlingBudget(cell, carried, now);
    var restoring := handling.(
      tasks := [Task(CorrectRun, Restoring(Refused(BudgetLimitReached, carried)), running.stored)]);
    HandlerGivesBack(cell, carried, now);
    ThreeSteps(running, restoring, handling, GivenBack(cell, carried, now), AgentSaysBudgetWith(carried), now + 4);
  }

  lemma {:induction false} GivenBackKeepsInv(cell: Cell, carried: Option<AgentUsage>, clock: Time, now: Time)
    requires Inv(cell, clock) && CanCorrect(cell.stored) && clock < now
    ensures Inv(GivenBack(cell, carried, now), now + 6) && CanCorrect(GivenBack(cell, carried, now).stored)
  {}

  function RefundedCorrection(carried: Option<AgentUsage>): seq<CellEvent> {
    CORRECTION_REACHES_AGENT + AgentSaysBudgetWith(carried)
  }

  lemma {:induction false} CellStepsAppend(
    cell: Cell, a: seq<CellEvent>, between: Cell, b: seq<CellEvent>, after: Cell, now: Time)
    requires CellSteps(cell, a, now) == Some(between) && CellSteps(between, b, now + |a|) == Some(after)
    ensures CellSteps(cell, a + b, now) == Some(after)
    decreases |a|
  {
    if a == [] {
      assert a + b == b;
    } else {
      assert (a + b)[0] == a[0] && (a + b)[1..] == a[1..] + b;
      FirstStep(cell, a, now);
      FirstStep(cell, a + b, now);
      CellStepsAppend(Step(cell, a[0], now), a[1..], between, b, after, now + 1);
    }
  }

  /**
   That condition is needed. Were an agent error to carry the spend check's
   code, any correctable job would get its attempt back after its agent ran.
   */
  lemma {:induction false} BudgetCodeGivesAttemptBack(
    cell: Cell, carried: Option<AgentUsage>, clock: Time, now: Time)
    requires Inv(cell, clock) && CanCorrect(cell.stored) && clock < now
    ensures CellSteps(cell, RefundedCorrection(carried), now) == Some(GivenBack(cell, carried, now))
    ensures CanCorrect(GivenBack(cell, carried, now).stored)
    ensures GivenBack(cell, carried, now).ledger.correctionCalls == cell.ledger.correctionCalls + 1
  {
    CorrectionReachesAgent(cell, clock, now);
    AgentSaysBudget(cell, carried, now);
    AfterReachingAgent(cell, AgentSaysBudgetWith(carried), GivenBack(cell, carried, now), now);
    GivenBackKeepsInv(cell, carried, clock, now);
  }

  /**
   The attempt is used up only after the correction's start was saved; so a
   correction refused for budget, or lost in a crash before that save, keeps
   it. A correction whose agent ran, and gave nothing back, has used it up.
   */
  lemma {:induction false} AttemptIsUsedByRunning(cfg: Config, events: seq<Timed>, id: Id)
    requires IsRun(cfg, events) && id in StateAfter(cfg, events).cells
    ensures var cell := StateAfter(cfg, events).cells[id];
            && (cell.stored.correctionAttempted ==> cell.stored.correctionStartedAt.Some?)
            && (cell.stored.state == ImplementationReady && cell.ledger.correctionCalls > cell.ledger.refunds
                ==> cell.stored.correctionAttempted)
  {
    RunsKeepInv(cfg, events);
    assert Inv(StateAfter(cfg, events).cells[id], StateAfter(cfg, events).clock);
  }

  // How a correction ends

  /** Cancellation reached the task past its first step, or the refresh in its `except` block raised. */
  predicate CutsShort(task: Task, event: TaskEvent) {
    || event.Cancel?
    || (event.RaiseOther? && task.pc.Refreshing?)
    || (event.Proceed? && task.pc == Restoring(Interrupted))
  }

  /**
   A correction that ends puts its job back to ready unless it is cut short;
   then, and only then, the job fails. Either way the implementation's own
   result stays.
   */
  lemma CorrectionEndsReadyUnlessCutShort(turn: Turn, event: TaskEvent, clock: Time, now: Time)
    requires TurnInv(turn, clock) && Live(turn, CorrectRun) && TaskEnabled(turn.task.value, event)
    ensures var after := TaskStep(turn, event, now);
            && after.stored.implementationResult == turn.stored.implementationResult
            && (after.task.None? && !turn.task.value.pc.Entering? ==>
                  after.stored.state == if CutsShort(turn.task.value, event)
                                        then ImplementationFailed else ImplementationReady)
  {
    if event.Proceed? {
      CorrectionProceedsToReady(turn, event, clock, now);
    }
  }

  /** The step keeps the implementation's result, and if it ends the task, it ends it in this state. */
  predicate EndsIn(turn: Turn, after: Turn, state: JobState) {
    && after.stored.implementationResult == turn.stored.implementationResult
    && (after.task.None? ==> after.stored.state == state)
  }

  lemma {:induction false} RestoredEndsIn(turn: Turn, event: TaskEvent, clock: Time, now: Time)
    requires TurnInv(turn, clock) && Live(turn, CorrectRun) && TaskEnabled(turn.task.value, event) && event.Proceed?
    requires turn.task.value.pc.Restoring?
    ensures EndsIn(turn, TaskStep(turn, event, now), ImplementationFailed)
    ensures TaskStep(turn, event, now).task.None? ==> turn.task.value.pc.outcome.Interrupted?
  {}

  /** The points where a correction that goes on ends. */
  predicate Ends(pc: Pc) {
    pc.Validating? || pc.Refreshing?
  }

  lemma {:induction false} LastStepEndsIn(turn: Turn, event: TaskEvent, clock: Time, now: Time)
    requires TurnInv(turn, clock) && Live(turn, CorrectRun) && TaskEnabled(turn.task.value, event) && event.Proceed?
    requires Ends(turn.task.value.pc)
    ensures EndsIn(turn, TaskStep(turn, event, now), ImplementationReady)
  {}

  lemma {:induction false} EarlierStepGoesOn(turn: Turn, event: TaskEvent, clock: Time, now: Time)
    requires TurnInv(turn, clock) && Live(turn, CorrectRun) && TaskEnabled(turn.task.value, event) && event.Proceed?
    requires !turn.task.value.pc.Restoring? && !Ends(turn.task.value.pc)
    ensures TaskStep(turn, event, now).task.Some?
    ensures TaskStep(turn, event, now).stored.implementationResult == turn.stored.implementationResult
  {}

  lemma {:induction false} CorrectionProceedsToReady(turn: Turn, event: TaskEvent, clock: Time, now: Time)
    requires TurnInv(turn, clock) && Live(turn, CorrectRun) && TaskEnabled(turn.task.value, event) && event.Proceed?
    ensures EndsIn(turn, TaskStep(turn, event, now),
                   if CutsShort(turn.task.value, event) then ImplementationFailed else ImplementationReady)
  {
    if turn.task.value.pc.Restoring? {
      RestoredEndsIn(turn, event, clock, now);
    } else if Ends(turn.task.value.pc) {
      LastStepEndsIn(turn, event, clock, now);
    } else {
      EarlierStepGoesOn(turn, event, clock, now);
    }
  }

  /** The agent fails, and the refresh in the `except` block is cut short. */
  function RefreshCut(cut: TaskEvent): seq<CellEvent> {
    [OnTask(0, Finish(Crashed)), OnTask(0, Proceed(Nothing)), OnTask(0, cut)]
  }

  /** A job whose correction, started at `now`, ended so. */
  function FailedByCut(cell: Cell, now: Time): (failed: Cell)
    ensures failed.stored.state == ImplementationFailed && failed.tasks == []
    ensures failed.stored.error == Some(JobError(Internal, Correcting))
  {
    var running := Running(cell, now);
    running.(stored := Stamped(FailedAs(running.stored, Internal, ImplementationFailed), now + 6), tasks := [])
  }

  lemma {:induction false} CutFails(cell: Cell, cut: TaskEvent, now: Time)
    requires cut.RaiseOther? || cut.Cancel?
    ensures
      var running := Running(cell, now);
      var refreshing := running.(tasks := [Task(CorrectRun, Refreshing(Internal), running.stored)]);
      Enabled(refreshing, OnTask(0, cut)) && Step(refreshing, OnTask(0, cut), now + 6) == FailedByCut(cell, now)
  {}

  lemma {:induction false} RefreshCutSteps(cell: Cell, cut: TaskEvent, now: Time)
    requires cut.RaiseOther? || cut.Cancel?
    ensures CellSteps(Running(cell, now), RefreshCut(cut), now + 4) == Some(FailedByCut(cell, now))
  {
    var running := Running(cell, now);
    assert running.ledger.correctionBooked + [] == running.ledger.correctionBooked;
    CutFails(cell, cut, now);
    ThreeSteps(running, running.(tasks := [Task(CorrectRun, Restoring(Crashed), running.stored)]),
               running.(tasks := [Task(CorrectRun, Refreshing(Internal), running.stored)]),
               FailedByCut(cell, now), RefreshCut(cut), now + 4);
  }

  lemma {:induction false} AfterReachingAgent(cell: Cell, events: seq<CellEvent>, after: Cell, now: Time)
    requires CellSteps(cell, CORRECTION_REACHES_AGENT, now) == Some(Running(cell, now))
    requires CellSteps(Running(cell, now), events, now + 4) == Some(after)
    ensures CellSteps(cell, CORRECTION_REACHES_AGENT + events, now) == Some(after)
  {
    CellStepsAppend(cell, CORRECTION_REACHES_AGENT, Running(cell, now), events, after, now);
  }

  function FailingCorrection(cut: TaskEvent): seq<CellEvent> {
    CORRECTION_REACHES_AGENT + RefreshCut(cut)
  }

  /** So from any correctable job a failing correction can leave the job failed. */
  lemma {:induction false} FailedCorrectionCanFailJob(cell: Cell, cut: TaskEvent, clock: Time, now: Time)
    requires Inv(cell, clock) && CanCorrect(cell.stored) && clock < now
    requires cut.RaiseOther? || cut.Cancel?
    ensures CellSteps(cell, FailingCorrection(cut), now) == Some(FailedByCut(cell, now))
  {
    CorrectionReachesAgent(cell, clock, now);
    RefreshCutSteps(cell, cut, now);
    AfterReachingAgent(cell, RefreshCut(cut), FailedByCut(cell, now), now);
  }

  // Retention

  /** In every run the sweep deletes only workspaces of finished jobs that are marked and run no task. */
  lemma {:induction false} DeletedMeansFinished(cfg: Config, events: seq<Timed>, id: Id)
    requires IsRun(cfg, events) && id in StateAfter(cfg, events).deleted
    ensures var s := StateAfter(cfg, events);
            && id in s.cells && s.cells[id].stored.workspaceRemovedAt.Some?
            && IsTerminal(s.cells[id].stored.state) && s.cells[id].tasks == []
  {
    RunsKeepInv(cfg, events);
    var s := StateAfter(cfg, events);
    assert Inv(s.cells[id], s.clock);
  }

  lemma NextKeepsMarked(cfg: Config, s: Sys, event: Event, now: Time, id: Id)
    requires CellsOk(s) && Possible(cfg, s, event, now) && Marked(s, id)
    ensures var t := Next(cfg, s, event, now);
            id in t.cells && t.cells[id].stored == s.cells[id].stored
  {
    NextCell(cfg, s, event, now, id);
    var touch := Touches(cfg, s, event, id);
    if touch.Some? {
      StepMovesRecord(s.cells[id], touch.value, s.clock, now);
    }
  }

  /** A marked record is never saved again, however the run goes on. */
  lemma {:induction false} MarkedIsFinal(cfg: Config, events: seq<Timed>, n: nat, id: Id)
    requires IsRun(cfg, events) && n <= |events| && IsRun(cfg, events[..n])
    requires Marked(StateAfter(cfg, events[..n]), id)
    ensures id in StateAfter(cfg, events).cells
    ensures StateAfter(cfg, events).cells[id].stored == StateAfter(cfg, events[..n]).cells[id].stored
    decreases |events|
  {
    if n == |events| {
      assert events[..n] == events;
    } else {
      var before, last := events[..|events| - 1], events[|events| - 1];
      assert before[..n] == events[..n];
      MarkedIsFinal(cfg, before, n, id);
      RunsKeepInv(cfg, before);
      NextKeepsMarked(cfg, StateAfter(cfg, before), last.event, last.now, id);
    }
  }

  /** No route or task of any job ever acts on a workspace the sweep has begun to delete. */
  lemma {:induction false} NothingRunsOnDeletedWorkspace(
    cfg: Config, events: seq<Timed>, id: Id, event: CellEvent, now: Time)
    requires IsRun(cfg, events) && Possible(cfg, StateAfter(cfg, events), OnCell(id, event), now)
    ensures id !in StateAfter(cfg, events).deleted
  {
    if id in StateAfter(cfg, events).deleted {
      DeletedMeansFinished(cfg, events, id);
    }
  }

  /**
   The mark lands only on a finished record that is byte for byte what the
   sweep listed, older than the retention period, and writes nothing else.
   */
  lemma {:induction false} MarkChangesOnlyItsStamp(cfg: Config, events: seq<Timed>, now: Time, id: Id)
    requires IsRun(cfg, events) && Possible(cfg, StateAfter(cfg, events), SweepNext, now)
    requires id in StateAfter(cfg, events).cells
    ensures var s := StateAfter(cfg, events);
            var before, after := s.cells[id].stored, Next(cfg, s, SweepNext, now).cells[id].stored;
            after != before ==>
              && s.sweep.todo[0].id == id && before == s.sweep.todo[0].listed
              && IsTerminal(before.state) && before.updatedAt <= s.sweep.startedAt - cfg.retention
              && after == before.(workspaceRemovedAt := Some(s.sweep.startedAt))
  {
    RunsKeepInv(cfg, events);
    var s := StateAfter(cfg, events);
    NextCell(cfg, s, SweepNext, now, id);
    if MarksNext(cfg, s) {
      assert CandidateOk(s, s.sweep.todo[0]);
    }
  }

  // The spend check

  /** In every run every recorded cost is stamped no later than its record's last save. */
  lemma {:induction false} CostsAreStampedByUpdates(cfg: Config, events: seq<Timed>)
    requires IsRun(cfg, events)
    ensures
      var rows := StoredRows(StateAfter(cfg, events).cells);
      forall id :: id in rows ==> StampedByUpdate(rows[id])
  {
    RunsKeepInv(cfg, events);
    var s := StateAfter(cfg, events);
    forall id | id in s.cells
      ensures StampedByUpdate(s.cells[id].stored)
    {
      assert Inv(s.cells[id], s.clock);
    }
  }
}
