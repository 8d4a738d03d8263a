/**
 The three runners as the straight-line code they are: a task that updates its
 own copy of the job, saves it, awaits, and handles what is raised. Each is
 proved to be a path of the lifecycle protocol that ends with the record the
 protocol leaves, whatever every await does.
 */
module Runner {
  import opened Prelude
  import opened Models
  import opened Transitions
  import opened Store
  import opened Limits
  import opened Lifecycle
  import opened LifecycleInvariant

  // Paths of the protocol

  datatype TimedStep = TimedStep(event: TaskEvent, now: Time)

  ghost predicate IsPath(start: Turn, path: seq<TimedStep>)
    decreases |path|, 0
  {
    path == [] || (
      var before, last := path[..|path| - 1], path[|path| - 1];
      && IsPath(start, before)
      && PathEnd(start, before).task.Some?
      && TaskEnabled(PathEnd(start, before).task.value, last.event))
  }

  ghost function PathEnd(start: Turn, path: seq<TimedStep>): Turn
    requires IsPath(start, path)
    decreases |path|, 1
  {
    if path == [] then start
    else
      var before, last := path[..|path| - 1], path[|path| - 1];
      TaskStep(PathEnd(start, before), last.event, last.now)
  }

  lemma {:induction false} OneStepMore(start: Turn, path: seq<TimedStep>, step: TimedStep)
    requires IsPath(start, path) && PathEnd(start, path).task.Some?
    requires TaskEnabled(PathEnd(start, path).task.value, step.event)
    ensures IsPath(start, path + [step])
    ensures PathEnd(start, path + [step]) == TaskStep(PathEnd(start, path), step.event, step.now)
  {
    assert (path + [step])[..|path|] == path;
  }

  // What the awaits do

  datatype Awaited<T> =
    | Value(value: T)
    | RaisesApp(code: ErrorCode)
    | RaisesOther
    | IsCancelled

  // An await that raises no typed error.
  datatype Quiet<T> = Yields(value: T) | Raises | Stops

  datatype AgentEnd = Ends(outcome: Outcome) | Stopped

  /** How the body of a runner leaves its `try`. */
  datatype Exit =
    | Done
    | AppRaised(code: ErrorCode, usage: Option<AgentUsage>)
    | OtherRaised
    | Uncaught

  /** The code and usage the `except` block works with. */
  function CodeOf(exit: Exit): ErrorCode {
    if exit.AppRaised? then exit.code else Internal
  }

  function CarriedBy(exit: Exit): Option<AgentUsage> {
    if exit.AppRaised? then exit.usage else None
  }

  function ExitOf<T>(awaited: Awaited<T>): Exit {
    match awaited
    case Value(_) => Done
    case RaisesApp(code) => AppRaised(code, None)
    case RaisesOther => OtherRaised
    case IsCancelled => Uncaught
  }

  function QuietExit<T>(awaited: Quiet<T>): Exit {
    match awaited
    case Yields(_) => Done
    case Raises => OtherRaised
    case Stops => Uncaught
  }

  function AgentExit(agent: AgentEnd): Exit {
    if agent.Stopped? then Uncaught
    else match agent.outcome
      case PlanReturned(_, _) => Done
      case ImplReturned(_, _) => Done
      case Refused(code, carried) => AppRaised(code, carried)
      case _ => OtherRaised
  }

  /** The first of two stretches that does not run through decides. */
  function Then(first: Exit, second: Exit): Exit {
    if first.Done? then second else first
  }

  /** The next step of the protocol is the one the raised exception stands for. */
  predicate Leads(turn: Turn, event: TaskEvent, exit: Exit, now: Time) {
    && turn.task.Some? && TaskEnabled(turn.task.value, event)
    && var next := TaskStep(turn, event, now);
       var raised := if exit.Uncaught? then FinallyBlock(turn, turn.task.value.kind, now)
                     else EnterHandler(turn, CodeOf(exit), CarriedBy(exit), now);
       next.stored == raised.stored && next.task == raised.task
  }

  predicate OthersKept(before: map<Id, Job>, after: map<Id, Job>, id: Id) {
    before.Keys == after.Keys && forall other :: other in before && other != id ==> after[other] == before[other]
  }

  // What a save's own timestamp is put into afterwards.
  datatype Stamping = NoField | StartedAt | FinishedAt

  function Restamped(saved: Job, stamping: Stamping): Job {
    match stamping
    case NoField => saved
    case StartedAt => saved.(startedAt := Some(saved.updatedAt))
    case FinishedAt => saved.(finishedAt := Some(saved.updatedAt))
  }

  class JobTask {
    const store: JobStore
    const id: Id
    const kind: Kind
    const clock: nat -> Time
    const budget: Option<real>
    var tick: nat
    var job: Job
    ghost const start: Turn
    ghost var path: seq<TimedStep>

    ghost predicate Valid()
      reads this, store
    {
      && id in store.rows && store.rows[id].id == id
      && IsPath(start, path) && PathEnd(start, path).stored == store.rows[id]
    }

    /** Alive, and the protocol's task is at `pc` with this task's copy. */
    ghost predicate At(pc: Pc)
      reads this, store
    {
      && Valid() && PathEnd(start, path).task == Some(Task(kind, pc, job)) && job.id == id
      && (if pc.Waiting? then job == store.rows[id] == start.stored
          else pc.Refreshing? || (!IsTerminal(job.state) && !IsTerminal(store.rows[id].state)))
    }

    ghost predicate Alive()
      reads this, store
    {
      Valid() && PathEnd(start, path).task.Some? && PathEnd(start, path).task.value.kind == kind
    }

    ghost predicate Ended()
      reads this, store
    {
      Valid() && PathEnd(start, path).task.None?
    }

    ghost predicate Raising(exit: Exit, event: TaskEvent)
      reads this, store
    {
      && Alive() && PathEnd(start, path).task.value.local == job && job.id == id
      && Leads(PathEnd(start, path), event, exit, clock(tick))
      && (IsTerminal(store.rows[id].state) ==> !exit.Uncaught? && store.rows[id] == start.stored)
    }

    /** What stood both on the copy and on the record as the baseline still does. */
    twostate predicate KeepsBaseline()
      reads this, store
    {
      id in old(store.rows) && old(job.baseline) == old(store.rows[id].baseline) ==>
        id in store.rows && job.baseline == old(job.baseline) && store.rows[id].baseline == old(job.baseline)
    }

    /** `job = store.get(job_id)`: the task's first step. */
    constructor (
      store: JobStore, id: Id, kind: Kind, clock: nat -> Time, budget: Option<real>, ghost ledger: Ledger)
      requires id in store.rows && store.rows[id].id == id
      ensures this.store == store && this.id == id && this.kind == kind && this.clock == clock
      ensures this.budget == budget && tick == 1
      ensures start == Turn(store.rows[id], Some(Task(kind, Entering, store.rows[id])), ledger)
      ensures At(Waiting)
    {
      this.store, this.id, this.kind, this.clock, this.budget := store, id, kind, clock, budget;
      tick := 1;
      job := store.rows[id];
      start := Turn(store.rows[id], Some(Task(kind, Entering, store.rows[id])), ledger);
      path := [TimedStep(Begin, clock(0))];
      new;
      assert path[..0] == [];
    }

    /** `store.save(job)` with `job` updated first; the task goes on to `pc`. */
    method Save(updated: Job, stamping: Stamping, ghost pc: Pc, ghost event: TaskEvent)
      requires Alive() && updated.id == id && !IsTerminal(updated.state) && !pc.Waiting?
      requires TaskEnabled(PathEnd(start, path).task.value, event)
      requires
        var next, saved := TaskStep(PathEnd(start, path), event, clock(tick)), Stamped(updated, clock(tick));
        next.stored == saved && next.task == Some(Task(kind, pc, Restamped(saved, stamping)))
      modifies this, store
      ensures At(pc) && job == Restamped(Stamped(updated, clock(old(tick))), stamping)
      ensures store.rows[id] == Stamped(updated, clock(old(tick)))
      ensures OthersKept(old(store.rows), store.rows, id)
    {
      OneStepMore(start, path, TimedStep(event, clock(tick)));
      path := path + [TimedStep(event, clock(tick))];
      var saved := store.Save(updated, clock(tick));
      job := Restamped(saved, stamping);
      tick := tick + 1;
    }

    /** The task goes on to `pc` without a save. */
    method Move(updated: Job, ghost pc: Pc, ghost event: TaskEvent)
      requires Alive() && updated.id == id && !pc.Waiting?
      requires !pc.Refreshing? ==> !IsTerminal(updated.state) && !IsTerminal(store.rows[id].state)
      requires TaskEnabled(PathEnd(start, path).task.value, event)
      requires
        var next := TaskStep(PathEnd(start, path), event, clock(tick));
        next.stored == PathEnd(start, path).stored && next.task == Some(Task(kind, pc, updated))
      modifies this
      ensures At(pc) && job == updated
    {
      OneStepMore(start, path, TimedStep(event, clock(tick)));
      path := path + [TimedStep(event, clock(tick))];
      job := updated;
      tick := tick + 1;
    }

    /** The last save: the task ends. */
    method SaveLast(updated: Job, ghost event: TaskEvent)
      requires Alive() && updated.id == id
      requires TaskEnabled(PathEnd(start, path).task.value, event)
      requires
        var next := TaskStep(PathEnd(start, path), event, clock(tick));
        next.stored == Stamped(updated, clock(tick)) && next.task.None?
      modifies this, store
      ensures Ended() && store.rows[id] == Stamped(updated, clock(old(tick))) && job == old(job)
      ensures OthersKept(old(store.rows), store.rows, id)
    {
      OneStepMore(start, path, TimedStep(event, clock(tick)));
      path := path + [TimedStep(event, clock(tick))];
      var _ := store.Save(updated, clock(tick));
      tick := tick + 1;
    }

    ghost method Leave(event: TaskEvent)
      requires Alive() && TaskEnabled(PathEnd(start, path).task.value, event)
      requires
        var next := TaskStep(PathEnd(start, path), event, clock(tick));
        next.stored == PathEnd(start, path).stored && next.task.None?
      modifies `path
      ensures Ended()
    {
      OneStepMore(start, path, TimedStep(event, clock(tick)));
      path := path + [TimedStep(event, clock(tick))];
    }

    /** The `finally` block after an exception that no `except` took: only an unfinished record is failed. */
    method Finally(ghost event: TaskEvent)
      requires Alive() && Leads(PathEnd(start, path), event, Uncaught, clock(tick))
      modifies this, store
      ensures Ended() && IsTerminal(store.rows[id].state)
      ensures if IsTerminal(old(store.rows[id].state)) then store.rows == old(store.rows)
              else EndsAs(Uncaught, kind, store.rows[id])
      ensures KeepsBaseline()
      ensures OthersKept(old(store.rows), store.rows, id)
    {
      var final := store.Get(id);
      if final.Some? && !IsTerminal(final.value.state) {
        var failed := Fail(final.value, Internal, FailureState(kind));
        SaveLast(failed, event);
      } else {
        Leave(event);
      }
    }

    /** The agent's progress lines: each one is saved. */
    method ReportProgress(lines: nat)
      requires At(Agent)
      modifies this, store
      ensures At(Agent) && job == Stamped(old(job), job.updatedAt)
      ensures KeepsBaseline()
      ensures OthersKept(old(store.rows), store.rows, id)
    {
      var i := 0;
      while i < lines
        invariant At(Agent) && job == Stamped(old(job), job.updatedAt) && KeepsBaseline()
        invariant OthersKept(old(store.rows), store.rows, id)
        decreases lines - i
      {
        Save(job, NoField, Agent, Activity);
        i := i + 1;
      }
    }

    /** The owner is at the limit as the slot is granted. */
    ghost predicate AtLimit()
      reads this, store
    {
      OwnerAtLimit(store.rows, job.owner, budget, clock(tick))
    }

    /** A failed await leaves the body by the exception it raised. */
    method Raised<T>(awaited: Awaited<T>, ghost pc: Pc) returns (exit: Exit, ghost event: TaskEvent)
      requires At(pc) && CanRaiseAppError(pc) && !awaited.Value?
      ensures exit == ExitOf(awaited) && Raising(exit, event)
    {
      match awaited
      case RaisesApp(code) => exit, event := AppRaised(code, None), RaiseAppError(code);
      case RaisesOther => exit, event := OtherRaised, RaiseOther;
      case IsCancelled => exit, event := Uncaught, Cancel;
    }

    method Broken<T>(awaited: Quiet<T>, ghost pc: Pc) returns (exit: Exit, ghost event: TaskEvent)
      requires At(pc) && CanRaiseOther(pc) && !pc.Refreshing? && !awaited.Yields?
      ensures exit == QuietExit(awaited) && Raising(exit, event)
    {
      match awaited
      case Raises => exit, event := OtherRaised, RaiseOther;
      case Stops => exit, event := Uncaught, Cancel;
    }

    /** The run is over and the record holds the agent's plan and usage. */
    ghost predicate HasPlan(agent: AgentEnd)
      reads this, store
    {
      Ended() && store.rows[id].state == PlanReady && Planned(agent, store.rows[id])
    }

    // `run_job`

    method PlanSteps(script: PlanScript) returns (exit: Exit, ghost event: TaskEvent)
      requires AllStamped(store.rows) && At(Waiting) && kind == PlanRun && IsPlanScript(script)
      modifies this, store
      ensures exit == PlanExit(script, old(AtLimit()))
      ensures if exit.Done? then HasPlan(script.agent) && IsClone(store.rows[id], script) else Raising(exit, event)
      ensures OthersKept(old(store.rows), store.rows, id)
    {
      var refused := CheckSpendLimit(store, job.owner, budget, clock(tick));
      event := Grant(refused.Some?, true);
      if refused.Some? {
        return AppRaised(BudgetLimitReached, None), event;
      }
      Save(job.(state := FetchingTicket), NoField, Fetching, event);
      if !script.fetching.Value? {
        exit, event := Raised(script.fetching, Fetching);
        return;
      }
      Save(job.(state := CloningRepo), NoField, Cloning, Proceed(Nothing));
      exit, event := MapAndPlan(script);
    }

    method MapAndPlan(script: PlanScript) returns (exit: Exit, ghost event: TaskEvent)
      requires At(Cloning) && kind == PlanRun && IsPlanScript(script)
      modifies this, store
      ensures exit == MapExit(script)
      ensures if exit.Done? then HasPlan(script.agent) && IsClone(store.rows[id], script) else Raising(exit, event)
      ensures OthersKept(old(store.rows), store.rows, id)
    {
      if !script.cloning.Value? {
        exit, event := Raised(script.cloning, Cloning);
        return;
      }
      var clone := script.cloning.value;
      var cloned := job.(repoInfo := Some(clone.kind), workspacePath := Some(clone.path));
      Save(cloned.(state := MappingRepo), NoField, Mapping, Proceed(ClonedTo(clone.kind, clone.path)));
      exit, event := MapRepo(script.mapping, script.lines, script.agent);
    }

    method MapRepo(mapping: Awaited<()>, lines: nat, agent: AgentEnd) returns (exit: Exit, ghost event: TaskEvent)
      requires At(Mapping) && kind == PlanRun && FitsKind(agent, PlanRun)
      modifies this, store
      ensures exit == Then(ExitOf(mapping), AgentExit(agent))
      ensures if exit.Done? then HasPlan(agent) else Raising(exit, event)
      ensures exit.Done? ==>
        store.rows[id].repoInfo == old(job.repoInfo) && store.rows[id].workspacePath == old(job.workspacePath)
      ensures OthersKept(old(store.rows), store.rows, id)
    {
      if !mapping.Value? {
        exit, event := Raised(mapping, Mapping);
        return;
      }
      Save(job.(state := Planning), NoField, PlanSaved, Proceed(Nothing));
      exit, event := GeneratePlan(lines, agent);
    }

    method GeneratePlan(lines: nat, agent: AgentEnd) returns (exit: Exit, ghost event: TaskEvent)
      requires At(PlanSaved) && kind == PlanRun && FitsKind(agent, PlanRun)
      modifies this, store
      ensures exit == AgentExit(agent)
      ensures if exit.Done? then HasPlan(agent) else Raising(exit, event)
      ensures exit.Done? ==>
        store.rows[id].repoInfo == old(job.repoInfo) && store.rows[id].workspacePath == old(job.workspacePath)
      ensures OthersKept(old(store.rows), store.rows, id)
    {
      Save(job, NoField, Agent, Proceed(Nothing));
      ReportProgress(lines);
      exit, event := TakePlan(agent);
    }

    method TakePlan(agent: AgentEnd) returns (exit: Exit, ghost event: TaskEvent)
      requires At(Agent) && kind == PlanRun && FitsKind(agent, PlanRun)
      modifies this, store
      ensures exit == AgentExit(agent)
      ensures if exit.Done? then HasPlan(agent) else Raising(exit, event)
      ensures exit.Done? ==>
        store.rows[id].repoInfo == old(job.repoInfo) && store.rows[id].workspacePath == old(job.workspacePath)
      ensures OthersKept(old(store.rows), store.rows, id)
    {
      if agent.Stopped? {
        return Uncaught, Cancel;
      }
      event := Finish(agent.outcome);
      match agent.outcome
      case PlanReturned(plan, usage) =>
        SaveLast(job.(plan := Some(plan), usage := Some(usage), state := PlanReady), event);
        exit := Done;
      case Refused(code, carried) => exit := AppRaised(code, carried);
      case _ => exit := OtherRaised;
    }

    method RunPlan(script: PlanScript)
      requires AllStamped(store.rows) && At(Waiting) && kind == PlanRun && IsPlanScript(script)
      modifies this, store
      ensures Ended() && EndsAs(PlanExit(script, old(AtLimit())), PlanRun, store.rows[id])
      ensures PlanExit(script, old(AtLimit())).Done? ==> HasPlan(script.agent) && IsClone(store.rows[id], script)
      ensures OthersKept(old(store.rows), store.rows, id)
    {
      var exit, event := PlanSteps(script);
      match exit
      case Done =>
      case AppRaised(code, usage) =>
        var failed := Fail(WithUsage(job, PlanRun, usage), code, Failed);
        SaveLast(failed, event);
      case OtherRaised =>
        var failed := Fail(job, Internal, Failed);
        SaveLast(failed, event);
      case Uncaught => Finally(event);
    }

    // The parts `run_implementation` and `run_validation_correction` share

    /** Normalise the line endings, then start the agent and let it report. */
    method LaunchAgent(normalised: Awaited<()>, lines: nat) returns (exit: Exit, ghost event: TaskEvent)
      requires At(Preparing) && kind != PlanRun && HasText(job.workspacePath)
      modifies this, store
      ensures exit == ExitOf(normalised)
      ensures if exit.Done? then At(Agent) && job == Stamped(old(job), job.updatedAt) else Raising(exit, event)
      ensures KeepsBaseline()
      ensures OthersKept(old(store.rows), store.rows, id)
    {
      if !normalised.Value? {
        exit, event := Raised(normalised, Preparing);
        return;
      }
      event := Proceed(Nothing);
      Save(job, NoField, Agent, event);
      ReportProgress(lines);
      exit := Done;
    }

    /** However the agent ends, the line endings are restored before its outcome goes on. */
    method FinishAgent(agent: AgentEnd, restored: Quiet<()>) returns (exit: Exit, ghost event: TaskEvent)
      requires At(Agent) && kind != PlanRun && FitsKind(agent, kind)
      modifies this
      ensures exit == Then(QuietExit(restored), AgentExit(agent))
      ensures if exit.Done? then agent.Ends? && agent.outcome.ImplReturned? && At(Restoring(agent.outcome))
              else Raising(exit, event)
      ensures job == old(job) && KeepsBaseline()
    {
      var outcome := if agent.Ends? then agent.outcome else Interrupted;
      Move(job, Restoring(outcome), if agent.Ends? then Finish(outcome) else Cancel);
      if !restored.Yields? {
        exit, event := Broken(restored, Restoring(outcome));
        return;
      }
      exit, event := Reraise(outcome);
    }

    method Reraise(outcome: Outcome) returns (exit: Exit, ghost event: TaskEvent)
      requires At(Restoring(outcome)) && kind != PlanRun && !outcome.PlanReturned?
      ensures exit == if outcome.Interrupted? then Uncaught else AgentExit(Ends(outcome))
      ensures if exit.Done? then outcome.ImplReturned? else Raising(exit, event)
    {
      event := Proceed(Nothing);
      match outcome
      case ImplReturned(_, _) => exit := Done;
      case Refused(code, carried) => exit := AppRaised(code, carried);
      case Interrupted => exit := Uncaught;
      case Crashed => exit := OtherRaised;
    }

    // `run_implementation`

    method ImplementSteps(script: AgentScript) returns (exit: Exit, ghost event: TaskEvent)
      requires AllStamped(store.rows) && At(Waiting) && kind == ImplementRun && FitsKind(script.agent, ImplementRun)
      modifies this, store
      ensures exit == ImplementExit(script, old(job), old(AtLimit()))
      ensures if exit.Done? then Ended() && store.rows[id].state == ImplementationReady
                && Implemented(script, store.rows[id])
              else Raising(exit, event)
      ensures job.baseline == store.rows[id].baseline
      ensures IsBaselineAfter(store.rows[id].baseline, script, old(job), old(AtLimit()))
      ensures OthersKept(old(store.rows), store.rows, id)
    {
      var refused := CheckSpendLimit(store, job.owner, budget, clock(tick));
      event := Grant(refused.Some?, script.workspaceExists);
      if refused.Some? {
        return AppRaised(BudgetLimitReached, None), event;
      }
      if job.state != ImplementationQueued || job.plan.None? {
        return AppRaised(ImplementationNotReady, None), event;
      }
      if job.repoInfo.None? {
        return AppRaised(ImplementationNotSupported, None), event;
      }
      if !HasText(job.workspacePath) || !script.workspaceExists {
        return AppRaised(ImplementationWorkspaceMissing, None), event;
      }
      Move(job, ReadingHead, event);
      exit, event := RecordBaseline(script.head);
      if exit.Done? {
        exit, event := Implement(script);
      }
    }

    method RecordBaseline(head: Quiet<Option<string>>) returns (exit: Exit, ghost event: TaskEvent)
      requires At(ReadingHead) && kind == ImplementRun && HasText(job.workspacePath)
      modifies this, store
      ensures exit == QuietExit(head)
      ensures if exit.Done? then At(Preparing) && HasText(job.workspacePath) else Raising(exit, event)
      ensures if head.Yields? then IsBaseline(store.rows[id].baseline, head.value) && job.baseline == store.rows[id].baseline
              else KeepsBaseline()
      ensures OthersKept(old(store.rows), store.rows, id)
    {
      if !head.Yields? {
        exit, event := Broken(head, ReadingHead);
        return;
      }
      var ref := if HasText(head.value) then head.value else None;
      var baseRef := if ref.Some? then ref.value else "HEAD";
      Save(job.(baseline := Some(baseRef)), StartedAt, HeadSaved, Proceed(Head(ref)));
      event := Proceed(Nothing);
      Save(job.(state := Implementing), NoField, Preparing, event);
      exit := Done;
    }

    method Implement(script: AgentScript) returns (exit: Exit, ghost event: TaskEvent)
      requires At(Preparing) && kind == ImplementRun && HasText(job.workspacePath)
      requires FitsKind(script.agent, ImplementRun)
      modifies this, store
      ensures exit == Then(AgentCallExit(script), CollectExit(script))
      ensures if exit.Done? then Ended() && store.rows[id].state == ImplementationReady
                && Implemented(script, store.rows[id])
              else Raising(exit, event)
      ensures KeepsBaseline()
      ensures OthersKept(old(store.rows), store.rows, id)
    {
      exit, event := LaunchAgent(script.normalised, script.lines);
      if !exit.Done? {
        return;
      }
      exit, event := FinishAgent(script.agent, script.restored);
      if !exit.Done? {
        return;
      }
      var result, usage := script.agent.outcome.result, script.agent.outcome.usage;
      Save(job.(implementationUsage := Some(usage)), NoField, Collecting(result), Proceed(Nothing));
      exit, event := CollectAndValidate(result, script.collected, script.validated);
    }

    method CollectAndValidate(
      result: ImplementationResult, collected: Quiet<Option<ImplementationDiff>>,
      validated: Awaited<seq<ValidationResult>>)
      returns (exit: Exit, ghost event: TaskEvent)
      requires At(Collecting(result)) && kind == ImplementRun
      modifies this, store
      ensures exit == Then(QuietExit(collected), Then(ClaimExit(result, collected), ExitOf(validated)))
      ensures if exit.Done? then Ended() && store.rows[id].state == ImplementationReady
                && Delivered(result, collected, validated, old(job), store.rows[id])
              else Raising(exit, event)
      ensures KeepsBaseline()
      ensures OthersKept(old(store.rows), store.rows, id)
    {
      if !collected.Yields? {
        exit, event := Broken(collected, Collecting(result));
        return;
      }
      var diff := collected.value;
      event := Proceed(Collection(diff));
      if ClaimsUnseenChanges(result, diff) {
        return AppRaised(ImplementationInvalid, None), event;
      }
      Save(job.(implementationResult := Some(Listed(result, diff)), implementationDiff := diff),
           NoField, Collected, event);
      Save(job.(state := JobState.Validating), NoField, Pc.Validating, Proceed(Nothing));
      exit, event := ValidateImplementation(validated);
    }

    method ValidateImplementation(validated: Awaited<seq<ValidationResult>>)
      returns (exit: Exit, ghost event: TaskEvent)
      requires At(Pc.Validating) && kind == ImplementRun
      modifies this, store
      ensures exit == ExitOf(validated)
      ensures if exit.Done? then Ended() && store.rows[id].state == ImplementationReady
                && ValidatedAs(validated, old(job), store.rows[id])
              else Raising(exit, event)
      ensures KeepsBaseline()
      ensures OthersKept(old(store.rows), store.rows, id)
    {
      if !validated.Value? {
        exit, event := Raised(validated, Pc.Validating);
        return;
      }
      Save(job.(validationResults := validated.value), FinishedAt, Validated, Proceed(Validation(validated.value)));
      event := Proceed(Nothing);
      SaveLast(job.(state := ImplementationReady), event);
      exit := Done;
    }

    // `run_validation_correction`

    method CorrectSteps(script: AgentScript)
      returns (exit: Exit, ghost event: TaskEvent, handed: Option<seq<ValidationResult>>)
      requires AllStamped(store.rows) && At(Waiting) && kind == CorrectRun && FitsKind(script.agent, CorrectRun)
      modifies this, store
      ensures exit == CorrectExit(script, old(job), old(AtLimit()))
      ensures if exit.Done? then Ended() && store.rows[id].state == ImplementationReady
                && Corrected(script, old(job), store.rows[id])
              else Raising(exit, event)
      ensures KeepsBaseline()
      ensures handed ==
        if HandsOn(script, old(job), old(AtLimit())) then Some(CorrectableFailures(old(job.validationResults))) else None
      ensures OthersKept(old(store.rows), store.rows, id)
    {
      var refused := CheckSpendLimit(store, job.owner, budget, clock(tick));
      event := Grant(refused.Some?, script.workspaceExists);
      if refused.Some? {
        return AppRaised(BudgetLimitReached, None), event, None;
      }
      if job.state != Correcting {
        return AppRaised(ValidationCorrectionNotAvailable, None), event, None;
      }
      Save(job.(correctionStartedAt := Some(clock(tick))), NoField, Preparing, event);
      exit, event, handed := CorrectStarted(script);
    }

    method CorrectStarted(script: AgentScript)
      returns (exit: Exit, ghost event: TaskEvent, handed: Option<seq<ValidationResult>>)
      requires At(Preparing) && kind == CorrectRun && FitsKind(script.agent, CorrectRun)
      modifies this, store
      ensures exit == StartedExit(script, old(job))
      ensures if exit.Done? then Ended() && store.rows[id].state == ImplementationReady
                && Corrected(script, old(job), store.rows[id])
              else Raising(exit, event)
      ensures KeepsBaseline()
      ensures handed == if StartsAgent(script, old(job)) then Some(CorrectableFailures(old(job.validationResults))) else None
      ensures OthersKept(old(store.rows), store.rows, id)
    {
      if !HasText(job.workspacePath) {
        return AppRaised(ImplementationWorkspaceMissing, None), Proceed(Nothing), None;
      }
      if !script.workspaceExists {
        return AppRaised(ImplementationWorkspaceMissing, None), RaiseAppError(ImplementationWorkspaceMissing), None;
      }
      var failures := CorrectableFailures(job.validationResults);
      handed := None;
      if !HasText(job.baseline) && !script.head.Yields? {
        exit, event := Broken(script.head, Preparing);
        return;
      }
      exit, event := CorrectWorkspace(script);
      handed := if script.normalised.Value? then Some(failures) else None;
    }

    method CorrectWorkspace(script: AgentScript) returns (exit: Exit, ghost event: TaskEvent)
      requires At(Preparing) && kind == CorrectRun && HasText(job.workspacePath)
      requires FitsKind(script.agent, CorrectRun)
      modifies this, store
      ensures exit == Then(AgentCallExit(script), RevalidateExit(script))
      ensures if exit.Done? then Ended() && store.rows[id].state == ImplementationReady
                && Corrected(script, old(job), store.rows[id])
              else Raising(exit, event)
      ensures KeepsBaseline()
      ensures OthersKept(old(store.rows), store.rows, id)
    {
      exit, event := LaunchAgent(script.normalised, script.lines);
      if !exit.Done? {
        return;
      }
      exit, event := FinishAgent(script.agent, script.restored);
      if !exit.Done? {
        return;
      }
      exit, event := SaveCorrection(script.agent.outcome.result, script.agent.outcome.usage, script);
    }

    method SaveCorrection(result: ImplementationResult, usage: AgentUsage, script: AgentScript)
      returns (exit: Exit, ghost event: TaskEvent)
      requires At(Restoring(ImplReturned(result, usage))) && kind == CorrectRun
      modifies this, store
      ensures exit == RevalidateExit(script)
      ensures if exit.Done? then Ended() && store.rows[id].state == ImplementationReady
                && store.rows[id].correctionResult == Some(result) && store.rows[id].correctionUsage == Some(usage)
                && Revalidated(script.collected, script.validated, old(job), store.rows[id])
              else Raising(exit, event)
      ensures KeepsBaseline()
      ensures OthersKept(old(store.rows), store.rows, id)
    {
      Save(job.(correctionResult := Some(result), correctionUsage := Some(usage)),
           NoField, CorrectionSaved, Proceed(Nothing));
      Save(job.(state := Revalidating), NoField, Recollecting, Proceed(Nothing));
      exit, event := Revalidate(script.collected, script.validated);
    }

    method Revalidate(collected: Quiet<Option<ImplementationDiff>>, validated: Awaited<seq<ValidationResult>>)
      returns (exit: Exit, ghost event: TaskEvent)
      requires At(Recollecting) && kind == CorrectRun
      modifies this, store
      ensures exit == Then(QuietExit(collected), ExitOf(validated))
      ensures if exit.Done? then Ended() && store.rows[id].state == ImplementationReady
                && Revalidated(collected, validated, old(job), store.rows[id])
              else Raising(exit, event)
      ensures exit.Done? ==>
        store.rows[id].correctionResult == old(job).correctionResult
        && store.rows[id].correctionUsage == old(job).correctionUsage
      ensures KeepsBaseline()
      ensures OthersKept(old(store.rows), store.rows, id)
    {
      if !collected.Yields? {
        exit, event := Broken(collected, Recollecting);
        return;
      }
      var diff := Kept(collected.value, job.implementationDiff);
      Move(job.(implementationDiff := diff), Pc.Validating, Proceed(Collection(collected.value)));
      if !validated.Value? {
        exit, event := Raised(validated, Pc.Validating);
        return;
      }
      event := Proceed(Validation(validated.value));
      SaveLast(job.(validationResults := validated.value, correctionAttempted := true, state := ImplementationReady),
               event);
      exit := Done;
    }

    /** The `except` blocks: the usage carried by the error, the diff refresh, the failure's record; then `finally`. */
    method Handle(exit: Exit, refresh: Quiet<Option<ImplementationDiff>>, ghost event: TaskEvent)
      requires Raising(exit, event) && kind != PlanRun && !exit.Done?
      modifies this, store
      ensures Ended() && IsTerminal(store.rows[id].state)
      ensures refresh.Yields? || !IsTerminal(start.stored.state) ==>
        EndsAs(if refresh.Yields? then exit else Uncaught, kind, store.rows[id])
      ensures KeepsBaseline()
      ensures OthersKept(old(store.rows), store.rows, id)
    {
      if exit.Uncaught? {
        Finally(event);
        return;
      }
      var code := CodeOf(exit);
      Move(WithUsage(job, kind, CarriedBy(exit)), Refreshing(code), event);
      match refresh
      case Raises => Finally(RaiseOther);
      case Stops => Finally(Cancel);
      case Yields(diff) => RecordFailure(code, diff);
    }

    method RecordFailure(code: ErrorCode, diff: Option<ImplementationDiff>)
      requires At(Refreshing(code)) && kind != PlanRun
      modifies this, store
      ensures Ended() && EndsAs(AppRaised(code, UsageField(old(job), kind)), kind, store.rows[id])
      ensures KeepsBaseline()
      ensures OthersKept(old(store.rows), store.rows, id)
    {
      var failed := RefreshDiffBestEffort(job, diff);
      if kind == CorrectRun {
        failed := RecordCorrectionFailure(failed, code, code != BudgetLimitReached);
      } else {
        failed := Fail(failed, code, ImplementationFailed);
      }
      SaveLast(failed, Proceed(Collection(diff)));
    }
  }

  /** The last stretch of an implementation: its results are validated. */
  predicate ValidatedAs(validated: Awaited<seq<ValidationResult>>, before: Job, after: Job) {
    && validated.Value? && after.validationResults == validated.value
    && after.implementationResult == before.implementationResult
    && after.implementationDiff == before.implementationDiff
    && after.implementationUsage == before.implementationUsage
  }

  predicate Delivered(
    result: ImplementationResult, collected: Quiet<Option<ImplementationDiff>>,
    validated: Awaited<seq<ValidationResult>>, before: Job, after: Job)
  {
    && collected.Yields? && after.implementationDiff == collected.value
    && after.implementationResult == Some(Listed(result, collected.value))
    && validated.Value? && after.validationResults == validated.value
    && after.implementationUsage == before.implementationUsage
  }

  predicate Revalidated(
    collected: Quiet<Option<ImplementationDiff>>, validated: Awaited<seq<ValidationResult>>, before: Job, after: Job)
  {
    && collected.Yields? && after.implementationDiff == Kept(collected.value, before.implementationDiff)
    && validated.Value? && after.validationResults == validated.value && after.correctionAttempted
    && after.implementationResult == before.implementationResult
    && after.implementationUsage == before.implementationUsage
  }

  /** The baseline is the head that was read, or `HEAD` where none was. */
  predicate IsBaseline(baseline: Option<string>, head: Option<string>) {
    if head.Some? && head.value != "" then baseline == head else baseline == Some("HEAD")
  }

  /** It is recorded once the checks in the slot pass and the head read returns, and stays as it was otherwise. */
  predicate IsBaselineAfter(baseline: Option<string>, script: AgentScript, job: Job, atLimit: bool) {
    if ChecksExit(script, job, atLimit).Done? && script.head.Yields? then IsBaseline(baseline, script.head.value)
    else baseline == job.baseline
  }

  // What each await of the other two runners does. `refresh`: the diff refresh of the `except` block.
  datatype AgentScript = AgentScript(
    workspaceExists: bool, head: Quiet<Option<string>>, normalised: Awaited<()>, lines: nat,
    agent: AgentEnd, restored: Quiet<()>, collected: Quiet<Option<ImplementationDiff>>,
    validated: Awaited<seq<ValidationResult>>, refresh: Quiet<Option<ImplementationDiff>>)

  datatype Cloned = Cloned(kind: RepoSourceKind, path: string)

  // What each await of `run_job` does, and how many progress lines the agent reports.
  datatype PlanScript = PlanScript(
    fetching: Awaited<()>, cloning: Awaited<Cloned>, mapping: Awaited<()>, lines: nat, agent: AgentEnd)

  // How each script leaves the `try`

  function MapExit(script: PlanScript): Exit {
    Then(ExitOf(script.cloning), Then(ExitOf(script.mapping), AgentExit(script.agent)))
  }

  function PlanExit(script: PlanScript, atLimit: bool): Exit {
    if atLimit then AppRaised(BudgetLimitReached, None) else Then(ExitOf(script.fetching), MapExit(script))
  }

  /** An exception while the line endings are restored replaces the agent's own. */
  function AgentCallExit(script: AgentScript): Exit {
    Then(ExitOf(script.normalised), Then(QuietExit(script.restored), AgentExit(script.agent)))
  }

  function ClaimExit(result: ImplementationResult, collected: Quiet<Option<ImplementationDiff>>): Exit {
    if collected.Yields? && ClaimsUnseenChanges(result, collected.value) then AppRaised(ImplementationInvalid, None)
    else Done
  }

  function CollectExit(script: AgentScript): Exit {
    if script.agent.Ends? && script.agent.outcome.ImplReturned? then
      Then(QuietExit(script.collected),
           Then(ClaimExit(script.agent.outcome.result, script.collected), ExitOf(script.validated)))
    else Done
  }

  function RevalidateExit(script: AgentScript): Exit {
    Then(QuietExit(script.collected), ExitOf(script.validated))
  }

  /** The checks of `run_implementation` in the slot, in their order. */
  function ChecksExit(script: AgentScript, job: Job, atLimit: bool): Exit {
    if atLimit then AppRaised(BudgetLimitReached, None)
    else if job.state != ImplementationQueued || job.plan.None? then AppRaised(ImplementationNotReady, None)
    else if job.repoInfo.None? then AppRaised(ImplementationNotSupported, None)
    else if !HasText(job.workspacePath) || !script.workspaceExists then
      AppRaised(ImplementationWorkspaceMissing, None)
    else Done
  }

  function ImplementExit(script: AgentScript, job: Job, atLimit: bool): Exit {
    Then(ChecksExit(script, job, atLimit),
         Then(QuietExit(script.head), Then(AgentCallExit(script), CollectExit(script))))
  }

  function CorrectExit(script: AgentScript, job: Job, atLimit: bool): Exit {
    if atLimit then AppRaised(BudgetLimitReached, None)
    else if job.state != Correcting then AppRaised(ValidationCorrectionNotAvailable, None)
    else StartedExit(script, job)
  }

  /** The correction gets as far as its agent. */
  predicate HandsOn(script: AgentScript, job: Job, atLimit: bool) {
    !atLimit && job.state == Correcting && StartsAgent(script, job)
  }

  predicate StartsAgent(script: AgentScript, job: Job) {
    && HasText(job.workspacePath) && script.workspaceExists
    && (HasText(job.baseline) || script.head.Yields?) && script.normalised.Value?
  }

  /** From the save of the correction's start on. */
  function StartedExit(script: AgentScript, job: Job): Exit {
    if !HasText(job.workspacePath) || !script.workspaceExists then AppRaised(ImplementationWorkspaceMissing, None)
    else if !HasText(job.baseline) && !script.head.Yields? then QuietExit(script.head)
    else Then(AgentCallExit(script), RevalidateExit(script))
  }

  /** The usage a record carries for a kind of run. */
  function UsageField(job: Job, kind: Kind): Option<AgentUsage> {
    match kind
    case PlanRun => job.usage
    case ImplementRun => job.implementationUsage
    case CorrectRun => job.correctionUsage
  }

  /** What the record says once a run has left its `try` by `exit` and its handlers are done. */
  predicate EndsAs(exit: Exit, kind: Kind, after: Job) {
    match exit
    case Done => after.state == if kind == PlanRun then PlanReady else ImplementationReady
    case Uncaught =>
      && after.state == (if kind == PlanRun then Failed else ImplementationFailed)
      && after.error.Some? && after.error.value.code == Internal
    case AppRaised(code, carried) => FailsAs(code, carried, kind, after)
    case OtherRaised => FailsAs(Internal, None, kind, after)
  }

  /** What the `except` block leaves: the failure, and the usage that came with it. */
  predicate FailsAs(code: ErrorCode, carried: Option<AgentUsage>, kind: Kind, after: Job) {
    match kind
    case PlanRun =>
      && after.state == Failed && after.error.Some? && after.error.value.code == code
      && (carried.Some? ==> after.usage == carried)
    case ImplementRun =>
      && after.state == ImplementationFailed && after.error.Some? && after.error.value.code == code
      && (carried.Some? ==> after.implementationUsage == carried)
    case CorrectRun =>
      && after.state == ImplementationReady && after.correctionError.Some?
      && after.correctionError.value.code == code
      && (code != BudgetLimitReached ==> after.correctionAttempted)
      && (carried.Some? ==> after.correctionUsage == carried)
  }

  /** An agent ends with what its kind of run can return. */
  predicate FitsKind(end: AgentEnd, kind: Kind) {
    end.Ends? ==>
      && !end.outcome.Interrupted?
      && (end.outcome.PlanReturned? ==> kind == PlanRun)
      && (end.outcome.ImplReturned? ==> kind != PlanRun)
  }

  predicate IsPlanScript(script: PlanScript) {
    && (script.cloning.Value? ==> script.cloning.value.path != "")
    && FitsKind(script.agent, PlanRun)
  }

  /** An exception in the `except` block itself leaves the failure to the `finally` block. */
  function Settled(exit: Exit, refresh: Quiet<Option<ImplementationDiff>>): Exit {
    if exit.Done? || refresh.Yields? then exit else Uncaught
  }

  /** A path of the protocol from the task's first step to its end, ending in the record the store now has. */
  ghost predicate IsRunOf(kind: Kind, before: Job, ledger: Ledger, path: seq<TimedStep>, after: Job) {
    var start := Turn(before, Some(Task(kind, Entering, before)), ledger);
    && IsPath(start, path) && PathEnd(start, path).task.None?
    && PathEnd(start, path).stored == after
  }

  /** The check in the slot refuses the job's owner. */
  ghost predicate RefusedAt(rows: map<Id, Job>, id: Id, budget: Option<real>, now: Time)
    requires id in rows
  {
    OwnerAtLimit(rows, rows[id].owner, budget, now)
  }

  // What the record holds after a run that runs through

  predicate Planned(agent: AgentEnd, after: Job) {
    && agent.Ends? && agent.outcome.PlanReturned?
    && after.plan == Some(agent.outcome.plan) && after.usage == Some(agent.outcome.usage)
  }

  predicate IsClone(after: Job, script: PlanScript) {
    && script.cloning.Value?
    && after.repoInfo == Some(script.cloning.value.kind) && after.workspacePath == Some(script.cloning.value.path)
  }

  predicate Implemented(script: AgentScript, after: Job) {
    && script.agent.Ends? && script.agent.outcome.ImplReturned? && script.collected.Yields? && script.validated.Value?
    && after.implementationUsage == Some(script.agent.outcome.usage)
    && after.implementationResult == Some(Listed(script.agent.outcome.result, script.collected.value))
    && after.implementationDiff == script.collected.value && after.validationResults == script.validated.value
  }

  /** The implementation's own result and usage stay; a collected diff, and only that, replaces its diff. */
  predicate Corrected(script: AgentScript, before: Job, after: Job) {
    && script.agent.Ends? && script.agent.outcome.ImplReturned? && script.collected.Yields? && script.validated.Value?
    && after.correctionUsage == Some(script.agent.outcome.usage)
    && after.correctionResult == Some(script.agent.outcome.result) && after.correctionAttempted
    && after.implementationDiff ==
         (if script.collected.value.Some? then script.collected.value else before.implementationDiff)
    && after.validationResults == script.validated.value
    && after.implementationResult == before.implementationResult
    && after.implementationUsage == before.implementationUsage
  }

  /** `run_job`: a missing row is logged and left; else the run is the protocol's, and the job ends terminal. */
  method RunJob(
    store: JobStore, id: Id, script: PlanScript, clock: nat -> Time, budget: Option<real>, ghost ledger: Ledger)
    returns (ghost path: seq<TimedStep>)
    requires (id in store.rows ==> store.rows[id].id == id) && AllStamped(store.rows)
    requires IsPlanScript(script)
    modifies store
    ensures id !in old(store.rows) ==> store.rows == old(store.rows)
    ensures OthersKept(old(store.rows), store.rows, id)
    ensures id in old(store.rows) ==>
      && IsRunOf(PlanRun, old(store.rows)[id], ledger, path, store.rows[id])
      && var exit := PlanExit(script, RefusedAt(old(store.rows), id, budget, clock(1)));
         && EndsAs(exit, PlanRun, store.rows[id])
         && (exit.Done? ==> Planned(script.agent, store.rows[id]) && IsClone(store.rows[id], script))
  {
    path := [];
    var job := store.Get(id);
    if job.Some? {
      var task := new JobTask(store, id, PlanRun, clock, budget, ledger);
      task.RunPlan(script);
      path := task.path;
    }
  }

  /** `run_implementation`, likewise. */
  method RunImplementation(
    store: JobStore, id: Id, script: AgentScript, clock: nat -> Time, budget: Option<real>, ghost ledger: Ledger)
    returns (ghost path: seq<TimedStep>)
    requires (id in store.rows ==> store.rows[id].id == id) && AllStamped(store.rows)
    requires FitsKind(script.agent, ImplementRun)
    modifies store
    ensures id !in old(store.rows) ==> store.rows == old(store.rows)
    ensures OthersKept(old(store.rows), store.rows, id)
    ensures id in old(store.rows) ==>
      && IsRunOf(ImplementRun, old(store.rows)[id], ledger, path, store.rows[id])
      && IsTerminal(store.rows[id].state)
      && IsBaselineAfter(store.rows[id].baseline, script, old(store.rows)[id],
                         RefusedAt(old(store.rows), id, budget, clock(1)))
      && var exit := ImplementExit(script, old(store.rows)[id], RefusedAt(old(store.rows), id, budget, clock(1)));
         && (exit.Done? ==> Implemented(script, store.rows[id]))
         && (script.refresh.Yields? || !IsTerminal(old(store.rows)[id].state) ==>
               EndsAs(Settled(exit, script.refresh), ImplementRun, store.rows[id]))
  {
    path := [];
    var job := store.Get(id);
    if job.Some? {
      var task := new JobTask(store, id, ImplementRun, clock, budget, ledger);
      var exit, event := task.ImplementSteps(script);
      if !exit.Done? {
        task.Handle(exit, script.refresh, event);
      }
      path := task.path;
    }
  }

  /** `run_validation_correction`, likewise. */
  method RunValidationCorrection(
    store: JobStore, id: Id, script: AgentScript, clock: nat -> Time, budget: Option<real>, ghost ledger: Ledger)
    returns (handed: Option<seq<ValidationResult>>, ghost path: seq<TimedStep>)
    requires (id in store.rows ==> store.rows[id].id == id) && AllStamped(store.rows)
    requires FitsKind(script.agent, CorrectRun)
    modifies store
    ensures id !in old(store.rows) ==> store.rows == old(store.rows)
    ensures OthersKept(old(store.rows), store.rows, id)
    ensures id in old(store.rows) ==>
      && IsRunOf(CorrectRun, old(store.rows)[id], ledger, path, store.rows[id])
      && IsTerminal(store.rows[id].state) && store.rows[id].baseline == old(store.rows)[id].baseline
      && handed == (if HandsOn(script, old(store.rows)[id], RefusedAt(old(store.rows), id, budget, clock(1)))
                    then Some(CorrectableFailures(old(store.rows)[id].validationResults)) else None)
      && var exit := CorrectExit(script, old(store.rows)[id], RefusedAt(old(store.rows), id, budget, clock(1)));
         && (exit.Done? ==> Corrected(script, old(store.rows)[id], store.rows[id]))
         && (script.refresh.Yields? || !IsTerminal(old(store.rows)[id].state) ==>
               EndsAs(Settled(exit, script.refresh), CorrectRun, store.rows[id]))
  {
    handed, path := None, [];
    var job := store.Get(id);
    if job.Some? {
      var task := new JobTask(store, id, CorrectRun, clock, budget, ledger);
      var exit, event, failures := task.CorrectSteps(script);
      handed := failures;
      if !exit.Done? {
        task.Handle(exit, script.refresh, event);
      }
      path := task.path;
    }
  }

  // What the protocol's invariant then says of a run of a runner

  /** The steps come one after the other, all after `clock`. */
  predicate Advances(path: seq<TimedStep>, clock: Time) {
    && (forall i :: 0 <= i < |path| ==> clock < path[i].now)
    && (forall i, j :: 0 <= i < j < |path| ==> path[i].now < path[j].now)
  }

  function LastTime(path: seq<TimedStep>, clock: Time): Time {
    if path == [] then clock else path[|path| - 1].now
  }

  lemma {:induction false} PathKeepsInv(start: Turn, path: seq<TimedStep>, clock: Time)
    requires IsPath(start, path) && TurnInv(start, clock) && Advances(path, clock)
    ensures TurnInv(PathEnd(start, path), LastTime(path, clock))
    decreases |path|
  {
    if path != [] {
      var before, last := path[..|path| - 1], path[|path| - 1];
      PathKeepsInv(start, before, clock);
      TaskStepKeepsInv(PathEnd(start, before), last.event, LastTime(before, clock), last.now);
    }
  }
}
