/**
 The guarded routes that start a run. Each is one atomic step: it reads the
 record, checks it, overwrites it and starts a task without suspending.
 */
module Routes {
  import opened Prelude
  import opened Models
  import opened Transitions
  import opened Spend
  import opened Store
  import opened Limits
  import opened Lifecycle
  import opened System

  datatype RouteError = NotFound | NoAccess | Refusal(code: ErrorCode)

  datatype Answer = Started | Rejected(error: RouteError)

  /** `_require_workspace`: marked, missing or gone. */
  predicate HasWorkspace(job: Job, onDisk: bool) {
    job.workspaceRemovedAt.None? && job.workspacePath.Some? && job.workspacePath.value != "" && onDisk
  }

  // What each route's save comes to

  /** Queued, owned, and nothing done yet. */
  predicate IsFresh(job: Job, id: Id, owner: Option<Owner>, now: Time) {
    && job.id == id && job.owner == owner && job.state.Queued? && job.createdAt == job.updatedAt == now
    && job.error.None? && job.repoInfo.None? && job.workspacePath.None? && job.plan.None? && job.usage.None?
    && job.implementationUsage.None? && job.implementationResult.None? && job.implementationDiff.None?
    && job.validationResults == [] && job.approvedAt.None? && job.startedAt.None? && job.finishedAt.None?
    && job.baseline.None? && !job.correctionAttempted && job.correctionResult.None? && job.correctionError.None?
    && job.correctionUsage.None? && job.correctionStartedAt.None? && job.workspaceRemovedAt.None?
  }

  /** Approved now, with nothing left of an earlier implementation, and every other field kept. */
  predicate IsApproval(before: Job, after: Job, now: Time) {
    && after.state.ImplementationQueued? && after.approvedAt == Some(now) && after.updatedAt == now
    && after.error.None? && after.implementationResult.None? && after.implementationDiff.None?
    && after.implementationUsage.None? && after.validationResults == []
    && after.startedAt.None? && after.finishedAt.None?
    && after.(state := before.state, approvedAt := before.approvedAt, updatedAt := before.updatedAt,
              error := before.error, implementationResult := before.implementationResult,
              implementationDiff := before.implementationDiff, implementationUsage := before.implementationUsage,
              validationResults := before.validationResults, startedAt := before.startedAt,
              finishedAt := before.finishedAt) == before
  }

  /** Correcting, not started yet, with failures to hand on, and every other field kept. */
  predicate IsCorrectionStart(before: Job, after: Job, now: Time) {
    && after.state.Correcting? && after.correctionStartedAt.None? && after.updatedAt == now
    && CorrectableFailures(after.validationResults) != []
    && after.(state := before.state, correctionStartedAt := before.correctionStartedAt,
              updatedAt := before.updatedAt) == before
  }

  class Service {
    const store: JobStore
    // The background tasks started so far, in order.
    var tasks: seq<(Id, Kind)>

    constructor (store: JobStore)
      ensures this.store == store && tasks == []
    {
      this.store, tasks := store, [];
    }

    /** `create_job` from the insert on; ids are fresh UUIDs. */
    method CreateJob(id: Id, owner: Option<Owner>, now: Time)
      requires id !in store.rows
      modifies this, store
      ensures store.rows == old(store.rows)[id := NewJob(id, owner, now)]
      ensures IsFresh(store.rows[id], id, owner, now)
      ensures tasks == old(tasks) + [(id, PlanRun)]
    {
      var _ := store.Create(NewJob(id, owner, now));
      tasks := tasks + [(id, PlanRun)];
    }

    /** The answer `implement` owes a caller. The first check that fails decides. */
    ghost predicate IsImplementAnswer(
      answer: Answer, id: Id, access: bool, workspaceExists: bool, budget: Option<real>, now: Time)
      reads this, store
    {
      if id !in store.rows then answer == Rejected(NotFound)
      else
        var job := store.rows[id];
        if !access then answer == Rejected(NoAccess)
        else if job.state != PlanReady || job.plan.None? then answer == Rejected(Refusal(ImplementationNotReady))
        else if job.repoInfo.None? then answer == Rejected(Refusal(ImplementationNotSupported))
        else if !HasWorkspace(job, workspaceExists) then answer == Rejected(Refusal(ImplementationWorkspaceMissing))
        else if OwnerAtLimit(store.rows, job.owner, budget, now) then answer == Rejected(Refusal(BudgetLimitReached))
        else answer == Started
    }

    method ImplementJob(id: Id, access: bool, workspaceExists: bool, budget: Option<real>, now: Time)
      returns (answer: Answer)
      requires AllStamped(store.rows)
      requires id in store.rows ==> store.rows[id].id == id
      modifies this, store
      ensures old(IsImplementAnswer(answer, id, access, workspaceExists, budget, now))
      ensures answer.Rejected? ==> store.rows == old(store.rows) && tasks == old(tasks)
      ensures answer.Started? ==>
        && store.rows == old(store.rows)[id := Stamped(Approved(old(store.rows)[id], now), now)]
        && IsApproval(old(store.rows)[id], store.rows[id], now)
        && tasks == old(tasks) + [(id, ImplementRun)]
    {
      var found := store.Get(id);
      if found.None? {
        return Rejected(NotFound);
      }
      var job := found.value;
      if !access {
        return Rejected(NoAccess);
      }
      if job.state != PlanReady || job.plan.None? {
        return Rejected(Refusal(ImplementationNotReady));
      }
      if job.repoInfo.None? {
        return Rejected(Refusal(ImplementationNotSupported));
      }
      if !HasWorkspace(job, workspaceExists) {
        return Rejected(Refusal(ImplementationWorkspaceMissing));
      }
      var refused := CheckSpendLimit(store, job.owner, budget, now);
      if refused.Some? {
        return Rejected(Refusal(BudgetLimitReached));
      }
      job := job.(error := None, implementationResult := None, implementationDiff := None,
                  implementationUsage := None, validationResults := []);
      job := job.(approvedAt := Some(now), startedAt := None, finishedAt := None);
      job := job.(state := ImplementationQueued);
      job := store.Save(job, now);
      tasks := tasks + [(id, ImplementRun)];
      answer := Started;
    }

    ghost predicate IsCorrectAnswer(
      answer: Answer, id: Id, access: bool, workspaceExists: bool, budget: Option<real>, now: Time)
      reads this, store
    {
      if id !in store.rows then answer == Rejected(NotFound)
      else
        var job := store.rows[id];
        if !access then answer == Rejected(NoAccess)
        else if job.state != ImplementationReady || job.correctionAttempted
                || CorrectableFailures(job.validationResults) == [] then
          answer == Rejected(Refusal(ValidationCorrectionNotAvailable))
        else if !HasWorkspace(job, workspaceExists) then answer == Rejected(Refusal(ImplementationWorkspaceMissing))
        else if OwnerAtLimit(store.rows, job.owner, budget, now) then answer == Rejected(Refusal(BudgetLimitReached))
        else answer == Started
    }

    method CorrectValidation(id: Id, access: bool, workspaceExists: bool, budget: Option<real>, now: Time)
      returns (answer: Answer)
      requires AllStamped(store.rows)
      requires id in store.rows ==> store.rows[id].id == id
      modifies this, store
      ensures old(IsCorrectAnswer(answer, id, access, workspaceExists, budget, now))
      ensures answer.Rejected? ==> store.rows == old(store.rows) && tasks == old(tasks)
      ensures answer.Started? ==>
        && store.rows == old(store.rows)[id := Stamped(CorrectionQueued(old(store.rows)[id]), now)]
        && IsCorrectionStart(old(store.rows)[id], store.rows[id], now)
        && tasks == old(tasks) + [(id, CorrectRun)]
    {
      var found := store.Get(id);
      if found.None? {
        return Rejected(NotFound);
      }
      var job := found.value;
      if !access {
        return Rejected(NoAccess);
      }
      if job.state != ImplementationReady || job.correctionAttempted
         || CorrectableFailures(job.validationResults) == [] {
        return Rejected(Refusal(ValidationCorrectionNotAvailable));
      }
      if !HasWorkspace(job, workspaceExists) {
        return Rejected(Refusal(ImplementationWorkspaceMissing));
      }
      var refused := CheckSpendLimit(store, job.owner, budget, now);
      if refused.Some? {
        return Rejected(Refusal(BudgetLimitReached));
      }
      job := job.(state := Correcting, correctionStartedAt := None);
      job := store.Save(job, now);
      tasks := tasks + [(id, CorrectRun)];
      answer := Started;
    }
  }

  /**
   A route starts a run of a job exactly when the protocol lets it: the checks
   on the record are the step's guard, and the check on the owner's spend is
   the system's budget guard over all the cells.
   */
  lemma RoutesAreProtocolSteps(
    cfg: Config, s: Sys, id: Id, service: Service, access: bool, workspaceExists: bool, now: Time)
    requires id in s.cells && service.store.rows == StoredRows(s.cells) && access
    ensures service.IsImplementAnswer(Started, id, access, workspaceExists, cfg.budget, now) <==>
      CellEventAllowed(cfg, s, id, CellEvent.Implement(workspaceExists), now)
    ensures service.IsCorrectAnswer(Started, id, access, workspaceExists, cfg.budget, now) <==>
      CellEventAllowed(cfg, s, id, CellEvent.Correct(workspaceExists), now)
  {
    var owner := s.cells[id].stored.owner;
    if owner.Some? {
      SpentIsSumOfRows(s.cells, owner.value, now);
    }
  }
}
