/**
 What each route, failure path and recovery path writes on one job record.
 The store, the recovery loop and the lifecycle protocol all use these.
 */
module Transitions {
  import opened Prelude
  import opened Models

  /** `_fail`, before the save. */
  function FailedAs(job: Job, code: ErrorCode, failureState: JobState): Job {
    job.(error := Some(JobError(code, job.state)), state := failureState)
  }

  /** `_record_correction_failure`, before the save. */
  function CorrectionFailed(job: Job, code: ErrorCode, attemptUsed: bool): Job {
    job.(correctionError := Some(JobError(code, job.state)),
         correctionAttempted := job.correctionAttempted || attemptUsed,
         state := ImplementationReady)
  }

  /**
   `_refresh_diff_best_effort` when the collection it may start yields `diff`
   (`None` also stands for a workspace directory that is gone).
   */
  function Refreshed(job: Job, diff: Option<ImplementationDiff>): Job {
    if HasText(job.workspacePath) && HasText(job.baseline) && diff.Some? && diff.value.files != []
    then job.(implementationDiff := diff)
    else job
  }

  /** The diff a correction goes on with after its re-collection. */
  function Kept(collected: Option<ImplementationDiff>, before: Option<ImplementationDiff>): Option<ImplementationDiff> {
    if collected.Some? then collected else before
  }

  predicate CanImplement(job: Job) {
    && job.state == PlanReady && job.plan.Some?
    && job.repoInfo.Some?
    && job.workspaceRemovedAt.None? && HasText(job.workspacePath)
  }

  /** What the `implement` route saves. */
  function Approved(job: Job, now: Time): Job {
    job.(error := None, implementationResult := None, implementationDiff := None,
         implementationUsage := None, validationResults := [],
         approvedAt := Some(now), startedAt := None, finishedAt := None,
         state := ImplementationQueued)
  }

  predicate CanCorrect(job: Job) {
    && job.state == ImplementationReady && !job.correctionAttempted
    && Correctable(job.validationResults)
    && job.workspaceRemovedAt.None? && HasText(job.workspacePath)
  }

  /** What the `correct-validation` route saves. */
  function CorrectionQueued(job: Job): Job {
    job.(state := Correcting, correctionStartedAt := None)
  }

  predicate IsCorrectionState(state: JobState) {
    (state.Correcting? || state.Revalidating?)
  }

  predicate IsImplementationState(state: JobState) {
    (state.ImplementationQueued? || state.Implementing? || state.Validating?)
  }

  /** What startup recovery saves for a job it finds in a non-terminal state. */
  function Recovered(job: Job, diff: Option<ImplementationDiff>): Job {
    if IsCorrectionState(job.state) then
      CorrectionFailed(Refreshed(job, diff), JobInterrupted, job.correctionStartedAt.Some?)
    else if IsImplementationState(job.state) then
      FailedAs(Refreshed(job, diff), JobInterrupted, ImplementationFailed)
    else
      FailedAs(job, JobInterrupted, Failed)
  }

  const UNLISTED_FILES_WARNING :=
    "The agent did not list the files it changed; the list was taken from the diff."

  /** The agent claims changes that the collected diff does not show. */
  predicate ClaimsUnseenChanges(result: ImplementationResult, diff: Option<ImplementationDiff>) {
    result.changedFiles != [] && (diff.None? || diff.value.files == [])
  }

  /** The changed-files list of a result that left it out, rebuilt from the diff. */
  function Listed(result: ImplementationResult, diff: Option<ImplementationDiff>): (listed: ImplementationResult)
    ensures listed.changedFiles == [] <==> result.changedFiles == [] && (diff.None? || diff.value.files == [])
    ensures result.changedFiles != [] ==> listed == result
    ensures result.changedFiles == [] ==> listed.changedFiles == if diff.Some? then diff.value.files else []
    ensures !ClaimsUnseenChanges(result, diff) ==> !ClaimsUnseenChanges(listed, diff)
    ensures listed.summary == result.summary
    ensures listed.warnings == result.warnings +
      if result.changedFiles == [] && diff.Some? && diff.value.files != []
      then ["The agent did not list the files it changed; the list was taken from the diff."] else []
  {
    if result.changedFiles == [] && diff.Some? && diff.value.files != [] then
      result.(changedFiles := diff.value.files, warnings := result.warnings + [UNLISTED_FILES_WARNING])
    else
      result
  }

  // The three helpers, as they update a record field by field

  method Fail(job: Job, code: ErrorCode, failureState: JobState) returns (failed: Job)
    ensures failed.state == failureState && failed.error == Some(JobError(code, job.state))
    ensures failed.(error := job.error, state := job.state) == job
  {
    failed := job.(error := Some(JobError(code, job.state)));
    failed := failed.(state := failureState);
  }

  method RecordCorrectionFailure(job: Job, code: ErrorCode, attemptUsed: bool) returns (failed: Job)
    ensures failed.state == ImplementationReady && failed.correctionError == Some(JobError(code, job.state))
    ensures failed.(correctionError := job.correctionError, correctionAttempted := job.correctionAttempted,
                    state := job.state) == job
    ensures failed.correctionAttempted <==> job.correctionAttempted || attemptUsed
    ensures CanCorrect(failed) <==> !attemptUsed && CanCorrect(job.(state := ImplementationReady))
  {
    failed := job.(correctionError := Some(JobError(code, job.state)));
    if attemptUsed {
      failed := failed.(correctionAttempted := true);
    }
    failed := failed.(state := ImplementationReady);
  }

  method RefreshDiffBestEffort(job: Job, collected: Option<ImplementationDiff>) returns (refreshed: Job)
    ensures refreshed.(implementationDiff := job.implementationDiff) == job
    ensures refreshed.implementationDiff != job.implementationDiff ==>
      && HasText(job.workspacePath) && HasText(job.baseline)
      && refreshed.implementationDiff == collected && collected.Some? && collected.value.files != []
    ensures HasText(job.workspacePath) && HasText(job.baseline) && collected.Some? && collected.value.files != []
      ==> refreshed.implementationDiff == collected
    ensures forall result :: ClaimsUnseenChanges(result, refreshed.implementationDiff) ==>
      ClaimsUnseenChanges(result, job.implementationDiff)
  {
    refreshed := job;
    if !HasText(job.workspacePath) || !HasText(job.baseline) {
      return;
    }
    if collected.Some? && collected.value.files != [] {
      refreshed := job.(implementationDiff := collected);
    }
  }
}
