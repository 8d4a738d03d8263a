/** The job record, its states, and the agent costs recorded on it. */
module Models {
  import opened Prelude

  type Id = string
  type Owner = string
  // Timestamps are integers: microseconds on one shared clock.
  type Time = int

  datatype JobState =
    | Queued | FetchingTicket | CloningRepo | MappingRepo | Planning | PlanReady
    | ImplementationQueued | Implementing | Validating
    | Correcting | Revalidating
    | ImplementationReady | ImplementationFailed | Failed

  predicate IsTerminal(state: JobState) {
    (state.PlanReady? || state.ImplementationReady? || state.ImplementationFailed? || state.Failed?)
  }

  datatype ErrorCode =
    | BudgetLimitReached | JobInterrupted | Internal
    | ImplementationNotReady | ImplementationNotSupported
    | ImplementationWorkspaceMissing | ImplementationInvalid
    | ValidationCorrectionNotAvailable
    | StepError(name: string)

  datatype JobError = JobError(code: ErrorCode, stage: JobState)

  datatype RepoSourceKind = Remote | Local | LocalFolder

  datatype AgentUsage = AgentUsage(totalCostUsd: Option<real>, numTurns: Option<nat>)

  datatype ImplementationResult = ImplementationResult(
    summary: string, changedFiles: seq<string>, warnings: seq<string>)

  datatype ImplementationDiff = ImplementationDiff(overallPatch: string, files: seq<string>)

  datatype ValidationStatus = Passed | StatusFailed | Skipped

  datatype ValidationResult = ValidationResult(name: string, status: ValidationStatus)

  datatype Job = Job(
    id: Id,
    owner: Option<Owner>,
    state: JobState,
    error: Option<JobError>,
    repoInfo: Option<RepoSourceKind>,
    workspacePath: Option<string>,
    plan: Option<string>,
    usage: Option<AgentUsage>,
    implementationUsage: Option<AgentUsage>,
    implementationResult: Option<ImplementationResult>,
    implementationDiff: Option<ImplementationDiff>,
    validationResults: seq<ValidationResult>,
    approvedAt: Option<Time>,
    startedAt: Option<Time>,
    finishedAt: Option<Time>,
    baseline: Option<string>,
    correctionAttempted: bool,
    correctionResult: Option<ImplementationResult>,
    correctionError: Option<JobError>,
    correctionUsage: Option<AgentUsage>,
    correctionStartedAt: Option<Time>,
    workspaceRemovedAt: Option<Time>,
    createdAt: Time,
    updatedAt: Time)

  function NewJob(id: Id, owner: Option<Owner>, now: Time): Job {
    Job(id, owner, Queued, None, None, None, None, None, None, None, None, [],
        None, None, None, None, false, None, None, None, None, None, now, now)
  }

  predicate HasText(text: Option<string>) {
    text.Some? && text.value != ""
  }

  const INSTALL_STEP_NAME := "npm install"

  /** `correctable_failures`: the failed results worth handing to the agent. */
  function CorrectableFailures(results: seq<ValidationResult>): seq<ValidationResult> {
    if results == [] then []
    else
      (if results[0].status == StatusFailed && results[0].name != INSTALL_STEP_NAME then [results[0]] else [])
      + CorrectableFailures(results[1..])
  }

  predicate Correctable(results: seq<ValidationResult>) {
    CorrectableFailures(results) != []
  }

  /** What happens to one result anywhere in the list: a failed one is handed on, but for `npm install`. */
  lemma {:induction false} OneResultMore(
    before: seq<ValidationResult>, result: ValidationResult, after: seq<ValidationResult>)
    ensures CorrectableFailures([]) == []
    ensures CorrectableFailures(before + [result] + after) ==
      CorrectableFailures(before)
      + (if result.status.StatusFailed? && result.name != "npm install" then [result] else [])
      + CorrectableFailures(after)
    decreases |before|
  {
    if before == [] {
      assert before + [result] + after == [result] + after && ([result] + after)[1..] == after;
    } else {
      var all, rest := before + [result] + after, before[1..] + [result] + after;
      assert all[0] == before[0] && all[1..] == rest;
      OneResultMore(before[1..], result, after);
    }
  }

  /**
   No results are not correctable. Adding a passed, a skipped or an `npm
   install` result never changes that, and adding any other failed one always
   makes the list correctable.
   */
  lemma {:induction false} CorrectableByResults(
    before: seq<ValidationResult>, result: ValidationResult, after: seq<ValidationResult>)
    ensures !Correctable([])
    ensures result.status.Passed? || result.status.Skipped? || result.name == "npm install" ==>
      CorrectableFailures(before + [result] + after) == CorrectableFailures(before + after)
    ensures result.status.StatusFailed? && result.name != "npm install" ==> Correctable(before + [result] + after)
  {
    OneResultMore(before, result, after);
    FailuresAppend(before, after);
  }

  lemma {:induction false} FailuresAppend(a: seq<ValidationResult>, b: seq<ValidationResult>)
    ensures CorrectableFailures(a + b) == CorrectableFailures(a) + CorrectableFailures(b)
    decreases |a|
  {
    if a == [] {
      assert a + b == b;
    } else {
      assert (a + b)[0] == a[0] && (a + b)[1..] == a[1..] + b;
      FailuresAppend(a[1..], b);
    }
  }

  function Cost(usage: Option<AgentUsage>): real {
    if usage.Some? && usage.value.totalCostUsd.Some? then usage.value.totalCostUsd.value else 0.0
  }

  /** A record as `save` writes it. */
  function Stamped(job: Job, now: Time): Job {
    job.(updatedAt := now)
  }
}
