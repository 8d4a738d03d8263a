# Verified model of the job service

A Dafny model of the service that turns a ticket into a plan, the plan into
code changes in an isolated workspace, and the failed validations of those
changes into one correction: its job lifecycle, its limits, its job table, and
five of its supporting algorithms. `dafny verify dfyconfig.toml` checks all of it.

## What is modelled

**The job lifecycle** (`Models`, `Transitions`, `Lifecycle`, `System`) is a
transition system. A durable table holds whole job records. Routes start tasks;
a task keeps its own copy of the record, waits for an agent slot, and moves at
the points where the code saves or suspends; any step may raise anything, and a
task may be cancelled anywhere. A crash loses every task and local copy and
keeps the table; startup recovery follows it; a retention sweep runs beside it
all with a compare-and-set. A ledger beside each record keeps what its agents
really did and spent. `LifecycleInvariant` and `SystemInvariant` prove the
invariant of one job and of the service inductive. `Guarantees` (who is running,
how often), `Origins` (that records and ledgers show the run's own events),
`Visibility` (what the diff shows), `Accounts` (what becomes of each usage),
`Budget`, `PlanWindow` and `RealSpend` (what the spend check counts and lets
through) draw the whole-history results from it; `Witnesses` writes out the runs
that show where a promise fails.

`Runner`, `Routes`, `Recovery` and `Retention` give the same code in its own
form: tasks, handlers and loops that update records of a `JobStore` step by
step. Each is proved against the protocol: a run of a runner is a path of it,
a route starts a run exactly when its guard holds, and each turn of recovery
and of the sweep is one of its steps.

**Limits** (`Spend`, `Limits`, `Slots`): the rolling-window spend check with
its coarse prefilter and its reset instant, and the first-in-first-out slot cap.
`Scheduling` puts the semaphore under the whole service and proves that it gives
the protocol its cap and the jobs their order.

**The job table** (`Store`): a class over rows, its queries, its grouped sums
and its keyset pagination.

**Line endings** (`Replacing`, `LineEndings`), **the repository map**
(`RepoMap`, `RepoMapText`), **redaction** (`Redaction`) and **snapshot
rotation** (`Calendar`, `SnapshotNames`, `Backup`, `BackupRuns`, `Schedule`).

## What the proofs found

The code is modelled as it is. Where its comments or documentation promise more
than it does, the exact condition is proved.

- `run_job` and its siblings promise that a job always ends terminal. A task
  cancelled before its first step runs no code at all and leaves its job
  non-terminal (`Guarantees.UnstartedCancelStrandsJob`); so does a recovery
  whose diff refresh raises (`Witnesses.SkippedRecoveryLeavesJob`). Those jobs,
  and no others, are stuck, and stay so until the next restart
  (`Guarantees.UnfinishedJobsAreRunning`, `Guarantees.ExcusedExactly`,
  `Guarantees.ExcusedJobsStayStuck`), whose recovery finishes them unless it
  raises again (`Guarantees.RecoveryFinishesEveryJob`). No line of the service
  cancels a job task (the only `.cancel()` is the retention loop's own,
  `backend/app/jobs/retention.py:156`): it happens as the event loop shuts
  down, shortly before the process ends.
- A failed correction is documented to always land on IMPLEMENTATION_READY
  (`backend/app/jobs/runner.py:560-567`). Cut short by a cancellation, or by an
  exception in the refresh of its own `except` block, it lands on
  IMPLEMENTATION_FAILED (`Guarantees.CorrectionEndsReadyUnlessCutShort`,
  `Guarantees.FailedCorrectionCanFailJob`).
- The same comment promises that a failed correction leaves the
  implementation's diff untouched and never regresses it. An empty re-collection
  is put on the task's copy before validation
  (`backend/app/jobs/runner.py:639-645`), and the failure path saves that copy
  unless its refresh finds files. The job is then ready with claimed changes
  that its diff does not show (`Visibility.CorrectionLosesDiffExactly`,
  `Visibility.FailedCorrectionCanLoseDiff`, `Visibility.ReadyMeansVisibleUnlessLost`).
- Any error with the code BUDGET_LIMIT_REACHED gives the correction attempt
  back. Only the spend check raises it today, and then the correction runs at
  most once; an agent error with that code would run it again
  (`Guarantees.CorrectionRunsAtMostOnce`, `Guarantees.BudgetCodeGivesAttemptBack`).
- Costs are meant to be recorded even on failures. A returned or carried usage
  is lost in exactly the crashes, cancellations and failing cleanups that hit a
  task between its agent's outcome and the save, and when a second correction
  agent's usage takes the place of the first's (`Accounts.LossIsExact`,
  `Accounts.CostsAreConserved`). Both happen
  (`Witnesses.ReturnedUsageCanBeLost`, `Accounts.SecondCorrectionDisplaces`),
  the second only if an agent's error carries the spend check's code. Planning
  never loses one.
- The limit is on the last 24 hours, but a plan's cost is stamped, as its
  docstring says, with the job's creation and not with the run. A plan that
  waits for its slot counts for that much less of a window, and not at all from
  24 hours on (`PlanWindow.PlanCountsFromCreation`,
  `PlanWindow.LatePlanNeverCounts`, `PlanWindow.LatePlanCostsNothing`). So the
  limit bounds recorded spend (`Budget.OvershootIsBounded`), and nothing bounds
  what agents really cost in 24 hours (`RealSpend.RealSpendHasNoBound`).
- The same docstring explains the fallback on the last save by records older than
  the start stamps. The `correct-validation` route clears the stamp too: the cost
  of an earlier correction, where an error with the spend check's code gave the
  attempt back, then counts from each further save until the next correction
  passes its checks, and from that one's start after that
  (`PlanWindow.CorrectionCountsFromStart`). It can only count for longer.
- Restoring line endings is exact for files whose every LF stands after exactly
  one CR. Bare LFs are documented as a limitation; CR-CR-LF is the other one
  (`LineEndings.RoundTripIsExact`, `LineEndings.InconsistentFilesChange`).
- The repository-map parser loses root-level paths that start with `[` or a
  space (`RepoMapText.RoundTripIsExact`, `RepoMapText.BracketPathIsLost`).
- A registered secret survives redaction, for some text and some other secret,
  exactly when it can be laid over the marker `[REDACTED]`
  (`Redaction.ExactlyTheSafeSecretsAreAlwaysMasked`,
  `Redaction.MarkerWordCanSurvive`).
- A file in the backup directory whose name has a snapshot's shape but no valid
  date (`SnapshotNames.ImpossibleDateHasNoTime`) makes listing the snapshots
  raise a ValueError, which the backup loop does not handle: it dies at its next
  turn, and so does every restart (`Schedule.Sidecar.Turn`).

## Assumptions

- Events have strictly increasing times, on one clock. Saves succeed.
- A route's read, checks, save and task start are one atomic step, also against
  the retention sweep, which runs in another thread.
- An agent call ends when its step ends. Only an agent's error carries a usage.
- A waiting task's cancellation and all its effects on the semaphore (its place
  in the queue, the waiting counter, a permit handed on) are one event; in the
  code the counter drops, and the permit goes on, when the task next resumes.
- A job id is used once; the snapshots to keep are the same number throughout a
  run of the rotation.
- A file operation that fails leaves the file as it was.

## Model

| member | source | states |
|---|---|---|
| LifecycleInvariant.TaskStepKeepsInv | backend/app/jobs/runner.py:294-683 | Whatever one step of a task does (goes on, raises, is cancelled, ends its agent), its record, its local copy and what its agents really did and spent stay in agreement |
| LifecycleInvariant.EndedTaskIsTerminal | backend/app/jobs/runner.py:358-361 | A task that ends leaves its job terminal, unless it was cancelled before its first step |
| LifecycleInvariant.CrashKeepsInv | backend/app/jobs/runner.py:696-716 | A crash at any point keeps the agreement between record and history; the job is then terminal or left for recovery |
| LifecycleInvariant.RouteKeepsInv | backend/app/api/routes.py:421-497 | A route that starts a run keeps the agreement: a job gets a second task only once the first has ended |
| LifecycleInvariant.RecoverKeepsInv | backend/app/jobs/runner.py:719-742 | Recovering one job keeps the agreement, whichever state it was interrupted in and whatever its refresh finds |
| LifecycleInvariant.StepKeepsInv | backend/app/jobs/runner.py:294-752 | Every event of one job, of whatever kind, keeps its inductive invariant |
| SystemInvariant.NextKeepsInv | backend/app/jobs/runner.py:294-752 | Every event of the whole service keeps every job's invariant, the slot cap, the recovery bookkeeping and the sweep's candidates |
| SystemInvariant.RunsKeepInv | backend/app/jobs/runner.py:294-752 | The invariant holds after every run of the service: any interleaving of routes, steps, exceptions, cancellations, crashes, restarts and sweeps |
| SystemInvariant.GrantKeepsCap | backend/app/jobs/limits.py:55-74 | Letting a waiting task in while a slot is free never exceeds the cap |
| SystemInvariant.WorkIsCapped | backend/app/jobs/limits.py:55-74 | In every run no more jobs await an agent or another step of their run at a time than there are slots |
| SystemInvariant.RaisingFreesSlot | backend/app/jobs/runner.py:307-361 | A step that raises has given its slot back before the diff refresh of its except block |
| Guarantees.UnfinishedJobsAreRunning | backend/app/jobs/runner.py:294-683 | While the service is up a job is non-terminal exactly when it has its one live task (whose local state is the stored one) or is one of the excused jobs, which have none |
| Guarantees.ExcusedExactly | backend/app/jobs/runner.py:743-752 | The excused jobs are exactly those whose recovery raised, or whose task was cancelled before its first step, with no restart since |
| Guarantees.ExcusedJobsStayStuck | backend/app/jobs/runner.py:294-683 | Until the process ends, no event finishes an excused job or changes its record at all: it stays non-terminal with no task |
| Guarantees.UnstartedCancelStrandsJob | backend/app/api/routes.py:374-376 | A concrete run: a task cancelled before its first step leaves its job QUEUED, excused and without a task, with the service up; by ExcusedJobsStayStuck it stays so until the next restart |
| Witnesses.SkippedRecoveryLeavesJob | backend/app/jobs/runner.py:743-752 | A concrete run: a crash during an implementation, then a recovery whose refresh raises, leave the job IMPLEMENTING without a task, with the service up |
| Guarantees.RecoveryFinishesEveryJob | backend/app/jobs/runner.py:696-752 | A recovery in which no handler raised leaves every job terminal |
| Guarantees.RecoveryLeavesFinishedJobsAlone | backend/app/jobs/runner.py:716-742 | A crash and the recovery after it change no terminal job |
| Guarantees.AgentsRunAtMostOnce | backend/app/api/routes.py:421-497 | Over a job's whole history, with crashes and restarts anywhere: at most one plan run, at most one implementation run, and at most one correction run that did not give its attempt back |
| Guarantees.CorrectionRunsAtMostOnce | backend/app/jobs/runner.py:658-667 | The correction agent runs at most once in every run in which only the spend check raises BUDGET_LIMIT_REACHED |
| Guarantees.BudgetCodeGivesAttemptBack | backend/app/jobs/runner.py:658-667 | That condition is needed: an agent error carrying the budget code would give the attempt back after the agent ran, on every correctable job |
| Guarantees.CorrectionReachesAgent | backend/app/jobs/runner.py:575-633 | From every correctable job the correction can reach its agent |
| Guarantees.AttemptIsUsedByRunning | backend/app/jobs/runner.py:568-597 | The attempt is used only after the correction's start was saved, so a refused or earlier interrupted correction keeps it; one whose agent ran and gave nothing back has used it |
| Guarantees.CorrectionEndsReadyUnlessCutShort | backend/app/jobs/runner.py:552-683 | The state half of the promise: a correction that ends puts the job back to ready exactly unless it is cut short by a cancellation or by a refresh that raises; then the job is IMPLEMENTATION_FAILED. The implementation's result stays either way |
| Guarantees.FailedCorrectionCanFailJob | backend/app/jobs/runner.py:658-683 | It happens: from every correctable job, an agent that fails and a refresh that raises or is cancelled leave the job IMPLEMENTATION_FAILED |
| Visibility.CorrectionLosesDiffExactly | backend/app/jobs/runner.py:552-667 | The diff half of the promise is false; its exact condition: a correction turns a diff with files into one without exactly when its re-collection yields a diff with no files, the run is not cut short before that is saved, and no later refresh finds a diff with files |
| Visibility.FailedCorrectionCanLoseDiff | backend/app/jobs/runner.py:638-667 | From every correctable job whose diff shows its claimed changes, a correction that fails can end ready with its correction error set and an empty diff |
| Visibility.ReadyMeansVisibleUnlessLost | backend/app/jobs/runner.py:459-505 | In every run an implementation reported ready has a result, and its claimed changes are missing from the stored diff exactly if some event of a correction lost the diff and no event since saved one with files |
| Visibility.ClaimsAreVisibleUnlessLost | backend/app/jobs/runner.py:459-505 | The same of a record in any state, by the events of its history alone |
| Origins.OriginsAreRecorded | backend/app/jobs/runner.py:294-683 | In every run each job's record shows what the run's own events set: its owner and creation, its approval, the start of its implementation and the head read then (HEAD if none was), the end of that implementation's validation, and the start of its correction |
| Origins.SetOnce | backend/app/jobs/runner.py:427-431 | However the run goes on, with retries, corrections, crashes and recoveries: once recorded, the baseline commit and the approval's time stay as they are, as the creation and the owner always do |
| Origins.CorrectionsHaveFailures | backend/app/api/routes.py:485-487 | In every run a job under correction has failures to hand to its agent |
| Origins.LedgerIsTheRun | backend/app/jobs/runner.py:294-683 | The calls and usages that the results about agents and costs are stated in are those of the run: every agent start among its events, and every usage an agent returned or carried, in order |
| Guarantees.DeletedMeansFinished | backend/app/jobs/retention.py:106-122 | The sweep deletes only workspaces of finished, marked jobs that no task runs |
| Guarantees.MarkedIsFinal | backend/app/jobs/retention.py:106-122 | A marked record is never saved again, however the run goes on |
| Guarantees.NothingRunsOnDeletedWorkspace | backend/app/api/routes.py:208-217 | No route or task of any job acts on a workspace the sweep has begun to delete |
| Guarantees.MarkChangesOnlyItsStamp | backend/app/jobs/store.py:243-262 | The mark lands only on a finished record that is exactly what the sweep listed and old enough, and writes nothing but its own stamp |
| Guarantees.CostsAreStampedByUpdates | backend/app/jobs/store.py:179-187 | In every run every recorded cost is stamped no later than its record's last save, which is what the spend prefilter needs |
| Accounts.LossIsExact | backend/app/jobs/runner.py:440-458 | A usage that an agent returned or carried is lost in exactly two kinds of event, for good: a crash, cancellation or failing cleanup between the agent's outcome and the save, and a second correction agent's usage, for which the record has no room beside the first |
| Accounts.UsagesAreKeptExactly | backend/app/jobs/runner.py:339-354 | Over a job's whole history every usage its agents returned or carried is on the record, or held by the task that will save it, exactly when no such event happened |
| Accounts.CostsAreConserved | backend/app/jobs/runner.py:339-354 | A job without a live task carries exactly all the usages its agents returned or put on their errors if and only if no such event happened; the plan's usage is never lost at all |
| Accounts.NothingIsDisplaced | backend/app/jobs/runner.py:658-667 | No usage is dropped or displaced in a run in which only the spend check raises BUDGET_LIMIT_REACHED and no crash, cancellation or failing cleanup hits a task between outcome and save |
| Accounts.OwnersCostsAreConserved | backend/app/jobs/store.py:294-322 | Once no task lives, the records of all an owner's jobs carry exactly all the usages ever booked if and only if no event dropped or displaced a usage of that owner's jobs |
| Accounts.GroupedSumsAddUp | backend/app/jobs/store.py:294-322 | And then each of that owner's grouped sums is all that the agents ever cost that owner |
| Accounts.SecondCorrectionDisplaces | backend/app/jobs/runner.py:658-667 | Without that condition it does happen: two correction agents whose errors carry that code and a usage each leave only the second on the record |
| Accounts.RunEndsAccounted | backend/app/jobs/runner.py:339-354 | At the end of one runner's run its agent was started at most once, and the record carries exactly the usages booked if and only if no step of the run dropped or displaced one |
| Witnesses.ReturnedUsageCanBeLost | backend/app/jobs/runner.py:440-458 | A concrete run: the process dies while the line endings are restored, and the record of the job never shows the usage its implementation agent returned |
| Budget.OvershootIsBounded | backend/app/jobs/limits.py:163-197 | For a positive limit, if no run costs more than c and no step but the spend check raises BUDGET_LIMIT_REACHED: an owner's recorded spend in the window is at every point of every run below the limit plus c for each of the owner's runs in flight together |
| Budget.StepExposure | backend/app/jobs/runner.py:306-361 | Under the same two conditions on the event, no event of a job but its admission to a slot raises the sum of what it has recorded in the window and what it may still record |
| Budget.AdmittedBelowBudget | backend/app/jobs/runner.py:306-310 | A run is admitted to a slot only while its owner's recorded spend is below the limit |
| Budget.PlansInFlightHoldSlots | backend/app/jobs/runner.py:306-345 | Plan runs in flight hold slots, so there are never more of them than slots |
| Budget.PlanOvershootIsBoundedBySlots | backend/app/jobs/runner.py:306-354 | Under the conditions of OvershootIsBounded, with plan runs alone the limit is overshot by at most one run's cost per slot |
| Runner.RunJob | backend/app/jobs/runner.py:294-361 | run_job on its own row is a path of the protocol from its first step to its end; the spend check in the slot is the real one, over the table; the record ends as that check and the awaits of the script decide (state, error code, and on success plan, usage, repository kind and workspace path), and no other row changes |
| Runner.RunImplementation | backend/app/jobs/runner.py:392-549 | run_implementation likewise: on success the record holds the agent's usage, its result with the list repaired, the collected diff and the validations; if the except block's refresh raises, the finally block's INTERNAL failure stands instead. However it ends, the baseline is the head that was read, or HEAD if that gave none, exactly when the checks in the slot passed and the head read returned, and what it was before otherwise |
| Runner.RunValidationCorrection | backend/app/jobs/runner.py:575-683 | run_validation_correction likewise: on success the record holds the correction's result and usage, the validations, the attempt as used, and the collected diff if there is one, else the old one; the implementation's result and usage stay. The agent is handed exactly the correctable failures, or is not started; the baseline never changes |
| Runner.JobTask.PlanSteps | backend/app/jobs/runner.py:306-343 | The body of run_job leaves its try by exactly the first await that does not run through, and the raised exception is the protocol's next step |
| Runner.JobTask.ImplementSteps | backend/app/jobs/runner.py:404-505 | The body of run_implementation likewise: the in-slot checks in their order, then head, normalisation, agent, restore, diff, claim check and validation |
| Runner.JobTask.CorrectSteps | backend/app/jobs/runner.py:590-649 | The body of run_validation_correction likewise |
| Runner.JobTask.FinishAgent | backend/app/jobs/runner.py:440-451 | However the agent ends, the line endings are restored before its outcome goes on; an exception while restoring replaces it |
| Runner.JobTask.Handle | backend/app/jobs/runner.py:506-549 | The except blocks: carried usage, diff refresh and the failure's record; a refresh that raises or is cancelled leaves the failure to finally, which touches only an unfinished record |
| Runner.JobTask.Finally | backend/app/jobs/runner.py:540-549 | The finally block fails an unfinished record as INTERNAL and leaves a finished one alone |
| Runner.PathKeepsInv | backend/app/jobs/runner.py:294-683 | A runner's path from a state the protocol can be in stays within the protocol's invariant |
| Transitions.Fail | backend/app/jobs/runner.py:145-155 | A failed record has the given state and an error whose code is given and whose stage is the state it failed in; every other field is as it was |
| Transitions.RecordCorrectionFailure | backend/app/jobs/runner.py:552-572 | A failed correction is back at ready with its error and stage, and can be corrected again exactly when the attempt was not used and it could be before; nothing else changes, the implementation's result and diff included |
| Transitions.RefreshDiffBestEffort | backend/app/jobs/runner.py:364-389 | The refresh itself never regresses: it changes nothing but the diff, only to a collected one with files, always when workspace and baseline are known and such a diff is found, and it hides no claimed change that was shown |
| Transitions.Listed | backend/app/jobs/runner.py:489-497 | A list the agent gave is kept; a missing one is the diff's files, with exactly one warning that says so added to the agent's own; the repaired result never claims what the diff does not show unless the agent's own did |
| Models.OneResultMore | backend/app/steps/validation_runner.py:509-521 | What one result adds to the list handed to the correction's agent, wherever it stands: itself if it failed and is no npm install step, else nothing |
| Models.CorrectableByResults | backend/app/steps/validation_runner.py:509-521 | No results are not correctable; a passed, a skipped or an npm install result never changes the list; any other failed one makes the job correctable |
| Routes.Service.CreateJob | backend/app/api/routes.py:361-378 | Creating a job inserts a QUEUED record of this owner, created now and empty in every other field, and starts one plan run |
| Routes.Service.ImplementJob | backend/app/api/routes.py:421-466 | implement answers with the first check that fails and changes nothing, or else saves the record as approved now, with nothing left of an earlier implementation and every other field kept, and starts one run |
| Routes.Service.CorrectValidation | backend/app/api/routes.py:469-497 | correct-validation likewise; it starts a run only with a non-empty list of failures to hand on, and changes nothing but the state, the correction's start and the save's own stamp |
| Routes.RoutesAreProtocolSteps | backend/app/api/routes.py:421-497 | A route starts a run exactly when the protocol and the budget let it |
| Recovery.RecoverInterruptedJobs | backend/app/jobs/runner.py:696-752 | The recovery loop saves every unfinished job whose handler does not raise, each once, leaves every other row as it was, and counts them |
| Recovery.RecoverOne | backend/app/jobs/runner.py:717-742 | One job's handler saves what its interrupted state calls for, or is skipped when its refresh raises |
| Recovery.RecoveryIsProtocolStep | backend/app/jobs/runner.py:717-742 | That is the protocol's recovery step |
| Recovery.RecoveredIsTerminal | backend/app/jobs/runner.py:688-742 | A recovered job is terminal: failed in its own phase, or back to ready after a correction, whose attempt is used exactly if its start was saved; its diff is the refreshed one exactly if that was found with files, and its error names the state it was interrupted in |
| Retention.SweepExpiredWorkspaces | backend/app/jobs/retention.py:93-130 | An undisturbed pass marks exactly the due rows, each once, deletes exactly what is marked afterwards, and changes no other field |
| Retention.SweepOne | backend/app/jobs/retention.py:107-122 | One turn of the sweep's loop, whatever has become of the row since it was listed: it marks exactly when the candidate was listed unmarked and old enough and the row is still finished, unmarked and unchanged, and goes on to delete exactly when the row was listed as marked or is marked now |
| Retention.SweepIsProtocolStep | backend/app/jobs/retention.py:107-122 | Each turn is the protocol's step: it leaves exactly the rows the protocol's step leaves and goes on to delete exactly when the protocol does |
| Retention.ListingIsProtocolStep | backend/app/jobs/retention.py:107-107 | A listing is one the protocol's sweep can start from exactly when it is one the store can give, and the candidates are the listed rows |
| Retention.SecondPassMarksTheNewlyDue | backend/app/jobs/retention.py:106-122 | Over two passes with nothing in between, the second marks exactly the unmarked finished rows that came due since the first's cutoff, and stamps no row a second time |
| Retention.FirstPassPastRetentionMarks | backend/app/jobs/retention.py:106-122 | However often the sweep passes over a finished row, the first pass a retention period after its last save marks it, and no other does |
| Store.JobStore.Create | backend/app/jobs/store.py:164-177 | Inserts the record; a taken id changes nothing |
| Store.JobStore.Save | backend/app/jobs/store.py:179-187 | Stamps the record and replaces exactly its own row, if there is one |
| Store.JobStore.MarkWorkspaceRemoved | backend/app/jobs/store.py:243-262 | Marks exactly when the row is finished, unmarked and unchanged since it was listed |
| Store.JobStore.ListUnfinishedJobs | backend/app/jobs/store.py:264-276 | Exactly the non-terminal rows, each once, oldest first |
| Store.JobStore.ListRetentionCandidates | backend/app/jobs/store.py:223-241 | Exactly the finished rows, each once, marked ones included |
| Store.JobStore.ListOwnerJobsUpdatedSince | backend/app/jobs/store.py:278-292 | Exactly the owner's rows whose save falls in or after the cutoff's whole second |
| Store.JobStore.CostSummaryByOwner | backend/app/jobs/store.py:294-322 | One group per owner with jobs, with that owner's count and the three column sums |
| Store.JobStore.ListJobs | backend/app/jobs/store.py:194-221 | One page: the newest of the owner's rows below the cursor, newest first, and a cursor exactly when there are more |
| Store.SummaryAfter | backend/app/jobs/store.py:294-322 | One row more keeps every group's count and sums right |
| Store.ListingIsUnique | backend/app/jobs/store.py:194-215 | With distinct creation times the newest-first listing is unique |
| Store.WalkYieldsEveryJobOnce | backend/app/jobs/store.py:194-221 | Following the cursors from the first page to the end yields exactly the owner's jobs that existed at the first fetch, newest first, each once, while newer jobs arrive; a walk has at most one page per row, plus one |
| Spend.WindowCostIsEventSum | backend/app/jobs/limits.py:100-121 | A job's weight in a window is the sum of its spend events in it |
| Spend.EachCostCounts | backend/app/jobs/limits.py:100-121 | Taking any one agent's positive cost out of any row of the table lowers its owner's spend by exactly that cost until a window after the plan's job was created, the implementation or correction started, or, if no start is recorded, the row was last saved; and by nothing from then on |
| Spend.NothingElseWeighs | backend/app/jobs/limits.py:94-121 | A usage without a cost, or without a positive one, weighs nothing, and neither does anything but the three usages |
| PlanWindow.PlanCountsFromCreation | backend/app/jobs/limits.py:100-121 | In every run and at every instant a recorded plan cost adds itself to its owner's spend exactly until 24 hours after the job's creation in that run, whenever the plan ran |
| PlanWindow.ImplementationCountsFromStart | backend/app/jobs/limits.py:100-121 | In every run and at every instant a recorded implementation cost adds itself to its owner's spend exactly until 24 hours after the event in which that implementation read its baseline |
| PlanWindow.CorrectionCountsFromStart | backend/app/jobs/limits.py:100-121 | And a recorded correction cost until 24 hours after the event in which the latest correction asked for passed its checks, or after the job's last save while that has not happened |
| PlanWindow.LatePlanNeverCounts | backend/app/jobs/limits.py:103-112 | So it changes no spend check from now on exactly when 24 hours have passed since the creation; a plan saved that late never counts |
| PlanWindow.LateStartNeverCounts | backend/app/jobs/limits.py:103-112 | In particular a plan run whose slot was granted 24 hours or more after the job's creation |
| PlanWindow.LatePlanCostsNothing | backend/app/jobs/runner.py:306-354 | A concrete run: a plan of any cost whose slot is granted a window after the creation is on the record, and the owner's spend just after is zero |
| RealSpend.RealSpendHasNoBound | backend/app/jobs/limits.py:100-160 | The limit bounds no more than recorded spend: for any number of jobs there is a run, with any limit above zero and any cap, in which that many plans run within 24 hours, booked at any cost each, while the owner's spend stays zero |
| Spend.PrefilterDropsNothing | backend/app/jobs/store.py:278-292 | A row the second-truncated prefilter leaves out has no spend in the window |
| Spend.ResetIsLeast | backend/app/jobs/limits.py:150-160 | When spend is at or over a positive limit the scan yields an instant, and it is the least one from now on at which the window sum is below the limit, equal timestamps included |
| Spend.NoResetWithoutLimit | backend/app/jobs/limits.py:150-160 | With a limit of zero or less the scan yields none |
| Limits.CurrentSpend | backend/app/jobs/limits.py:137-160 | The status tells the table's window spend and the exact reset instant |
| Limits.CheckSpendLimit | backend/app/jobs/limits.py:163-197 | Refuses exactly when there is a limit and an owner and the owner's window spend over the whole table is at or over it |
| Limits.PrefilterSum | backend/app/jobs/limits.py:141-151 | For the window's start and any later instant, the prefiltered rows weigh what all the owner's rows do |
| Limits.ScanMeetsStatus | backend/app/jobs/limits.py:141-160 | Collecting, sorting and scanning the prefiltered events meets the status specification over the whole table |
| Limits.CollectEvents | backend/app/jobs/limits.py:142-151 | Collects exactly the events newer than the window's start, all of them positive |
| Limits.ResetInstant | backend/app/jobs/limits.py:153-159 | The loop that lowers the remainder computes the reset scan |
| Slots.CapIsFairAndLeaksNothing | backend/app/jobs/limits.py:39-74 | After any run of arrivals, resumptions, cancellations and exits: running is the number inside and at most the limit, waiting the number waiting, starts and queue together are the arrivals not cancelled while waiting in arrival order, every permit is free, held or granted, none is left over when all have gone, and with nobody inside the first waiter can go ahead |
| Slots.EveryEventKeepsInv | backend/app/jobs/limits.py:55-74 | Every event keeps the counts, the order and the promise that a free permit is on its way to the first waiter |
| Slots.CancelKeepsInv | backend/app/jobs/limits.py:64-69 | A cancelled waiter leaves the queue and a permit already granted to it goes to the next one |
| Slots.SurvivingWithout | backend/app/jobs/limits.py:42-44 | Cancelling one waiter takes exactly that one out of the arrival order |
| Slots.HistoryIsTheRun | backend/app/jobs/limits.py:55-74 | The recorded arrivals and cancellations are those of the run |
| SlotMoves.EventMovesItsTask | backend/app/jobs/limits.py:55-74 | Every slot event moves its own task and no other: into the queue, inside or out, and each start is the next in the order |
| Scheduling.ScheduledRunsAreRuns | backend/app/jobs/limits.py:39-74 | The service with its semaphore is the service of the protocol, whose cap is then no assumption: every such run is a run of the protocol, and what the semaphore saw since the process started is a run of the slots, whose tickets are those of the jobs waiting and inside |
| Scheduling.MomentKeepsAgreement | backend/app/jobs/limits.py:55-74 | Every moment of the service, crashes included, keeps tickets and tasks in agreement |
| Scheduling.JobsStartInOrder | backend/app/jobs/limits.py:42-44 | Since the process started, jobs are let into a slot in the order in which their tasks came for one, but for those cancelled while waiting; never more than the limit at once; and while none is inside, the first that waits can go on |
| Slots.AgentSlots.Enter | backend/app/jobs/limits.py:55-70 | Entering starts at once when a permit is free and nobody waits, and queues otherwise |
| Slots.AgentSlots.ResumeFirst | backend/app/jobs/limits.py:64-70 | The granted first waiter goes ahead and further permits are handed on |
| Slots.AgentSlots.Cancel | backend/app/jobs/limits.py:64-69 | Cancelling a waiter, granted or not, has exactly the model's effect |
| Slots.AgentSlots.Exit | backend/app/jobs/limits.py:71-74 | Leaving frees one permit and grants it to the first waiter without one |
| Slots.MakeSlots | backend/app/jobs/limits.py:46-52 | A limit below one is refused; any other starts with all permits free |
| Replacing.ReplaceAll | backend/app/steps/line_endings.py:124-124 | The scanning loop computes the leftmost, non-overlapping replacement |
| Replacing.ReplaceIsSplitJoin | backend/app/steps/line_endings.py:103-103 | Replacement is cutting at the occurrences and joining with the replacement; joining with the pattern gives the text back |
| Replacing.SplitLeavesNothing | backend/app/steps/line_endings.py:103-103 | The cuts are leftmost first and leave no occurrence between them |
| LineEndings.RestoredInsertsMissingCrs | backend/app/steps/line_endings.py:119-124 | The two-pass restore is one CR inserted before each LF that has none |
| LineEndings.CollapseUndoesExpand | backend/app/steps/line_endings.py:119-124 | Collapsing undoes expanding, on every byte string |
| LineEndings.RestoringTwiceIsRestoringOnce | backend/app/steps/line_endings.py:119-124 | Restoring is idempotent and keeps the content up to line endings |
| LineEndings.RestoredKeepsExactlyWhatHasNoBareLf | backend/app/steps/line_endings.py:119-124 | Restoring changes nothing exactly on files without a bare LF, and leaves none |
| LineEndings.RestoredAddsNoCrCrLf | backend/app/steps/line_endings.py:119-124 | Restoring creates no CR-CR-LF that was not there |
| LineEndings.RoundTripIsExact | backend/app/steps/line_endings.py:21-36 | A normalised, unedited, restored file has its original bytes exactly when every LF stands after exactly one CR |
| LineEndings.InconsistentFilesChange | backend/app/steps/line_endings.py:21-36 | Both ways fail on a concrete file: a bare LF comes back with a CR, and CR-CR-LF comes back without one |
| LineEndings.Workspace.NormalizeToLf | backend/app/steps/line_endings.py:62-107 | By bytes: reports exactly the readable and writable files within the size and under no skipped directory that have no zero byte among their first 8000 and CR LF somewhere, takes the CR out of each CR LF of those, and leaves every other file its bytes |
| LineEndings.Workspace.RestoreOriginalLineEndings | backend/app/steps/line_endings.py:110-129 | Restores exactly the reported files that still exist and can be read and written |
| LineEndings.WorkspaceRoundTrip | backend/app/steps/line_endings.py:18-36 | An untouched workspace comes back whole exactly when every converted file is consistent, and its binary files always do; whatever was edited, files outside the converted set keep their bytes and converted ones keep their lines |
| RepoMap.IterFiles | backend/app/steps/repo_map.py:151-166 | The stack loop ends and returns the first max_files files of the whole walk that never enters an excluded directory; truncated holds exactly when there are more |
| RepoMap.WalkDirectory | backend/app/steps/repo_map.py:157-165 | One directory gives its files up to the cap and its entered subdirectories to the stack |
| RepoMap.OneDirectoryMore | backend/app/steps/repo_map.py:154-165 | A step takes the directory's files off the front of what is left of the walk, and nodes off the stack |
| RepoMap.WalkFindsExactlyTheFiles | backend/app/steps/repo_map.py:157-165 | The walk finds exactly the files that no excluded directory stands above |
| RepoMap.WalkAvoidsExactlyTheExcluded | backend/app/steps/repo_map.py:151-166 | From the root those are exactly the files of the tree with no excluded name among the directories on their path |
| RepoMap.EachFileIsWalkedOnce | backend/app/steps/repo_map.py:151-166 | With distinct sibling names no file is walked twice |
| RepoMapText.BuildRepoMapText | backend/app/steps/repo_map.py:169-205 | The files in the order of their paths, each with the symbols its extraction gave (none for an unknown language, a file too big or one that fails to parse), printed, joined and cut at max_chars with the marker; the symbol count; truncated exactly if the walk or the text was |
| RepoMapText.SymbolLineTells | backend/app/steps/repo_map.py:187-192 | A printed symbol line determines its kind, name and line number, whatever the name holds, for kinds that are words |
| RepoMapText.CountIsOfSymbolLines | backend/app/steps/repo_map.py:180-193 | The symbol count is the number of lines that are not paths |
| RepoMapText.OrderOfWalkDoesNotMatter | backend/app/steps/repo_map.py:177-177 | The printed order depends on the files alone, not on the order the walk found them in |
| RepoMapText.ParseRepoMapFiles | backend/app/steps/repo_digest.py:69-92 | The parser's loop computes its line-by-line specification |
| RepoMapText.RoundTripIsExact | backend/app/steps/repo_digest.py:76-92 | Parsing an uncut map gives every path in order with its symbol count exactly when every path is non-empty and starts with neither a space nor '['; otherwise exactly the other paths are counted as files |
| RepoMapText.BracketPathIsLost | backend/app/steps/repo_digest.py:80-84 | Root files named like `[id].tsx` and like ` a.txt` are lost by the parser |
| RepoMapText.CutMapParsesToAPrefix | backend/app/steps/repo_map.py:194-197 | A map cut at any character and marked parses to the first files of the real list: all but the last exact, the last with a non-empty prefix of its path, no more symbols than it has, and none if its path was cut |
| Redaction.SecretRegistry.RegisterSecret | backend/app/core/secrets.py:51-54 | Registers exactly values of at least eight characters |
| Redaction.SecretRegistry.Redact | backend/app/core/logging.py:19-26 | The result is the replacements in some order of the registry, followed by the patterns in theirs, each of which masks every one of its matches and keeps every character between them; it holds no safe registered secret |
| Redaction.SubstitutionIsExact | backend/app/core/logging.py:24-25 | A pattern's pass changes the length by ten less its own length for each match, puts the marker where each match stood, moved by the ones before it, and keeps each stretch between matches in order |
| Redaction.PatternsRun | backend/app/core/logging.py:24-25 | And so does each pass of the pattern loop with what the one before it left |
| Redaction.LoneSecretIsMasked | backend/app/core/logging.py:20-23 | A registered value that stands once in the text is masked where it stands, safe or not, and nothing else is |
| Redaction.NothingToMask | backend/app/core/logging.py:20-23 | A text in which no registered value stands is left as it is |
| Redaction.NoSafeSecretSurvives | backend/app/core/logging.py:19-26 | Whatever the order and whatever the patterns match, no registered secret that does not overlap the marker is left |
| Redaction.BracketFreeIsSafe | backend/app/core/logging.py:16-26 | A registered secret without brackets does not overlap the marker, unless it is the word REDACTED |
| Redaction.ExactlyTheSafeSecretsAreAlwaysMasked | backend/app/core/logging.py:19-23 | A secret is masked in every text whatever else is registered exactly when it does not overlap the marker |
| Redaction.MarkerWordCanSurvive | backend/app/core/logging.py:19-23 | There is such a secret: the marker's own word, once registered, survives some text |
| Redaction.JoinSpellsNothing | backend/app/core/logging.py:23-25 | Joining pieces with the marker spells no secret that the marker does not overlap |
| SnapshotNames.NameReadsBack | deploy/vm/backup/sqlite_backup.py:105-114 | The time read from a snapshot's name is the time it was made from |
| SnapshotNames.TimeNamesBack | deploy/vm/backup/sqlite_backup.py:109-114 | Every name with a time is the name made from that time |
| SnapshotNames.SnapshotFilesSortAsTimes | deploy/vm/backup/sqlite_backup.py:117-122 | Names that carry a time sort as their times do |
| SnapshotNames.LeftoverIsNoSnapshot | deploy/vm/backup/sqlite_backup.py:206-210 | No file the leftover glob matches looks like a snapshot |
| SnapshotNames.PartialsAreLeftovers | deploy/vm/backup/sqlite_backup.py:206-210 | Every partial file's name is a leftover, whatever SQLite appends to it |
| SnapshotNames.ImpossibleDateHasNoTime | deploy/vm/backup/sqlite_backup.py:109-114 | A file named for 30 February has a snapshot's shape and no time: reading it raises |
| Calendar.SecondsSort | deploy/vm/backup/sqlite_backup.py:223-232 | Calendar times are ordered as the seconds between them, leap years included |
| Calendar.DaysByRule | deploy/vm/backup/sqlite_backup.py:223-232 | The days before a year, added up year by year, are 365 each, one more every 4 years, none of those every 100, and one every 400 |
| Backup.BackupsAreSafe | deploy/vm/backup/sqlite_backup.py:163-220 | From any directory whose snapshots are sound, after any sequence of file operations with crashes and exceptions between them, every file with a snapshot's name passed the check, and the snapshots on disk are the newest of all successes: all of them, or at least keep |
| Backup.EveryEventKeepsInv | deploy/vm/backup/sqlite_backup.py:163-211 | Every file operation, exception and crash keeps the rotation's invariant |
| Backup.NothingGoodIsLost | deploy/vm/backup/sqlite_backup.py:199-205 | Only a prune after a success removes a snapshot, and only one with keep newer ones beside it |
| Backup.FinishedBackupIsTidy | deploy/vm/backup/sqlite_backup.py:199-211 | A backup that runs to its end leaves exactly the newest keep successes and no partial file |
| Backup.NewestOnDiskIsLastSuccess | deploy/vm/backup/sqlite_backup.py:230-232 | Whatever has been pruned, the newest snapshot on disk is the last one that succeeded |
| Schedule.SecondsUntilDue | deploy/vm/backup/sqlite_backup.py:223-227 | Zero exactly when a snapshot is due, else the time left until then |
| Schedule.WaitFor | deploy/vm/backup/sqlite_backup.py:243-247 | The loop's wait ends at the first instant at which a snapshot is due and no retry is pending, and is none exactly when that is now |
| Schedule.Sidecar.Turn | deploy/vm/backup/sqlite_backup.py:240-259 | One turn of the loop reads the newest snapshot off the directory; it attempts a backup exactly when one is due, with the backup's whole effect on the directory, and otherwise sleeps at most five minutes and never past the due time, and when less than five minutes exactly until it; it dies exactly on a name with an impossible date; and what it did goes on, file operation by file operation, with the directory's history as a due run of the rotation |
| Schedule.SnapshotsAreSpaced | deploy/vm/backup/sqlite_backup.py:10-11 | Over every run of file operations, exceptions and crashes in which each attempt begins when the directory says it is due, any two snapshots ever taken are at least the interval apart by their names, but for less than a second if the interval is no whole number of seconds |
| Schedule.LoopIsSafe | deploy/vm/backup/sqlite_backup.py:10-25 | So after any history that turns of the loop and crashes in them have left, every snapshot in the directory passed the check, they are the newest of all taken, at least keep of them once that many were, and any two ever taken are an interval apart |
| Schedule.AttemptIsTraced | deploy/vm/backup/sqlite_backup.py:214-220 | A due attempt's effect on the directory extends its history to another such history |
| Schedule.CutOffIsTraced | deploy/vm/backup/sqlite_backup.py:240-259 | And so does a crash after any of its file operations |
| Schedule.AttemptsBeginDue | deploy/vm/backup/sqlite_backup.py:246-253 | What the loop attempts begins when the directory says it is due |
| Schedule.RetriesAreSpaced | deploy/vm/backup/sqlite_backup.py:62-63 | Within one process the attempt after a failed one comes no sooner than the retry delay |
| Backup.BackupDir.ListSnapshots | deploy/vm/backup/sqlite_backup.py:117-122 | Exactly the snapshots, oldest first; it raises exactly when a file looks like a snapshot but names no date |
| Backup.BackupDir.TakeSnapshot | deploy/vm/backup/sqlite_backup.py:163-196 | A snapshot file appears only from a copy that passed the check; every failure takes its partial file away |
| Backup.BackupDir.Prune | deploy/vm/backup/sqlite_backup.py:199-211 | Deletes exactly all but the newest keep snapshots, and every leftover |
| Backup.BackupDir.BackupOnce | deploy/vm/backup/sqlite_backup.py:214-220 | A failed backup costs no snapshot; a successful one leaves exactly the newest keep of the others and the new one; it raises past the loop's handler exactly when a copy that succeeded meets a name with an impossible date in the prune |
| BackupRuns.BackupIsRun | deploy/vm/backup/sqlite_backup.py:163-220 | Whatever comes of an attempt, what it does to the directory is a run of the rotation's file operations that ends at rest, with one beginning at its head or, without a database, none |

## Left out

- The routes that create and push branches, and branch preparation: they suspend between reading and saving a record, so they do not keep the single-writer discipline the invariants state.
- The insides of the steps (fetch, clone, map, agent, diff, validation): each is an arbitrary result, typed error or other exception.
- The order in which waiting tasks are let in is free in `System`, which allows more runs than the code; `Scheduling` proves that the code's are among them and in arrival order. The mode without slots is not modelled.
- The activity log's text, and the record fields that no modelled decision reads.
- SQLite, SQL text, JSON encoding, fsync and file permissions: the table is a map and the backup directory a map from names to whether the file is sound.
- Money is real numbers, so float rounding is not modelled. Timestamps that fail to parse are not modelled.
- The sweep's deletion of directories can fail and be retried; here it is one event whose start is what counts.
- RepoMap.IterFiles: the entries of a directory stand in the order the walk sorts them; the sort itself is not modelled.
- RepoMapText.BuildRepoMapText: what a tree-sitter grammar extracts from a file is not modelled; each file comes with its outcome.
- RepoMapText.RoundTripIsExact: the only line break is the line feed; the other characters that `str.splitlines` breaks at are not modelled.
- Redaction.SecretRegistry.Redact: a token pattern is any choice of disjoint non-empty substrings; which ones a regular expression matches is not modelled.
- Redaction.ExactlyTheSafeSecretsAreAlwaysMasked: the counterexample needs one character that neither the secret nor the marker holds.
- SnapshotNames.NameReadsBack: the year is printed with four digits, as it is for years from 1000 on; `\d` is an ASCII digit and `$` does not admit a trailing line feed.
- LineEndings.Workspace.NormalizeToLf: symbolic links and files that change while the walk runs are not modelled.
- Restoring a snapshot and the health check of the backup loop: they would add only easy members.
- Schedule.Sidecar.Turn: that its history stays a run of the rotation is stated for intervals of a second or more.
- The remaining modules (sign-in, connections, HTTP handling, prompts, the frontend).
