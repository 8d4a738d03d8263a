/** Startup recovery over the job table, as the loop it is. */
module Recovery {
  import opened Prelude
  import opened Models
  import opened Transitions
  import opened Store
  import opened Lifecycle

  /** What the diff refresh of one job does. */
  datatype Refresh = Raises | Collects(diff: Option<ImplementationDiff>)

  /** Only the refresh can raise, and plan-pipeline jobs have none. */
  predicate Skipped(job: Job, refresh: Refresh) {
    refresh.Raises? && (IsCorrectionState(job.state) || IsImplementationState(job.state))
  }

  predicate FindsDiff(refresh: Refresh) {
    refresh.Collects? && refresh.diff.Some? && refresh.diff.value.files != []
  }

  predicate Recovers(job: Job, refresh: Refresh) {
    !IsTerminal(job.state) && !Skipped(job, refresh)
  }

  /** What recovery makes of a row: terminal and skipped rows stay as they are. */
  function AfterRecovery(job: Job, refresh: Refresh, now: Time): Job {
    if Recovers(job, refresh)
    then Stamped(Recovered(job, if refresh.Collects? then refresh.diff else None), now)
    else job
  }

  /** It is the protocol's recovery step. */
  lemma RecoveryIsProtocolStep(cell: Cell, refresh: Refresh, now: Time)
    requires !IsTerminal(cell.stored.state)
    ensures var raises := Skipped(cell.stored, refresh);
            var diff := if refresh.Collects? then refresh.diff else None;
            && Enabled(cell, Recover(raises, diff))
            && Step(cell, Recover(raises, diff), now).stored == AfterRecovery(cell.stored, refresh, now)
  {}

  /** A recovered job is terminal: failed in its own phase, or back to ready after a correction. */
  lemma RecoveredIsTerminal(job: Job, refresh: Refresh, now: Time)
    requires Recovers(job, refresh)
    ensures var after := AfterRecovery(job, refresh, now);
            && IsTerminal(after.state)
            && after.state == (match job.state
                               case Correcting | Revalidating => ImplementationReady
                               case ImplementationQueued | Implementing | Validating => ImplementationFailed
                               case _ => Failed)
            && (IsCorrectionState(job.state) ==>
                  after.state == ImplementationReady && after.implementationResult == job.implementationResult
                  && (after.correctionAttempted <==> job.correctionAttempted || job.correctionStartedAt.Some?))
            && (IsImplementationState(job.state) ==> after.state == ImplementationFailed)
            && (!IsCorrectionState(job.state) && !IsImplementationState(job.state) ==>
                  after.state == Failed && after.implementationDiff == job.implementationDiff)
            && (if IsCorrectionState(job.state)
                then after.correctionError == Some(JobError(JobInterrupted, job.state)) && after.error == job.error
                else after.error == Some(JobError(JobInterrupted, job.state)))
            && (after.implementationDiff == job.implementationDiff
                || (after.implementationDiff.Some? && after.implementationDiff.value.files != []))
            && (IsCorrectionState(job.state) || IsImplementationState(job.state) ==>
                  after.implementationDiff ==
                    if FindsDiff(refresh) && HasText(job.workspacePath) && HasText(job.baseline)
                    then refresh.diff else job.implementationDiff)
            && after.updatedAt == now
  {}

  /** The body of the loop: one job's handler, by the state it was interrupted in. */
  method RecoverOne(store: JobStore, interrupted: Job, refresh: Refresh, now: Time) returns (saved: bool)
    requires interrupted.id in store.rows && !IsTerminal(interrupted.state)
    modifies store
    ensures saved <==> Recovers(interrupted, refresh)
    ensures store.rows ==
              if saved then old(store.rows)[interrupted.id := AfterRecovery(interrupted, refresh, now)]
              else old(store.rows)
  {
    var job := interrupted;
    if IsCorrectionState(interrupted.state) {
      if refresh.Raises? {
        return false;
      }
      job := RefreshDiffBestEffort(job, refresh.diff);
      // A correction still waiting for a slot never ran, so it keeps its attempt.
      job := RecordCorrectionFailure(job, JobInterrupted, job.correctionStartedAt.Some?);
    } else if IsImplementationState(interrupted.state) {
      if refresh.Raises? {
        return false;
      }
      job := RefreshDiffBestEffort(job, refresh.diff);
      job := Fail(job, JobInterrupted, ImplementationFailed);
    } else {
      job := Fail(job, JobInterrupted, Failed);
    }
    job := store.Save(job, now);
    saved := true;
  }

  /** The rows of `seen` are recovered, the others untouched. */
  predicate RecoveredSoFar(
    rows: map<Id, Job>, before: map<Id, Job>, seen: set<Id>, refresh: Id -> Refresh, clock: Id -> Time)
  {
    && rows.Keys == before.Keys
    && forall id :: id in before ==>
         rows[id] == if id in seen then AfterRecovery(before[id], refresh(id), clock(id)) else before[id]
  }

  lemma OneMore(
    rows: map<Id, Job>, after: map<Id, Job>, before: map<Id, Job>, seen: set<Id>, id: Id,
    refresh: Id -> Refresh, clock: Id -> Time)
    requires RecoveredSoFar(rows, before, seen, refresh, clock) && id in before && id !in seen
    requires after == if Recovers(before[id], refresh(id))
                      then rows[id := AfterRecovery(before[id], refresh(id), clock(id))] else rows
    ensures RecoveredSoFar(after, before, seen + {id}, refresh, clock)
  {}

  lemma {:induction false} AllRecovered(
    before: map<Id, Job>, rows: map<Id, Job>, ids: seq<Id>, refresh: Id -> Refresh, clock: Id -> Time)
    requires RecoveredSoFar(rows, before, Seen(ids, |ids|), refresh, clock)
    requires forall id :: id in ids <==> id in before && !IsTerminal(before[id].state)
    ensures RecoveredSoFar(rows, before, before.Keys, refresh, clock)
    ensures Recovering(before, Seen(ids, |ids|), refresh) == Recovering(before, before.Keys, refresh)
  {
    AllSeen(ids);
  }

  /** The jobs among `seen` that recovery saves. */
  ghost function Recovering(before: map<Id, Job>, seen: set<Id>, refresh: Id -> Refresh): set<Id> {
    set id | id in seen && id in before && Recovers(before[id], refresh(id))
  }

  lemma RecoveringNext(before: map<Id, Job>, seen: set<Id>, id: Id, refresh: Id -> Refresh)
    requires id in before && id !in seen
    ensures |Recovering(before, seen + {id}, refresh)|
            == |Recovering(before, seen, refresh)| + if Recovers(before[id], refresh(id)) then 1 else 0
  {
    var less := Recovering(before, seen, refresh);
    assert Recovering(before, seen + {id}, refresh) == if Recovers(before[id], refresh(id)) then less + {id} else less;
  }

  /**
   `recover_interrupted_jobs`. `refresh` and `clock` tell, per job, how its
   diff refresh goes and when it is saved.
   */
  method RecoverInterruptedJobs(store: JobStore, refresh: Id -> Refresh, clock: Id -> Time) returns (recovered: nat)
    requires forall id :: id in store.rows ==> store.rows[id].id == id
    modifies store
    ensures RecoveredSoFar(store.rows, old(store.rows), old(store.rows).Keys, refresh, clock)
    ensures recovered == |Recovering(old(store.rows), old(store.rows).Keys, refresh)|
  {
    recovered := 0;
    ghost var before := store.rows;
    var ids, jobs := store.ListUnfinishedJobs();
    for i := 0 to |jobs|
      invariant RecoveredSoFar(store.rows, before, Seen(ids, i), refresh, clock)
      invariant recovered == |Recovering(before, Seen(ids, i), refresh)|
    {
      var id := ids[i];
      assert id in ids && jobs[i] == before[id];
      SeenNext(ids, i);
      RecoveringNext(before, Seen(ids, i), id, refresh);
      ghost var rows := store.rows;
      var saved := RecoverOne(store, jobs[i], refresh(id), clock(id));
      OneMore(rows, store.rows, before, Seen(ids, i), id, refresh, clock);
      if saved {
        recovered := recovered + 1;
      }
    }
    AllRecovered(before, store.rows, ids, refresh, clock);
  }
}
