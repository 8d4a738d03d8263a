/** The retention sweep: its loop over the job table, turn by turn the protocol's steps. */
module Retention {
  import opened Prelude
  import opened Models
  import opened Store
  import Lifecycle
  import System

  /** A finished, unmarked row last saved at or before the cutoff. */
  predicate Due(job: Job, cutoff: Time) {
    IsTerminal(job.state) && job.workspaceRemovedAt.None? && job.updatedAt <= cutoff
  }

  function AfterSweep(job: Job, cutoff: Time, now: Time): Job {
    if Due(job, cutoff) then Marked(job, now) else job
  }

  /** What one pass at `now` does to the table. */
  ghost predicate Swept(before: map<Id, Job>, after: map<Id, Job>, retention: Time, now: Time) {
    && after.Keys == before.Keys
    && forall id :: id in before ==> after[id] == AfterSweep(before[id], now - retention, now)
  }

  /**
   A second pass over rows nothing else has touched marks exactly those that
   came due in between, and stamps no row a second time.
   */
  lemma SecondPassMarksTheNewlyDue(
    before: map<Id, Job>, between: map<Id, Job>, after: map<Id, Job>, retention: Time, now: Time, later: Time)
    requires Swept(before, between, retention, now) && Swept(between, after, retention, later) && now <= later
    ensures forall id :: id in before ==>
      && (after[id] != between[id] <==> IsTerminal(before[id].state) && before[id].workspaceRemovedAt.None?
                                        && now - retention < before[id].updatedAt <= later - retention)
      && (after[id] != between[id] ==> after[id] == Marked(before[id], later))
      && (between[id].workspaceRemovedAt.Some? ==> after[id] == between[id])
  {}

  /** A row after passes at each of these times. */
  function AfterPasses(job: Job, retention: Time, times: seq<Time>): Job
    decreases |times|
  {
    if times == [] then job else AfterPasses(AfterSweep(job, times[0] - retention, times[0]), retention, times[1..])
  }

  /** However often the sweep passes, the first pass a retention period after the last save marks the row, once. */
  lemma {:induction false} FirstPassPastRetentionMarks(job: Job, retention: Time, times: seq<Time>, k: nat)
    requires IsTerminal(job.state) && job.workspaceRemovedAt.None?
    requires k <= |times| && forall i :: 0 <= i < k ==> times[i] - retention < job.updatedAt
    requires k < |times| ==> times[k] - retention >= job.updatedAt
    ensures AfterPasses(job, retention, times) == if k < |times| then Marked(job, times[k]) else job
    decreases |times|
  {
    if k > 0 {
      assert times[1..][k - 1..] == times[k..];
      FirstPassPastRetentionMarks(job, retention, times[1..], k - 1);
    } else if times != [] {
      MarkedStaysMarked(Marked(job, times[0]), retention, times[1..]);
    }
  }

  lemma {:induction false} MarkedStaysMarked(job: Job, retention: Time, times: seq<Time>)
    requires job.workspaceRemovedAt.Some?
    ensures AfterPasses(job, retention, times) == job
    decreases |times|
  {
    if times != [] {
      MarkedStaysMarked(job, retention, times[1..]);
    }
  }

  // One turn

  /** The turn's conditional update lands, whatever has become of the row since it was listed. */
  predicate TurnMarks(rows: map<Id, Job>, candidate: RetentionCandidate, cutoff: Time) {
    && !candidate.workspaceRemoved && candidate.updatedAt <= cutoff
    && Markable(rows, candidate.id, candidate.updatedAt)
  }

  /** The table after the turn. */
  function AfterTurn(rows: map<Id, Job>, candidate: RetentionCandidate, cutoff: Time, now: Time): map<Id, Job> {
    if TurnMarks(rows, candidate, cutoff) then rows[candidate.id := Marked(rows[candidate.id], now)] else rows
  }

  /** Its directories go. */
  predicate TurnDeletes(rows: map<Id, Job>, candidate: RetentionCandidate, cutoff: Time) {
    candidate.workspaceRemoved || TurnMarks(rows, candidate, cutoff)
  }

  method SweepOne(store: JobStore, candidate: RetentionCandidate, cutoff: Time, now: Time)
    returns (marked: bool, deletes: bool)
    modifies store
    ensures store.rows == AfterTurn(old(store.rows), candidate, cutoff, now)
    ensures marked <==> TurnMarks(old(store.rows), candidate, cutoff)
    ensures deletes <==> TurnDeletes(old(store.rows), candidate, cutoff)
  {
    if candidate.workspaceRemoved {
      return false, true;
    }
    if candidate.updatedAt > cutoff {
      return false, false;
    }
    marked := store.MarkWorkspaceRemoved(candidate.id, candidate.updatedAt, now);
    deletes := marked;
  }

  /**
   Each turn is the protocol's step: for a candidate as it was listed, it marks
   exactly when the protocol's mark lands, leaves the rows the protocol leaves,
   and goes on to delete exactly when the protocol does.
   */
  lemma {:induction false} SweepIsProtocolStep(cfg: System.Config, s: System.Sys, now: Time)
    requires System.Possible(cfg, s, System.SweepNext, now) && s.sweep.todo != []
    ensures
      var listed, rest, at := s.sweep.todo[0], s.sweep.todo[1..], s.sweep.startedAt;
      var candidate, rows := Candidate(listed.id, listed.listed), System.StoredRows(s.cells);
      var next := System.Next(cfg, s, System.SweepNext, now);
      && System.StoredRows(next.cells) == AfterTurn(rows, candidate, at - cfg.retention, at)
      && next.sweep == if TurnDeletes(rows, candidate, at - cfg.retention)
                       then System.Deleting(listed.id, rest, at) else System.Sweeping(rest, at)
  {
    var listed, at := s.sweep.todo[0], s.sweep.startedAt;
    var candidate, rows := Candidate(listed.id, listed.listed), System.StoredRows(s.cells);
    assert Markable(rows, listed.id, listed.listed.updatedAt) <==> System.MarkSucceeds(s.cells, listed);
    if TurnMarks(rows, candidate, at - cfg.retention) {
      var cell := Lifecycle.Step(s.cells[listed.id], Lifecycle.Mark(at), now);
      assert System.Next(cfg, s, System.SweepNext, now).cells == s.cells[listed.id := cell];
    }
  }

  /** And the listing a pass starts from is one the protocol can start from. */
  lemma {:induction false} ListingIsProtocolStep(cfg: System.Config, s: System.Sys, ids: seq<Id>, now: Time)
    requires s.phase.Up? && s.sweep.Idle? && s.clock < now
    ensures System.Possible(cfg, s, System.SweepList(ids), now) <==>
      Names(ids, System.StoredRows(s.cells), RetainedRow())
    ensures Names(ids, System.StoredRows(s.cells), RetainedRow()) ==>
      var todo := System.Next(cfg, s, System.SweepList(ids), now).sweep.todo;
      |todo| == |ids| && forall i :: 0 <= i < |ids| ==> todo[i] == System.Candidate(ids[i], s.cells[ids[i]].stored)
  {}

  /** When nothing has touched the row since it was listed, the turn marks it exactly if it is due. */
  lemma UndisturbedTurn(rows: map<Id, Job>, id: Id, cutoff: Time, now: Time)
    requires id in rows && IsTerminal(rows[id].state)
    ensures
      var candidate := Candidate(id, rows[id]);
      && AfterTurn(rows, candidate, cutoff, now) == rows[id := AfterSweep(rows[id], cutoff, now)]
      && (TurnMarks(rows, candidate, cutoff) <==> Due(rows[id], cutoff))
      && (TurnDeletes(rows, candidate, cutoff) <==> AfterSweep(rows[id], cutoff, now).workspaceRemovedAt.Some?)
  {
    assert rows[id := rows[id]] == rows;
  }

  // The loop: the rows of `seen` are swept

  ghost predicate SweptSoFar(rows: map<Id, Job>, before: map<Id, Job>, seen: set<Id>, cutoff: Time, now: Time) {
    && rows.Keys == before.Keys
    && forall id :: id in before ==> rows[id] == if id in seen then AfterSweep(before[id], cutoff, now) else before[id]
  }

  // The list to be filled: of the rows due, or of the rows marked once the pass is over.
  datatype Pick = TheDue | TheMarked

  predicate Belongs(pick: Pick, job: Job, cutoff: Time, now: Time) {
    match pick
    case TheDue => Due(job, cutoff)
    case TheMarked => AfterSweep(job, cutoff, now).workspaceRemovedAt.Some?
  }

  /** `picked` names, once each, those of the seen rows that belong. */
  ghost predicate Picked(picked: seq<Id>, pick: Pick, rows: map<Id, Job>, seen: set<Id>, cutoff: Time, now: Time)
    requires seen <= rows.Keys
  {
    AreDistinct(picked) && forall id :: id in picked <==> id in seen && Belongs(pick, rows[id], cutoff, now)
  }

  ghost predicate PassState(
    rows: map<Id, Job>, newlyRemoved: seq<Id>, deletions: seq<Id>, before: map<Id, Job>, seen: set<Id>,
    cutoff: Time, now: Time)
  {
    && seen <= before.Keys && SweptSoFar(rows, before, seen, cutoff, now)
    && Picked(newlyRemoved, TheDue, before, seen, cutoff, now)
    && Picked(deletions, TheMarked, before, seen, cutoff, now)
  }

  lemma OneMorePicked(
    picked: seq<Id>, pick: Pick, rows: map<Id, Job>, seen: set<Id>, id: Id, cutoff: Time, now: Time)
    requires id in rows && id !in seen && seen <= rows.Keys && Picked(picked, pick, rows, seen, cutoff, now)
    ensures Picked(if Belongs(pick, rows[id], cutoff, now) then picked + [id] else picked, pick, rows, seen + {id},
                   cutoff, now)
  {}

  lemma OneMoreSwept(rows: map<Id, Job>, before: map<Id, Job>, seen: set<Id>, id: Id, cutoff: Time, now: Time)
    requires id in before && id !in seen && SweptSoFar(rows, before, seen, cutoff, now)
    ensures rows[id] == before[id]
    ensures SweptSoFar(rows[id := AfterSweep(before[id], cutoff, now)], before, seen + {id}, cutoff, now)
  {}

  lemma OneMoreTurn(
    rows: map<Id, Job>, newlyRemoved: seq<Id>, deletions: seq<Id>, before: map<Id, Job>, seen: set<Id>, id: Id,
    cutoff: Time, now: Time)
    requires id in before && id !in seen && PassState(rows, newlyRemoved, deletions, before, seen, cutoff, now)
    ensures rows.Keys == before.Keys && rows[id] == before[id]
    ensures
      var job := before[id];
      PassState(rows[id := AfterSweep(job, cutoff, now)],
                if Belongs(TheDue, job, cutoff, now) then newlyRemoved + [id] else newlyRemoved,
                if Belongs(TheMarked, job, cutoff, now) then deletions + [id] else deletions,
                before, seen + {id}, cutoff, now)
  {
    OneMoreSwept(rows, before, seen, id, cutoff, now);
    OneMorePicked(newlyRemoved, TheDue, before, seen, id, cutoff, now);
    OneMorePicked(deletions, TheMarked, before, seen, id, cutoff, now);
  }

  lemma {:induction false} AllPicked(picked: seq<Id>, pick: Pick, rows: map<Id, Job>, ids: seq<Id>, cutoff: Time, now: Time)
    requires Names(ids, rows, RetainedRow()) && Seen(ids, |ids|) <= rows.Keys
    requires Picked(picked, pick, rows, Seen(ids, |ids|), cutoff, now)
    ensures forall id :: id in picked <==>
      id in rows && IsTerminal(rows[id].state) && Belongs(pick, rows[id], cutoff, now)
  {
    AllSeen(ids);
  }

  lemma {:induction false} AllSwept(rows: map<Id, Job>, before: map<Id, Job>, ids: seq<Id>, retention: Time, now: Time)
    requires Names(ids, before, RetainedRow())
    requires SweptSoFar(rows, before, Seen(ids, |ids|), now - retention, now)
    ensures Swept(before, rows, retention, now)
  {
    AllSeen(ids);
  }

  lemma {:induction false} PassIsOver(
    rows: map<Id, Job>, newlyRemoved: seq<Id>, deletions: seq<Id>, before: map<Id, Job>, ids: seq<Id>,
    retention: Time, now: Time)
    requires Names(ids, before, RetainedRow())
    requires PassState(rows, newlyRemoved, deletions, before, Seen(ids, |ids|), now - retention, now)
    ensures IsPass(before, rows, newlyRemoved, deletions, retention, now)
  {
    AllSwept(rows, before, ids, retention, now);
    AllPicked(newlyRemoved, TheDue, before, ids, now - retention, now);
    AllPicked(deletions, TheMarked, before, ids, now - retention, now);
  }

  /** The due rows are marked, each once, and the directories of all marked rows are to go. */
  ghost predicate IsPass(
    before: map<Id, Job>, after: map<Id, Job>, newlyRemoved: seq<Id>, deletions: seq<Id>, retention: Time, now: Time)
  {
    && Swept(before, after, retention, now)
    && AreDistinct(newlyRemoved) && AreDistinct(deletions)
    && (forall id :: id in newlyRemoved <==> id in before && Due(before[id], now - retention))
    && (forall id :: id in deletions <==>
          id in after && IsTerminal(after[id].state) && after[id].workspaceRemovedAt.Some?)
  }

  /**
   `sweep_expired_workspaces`, uninterrupted: marks the due rows, each once,
   and tries to delete the directories of exactly the rows that are marked
   afterwards. A row that is not due keeps every field.
   */
  method SweepExpiredWorkspaces(store: JobStore, retention: Time, now: Time)
    returns (newlyRemoved: seq<Id>, deletions: seq<Id>)
    modifies store
    ensures IsPass(old(store.rows), store.rows, newlyRemoved, deletions, retention, now)
  {
    var cutoff := now - retention;
    newlyRemoved, deletions := [], [];
    ghost var before := store.rows;
    var ids, candidates := store.ListRetentionCandidates();
    for i := 0 to |candidates|
      invariant PassState(store.rows, newlyRemoved, deletions, before, Seen(ids, i), cutoff, now)
    {
      SeenNext(ids, i);
      newlyRemoved, deletions :=
        SweepNext(store, ids[i], candidates[i], newlyRemoved, deletions, before, Seen(ids, i), cutoff, now);
    }
    PassIsOver(store.rows, newlyRemoved, deletions, before, ids, retention, now);
  }

  /** The loop's body: one turn, and what it adds to the two lists. */
  method SweepNext(
    store: JobStore, id: Id, candidate: RetentionCandidate, newlyRemoved: seq<Id>, deletions: seq<Id>,
    ghost before: map<Id, Job>, ghost seen: set<Id>, cutoff: Time, now: Time)
    returns (moreRemoved: seq<Id>, moreDeletions: seq<Id>)
    requires id in before && id !in seen && IsTerminal(before[id].state) && candidate == Candidate(id, before[id])
    requires PassState(store.rows, newlyRemoved, deletions, before, seen, cutoff, now)
    modifies store
    ensures PassState(store.rows, moreRemoved, moreDeletions, before, seen + {id}, cutoff, now)
  {
    OneMoreTurn(store.rows, newlyRemoved, deletions, before, seen, id, cutoff, now);
    UndisturbedTurn(store.rows, id, cutoff, now);
    var marked, deletes := SweepOne(store, candidate, cutoff, now);
    moreRemoved := if marked then newlyRemoved + [id] else newlyRemoved;
    moreDeletions := if deletes then deletions + [id] else deletions;
  }
}
