/**
 The job table. Rows are whole records; every method runs under the store's
 lock, so each is one atomic step. Queries without an order yield their rows in
 an arbitrary one.
 */
module Store {
  import opened Prelude
  import opened Models
  import opened Spend
  import opened Sums

  ghost predicate AreDistinct(ids: seq<Id>) {
    forall i, j :: 0 <= i < j < |ids| ==> ids[i] != ids[j]
  }

  /** The first `n` ids. */
  ghost function Seen(ids: seq<Id>, n: nat): set<Id>
    requires n <= |ids|
  {
    if n == 0 then {} else Seen(ids, n - 1) + {ids[n - 1]}
  }

  lemma {:induction false} InSeen(ids: seq<Id>, n: nat)
    requires n <= |ids|
    ensures forall id :: id in Seen(ids, n) <==> id in ids[..n]
  {
    if n > 0 {
      InSeen(ids, n - 1);
      assert ids[..n] == ids[..n - 1] + [ids[n - 1]];
    }
  }

  lemma {:induction false} SeenNext(ids: seq<Id>, n: nat)
    requires n < |ids| && AreDistinct(ids)
    ensures ids[n] in ids && ids[n] !in Seen(ids, n) && Seen(ids, n + 1) == Seen(ids, n) + {ids[n]}
  {
    InSeen(ids, n);
  }

  lemma {:induction false} AllSeen(ids: seq<Id>)
    ensures forall id :: id in Seen(ids, |ids|) <==> id in ids
  {
    InSeen(ids, |ids|);
    assert ids[..|ids|] == ids;
  }

  /** `ids` names exactly the rows that satisfy `keep`, each once. */
  ghost predicate Names(ids: seq<Id>, rows: map<Id, Job>, keep: Job -> bool) {
    && AreDistinct(ids)
    && (forall id :: id in ids <==> id in rows && keep(rows[id]))
  }

  predicate InOrder(a: Job, b: Job, newestFirst: bool) {
    if newestFirst then a.createdAt >= b.createdAt else a.createdAt <= b.createdAt
  }

  ghost predicate Ordered(ids: seq<Id>, rows: map<Id, Job>, newestFirst: bool)
    requires forall id :: id in ids ==> id in rows
  {
    forall i, j :: 0 <= i < j < |ids| ==> InOrder(rows[ids[i]], rows[ids[j]], newestFirst)
  }

  /** `ids` is what `SELECT … WHERE keep ORDER BY created_at` can yield. */
  ghost predicate IsListing(ids: seq<Id>, rows: map<Id, Job>, keep: Job -> bool, newestFirst: bool) {
    Names(ids, rows, keep) && Ordered(ids, rows, newestFirst)
  }

  function Rows(ids: seq<Id>, rows: map<Id, Job>): (jobs: seq<Job>)
    requires forall id :: id in ids ==> id in rows
    ensures |jobs| == |ids|
    ensures forall i :: 0 <= i < |ids| ==> jobs[i] == rows[ids[i]]
  {
    seq(|ids|, i requires 0 <= i < |ids| => rows[ids[i]])
  }

  // What the queries keep

  function UnfinishedRow(): Job -> bool {
    (job: Job) => !IsTerminal(job.state)
  }

  function RetainedRow(): Job -> bool {
    (job: Job) => IsTerminal(job.state)
  }

  /** The pagination filter: the owner's rows (or all) older than the cursor (or all). */
  function PageRow(owner: Option<Owner>, before: Option<Time>): Job -> bool {
    (job: Job) => (owner.None? || job.owner == owner) && (before.None? || job.createdAt < before.value)
  }

  /** The spend prefilter: the owner's rows saved in or after the second of `since`. */
  function OwnerRow(owner: Owner, since: Time): Job -> bool {
    (job: Job) => job.owner == Some(owner) && UpdatedSince(job, since)
  }

  datatype RetentionCandidate = RetentionCandidate(id: Id, updatedAt: Time, workspaceRemoved: bool)

  function Candidate(id: Id, job: Job): RetentionCandidate {
    RetentionCandidate(id, job.updatedAt, job.workspaceRemovedAt.Some?)
  }

  /** The row a conditional mark would change. */
  predicate Markable(rows: map<Id, Job>, id: Id, expectedUpdatedAt: Time) {
    && id in rows && IsTerminal(rows[id].state)
    && rows[id].updatedAt == expectedUpdatedAt && rows[id].workspaceRemovedAt.None?
  }

  function Marked(job: Job, removedAt: Time): Job {
    job.(workspaceRemovedAt := Some(removedAt))
  }

  datatype OwnerCosts = OwnerCosts(jobCount: nat, planning: real, implementation: real, correction: real)

  function WithJob(costs: OwnerCosts, job: Job): OwnerCosts {
    OwnerCosts(costs.jobCount + 1,
               costs.planning + Cost(job.usage),
               costs.implementation + Cost(job.implementationUsage),
               costs.correction + Cost(job.correctionUsage))
  }

  function OwnedBy(owner: Option<Owner>): Job -> bool {
    (job: Job) => job.owner == owner
  }

  /** The count and the three sums that `GROUP BY owner_user_id` yields for an owner. */
  ghost predicate IsSummaryOf(costs: OwnerCosts, rows: map<Id, Job>, owner: Option<Owner>) {
    && costs.jobCount == |Select(rows, OwnedBy(owner))|
    && costs.planning == SumBy(rows, RecordedCost(owner, PlanAgent))
    && costs.implementation == SumBy(rows, RecordedCost(owner, ImplementationAgent))
    && costs.correction == SumBy(rows, RecordedCost(owner, CorrectionAgent))
  }

  lemma EmptyGroup(rows: map<Id, Job>, owner: Option<Owner>)
    requires forall id :: id in rows ==> rows[id].owner != owner
    ensures IsSummaryOf(OwnerCosts(0, 0.0, 0.0, 0.0), rows, owner)
  {
    assert Select(rows, OwnedBy(owner)) == {};
    SumZero(rows, RecordedCost(owner, PlanAgent));
    SumZero(rows, RecordedCost(owner, ImplementationAgent));
    SumZero(rows, RecordedCost(owner, CorrectionAgent));
  }

  lemma GroupAfter(rows: map<Id, Job>, id: Id, job: Job, owner: Option<Owner>, costs: OwnerCosts)
    requires id !in rows && IsSummaryOf(costs, rows, owner)
    ensures IsSummaryOf(if job.owner == owner then WithJob(costs, job) else costs, rows[id := job], owner)
  {
    SumUpdate(rows, id, job, RecordedCost(owner, PlanAgent));
    SumUpdate(rows, id, job, RecordedCost(owner, ImplementationAgent));
    SumUpdate(rows, id, job, RecordedCost(owner, CorrectionAgent));
    SelectRemove(rows[id := job], id, OwnedBy(owner));
    assert rows[id := job] - {id} == rows;
  }

  function WithRow(summary: map<Option<Owner>, OwnerCosts>, job: Job): map<Option<Owner>, OwnerCosts> {
    var group := if job.owner in summary then summary[job.owner] else OwnerCosts(0, 0.0, 0.0, 0.0);
    summary[job.owner := WithJob(group, job)]
  }

  predicate HasOwner(rows: map<Id, Job>, owner: Option<Owner>) {
    exists id :: id in rows && rows[id].owner == owner
  }

  /** One row per owner that has jobs, with that owner's count and sums. */
  ghost predicate Summarises(summary: map<Option<Owner>, OwnerCosts>, rows: map<Id, Job>) {
    forall owner ::
      && (owner in summary <==> HasOwner(rows, owner))
      && (owner in summary ==> IsSummaryOf(summary[owner], rows, owner))
  }

  lemma SummaryAfter(summary: map<Option<Owner>, OwnerCosts>, rows: map<Id, Job>, id: Id, job: Job)
    requires id !in rows && Summarises(summary, rows)
    ensures Summarises(WithRow(summary, job), rows[id := job])
  {
    var after, grown := WithRow(summary, job), rows[id := job];
    forall owner
      ensures owner in after <==> HasOwner(grown, owner)
      ensures owner in after ==> IsSummaryOf(after[owner], grown, owner)
    {
      assert HasOwner(grown, owner) <==> HasOwner(rows, owner) || owner == job.owner by {
        assert grown[id].owner == job.owner;
        if HasOwner(rows, owner) {
          var k :| k in rows && rows[k].owner == owner;
          assert grown[k].owner == owner;
        }
      }
      if owner in summary {
        GroupAfter(rows, id, job, owner, summary[owner]);
      } else if owner == job.owner {
        EmptyGroup(rows, owner);
        GroupAfter(rows, id, job, owner, OwnerCosts(0, 0.0, 0.0, 0.0));
      }
    }
  }

  class JobStore {
    var rows: map<Id, Job>

    constructor ()
      ensures rows == map[]
    {
      rows := map[];
    }

    /** `INSERT`; a taken id is a constraint violation and changes nothing. */
    method Create(job: Job) returns (inserted: bool)
      modifies this
      ensures inserted <==> job.id !in old(rows)
      ensures rows == if inserted then old(rows)[job.id := job] else old(rows)
    {
      inserted := job.id !in rows;
      if inserted {
        rows := rows[job.id := job];
      }
    }

    /** `UPDATE … WHERE id`: stamps the record, writes it if its row exists, and returns it. */
    method Save(job: Job, now: Time) returns (saved: Job)
      modifies this
      ensures saved == Stamped(job, now)
      ensures rows == if job.id in old(rows) then old(rows)[job.id := saved] else old(rows)
    {
      saved := Stamped(job, now);
      if job.id in rows {
        rows := rows[job.id := saved];
      }
    }

    method Get(id: Id) returns (job: Option<Job>)
      ensures job == if id in rows then Some(rows[id]) else None
    {
      job := if id in rows then Some(rows[id]) else None;
    }

    /** The conditional update behind the retention mark. */
    method MarkWorkspaceRemoved(id: Id, expectedUpdatedAt: Time, removedAt: Time) returns (marked: bool)
      modifies this
      ensures marked <==> Markable(old(rows), id, expectedUpdatedAt)
      ensures marked <==>
        && id in old(rows) && IsTerminal(old(rows)[id].state) && old(rows)[id].updatedAt == expectedUpdatedAt
        && old(rows)[id].workspaceRemovedAt.None?
      ensures rows == if marked then old(rows)[id := old(rows)[id].(workspaceRemovedAt := Some(removedAt))] else old(rows)
    {
      marked := Markable(rows, id, expectedUpdatedAt);
      if marked {
        rows := rows[id := Marked(rows[id], removedAt)];
      }
    }

    /** The first row of `ids` in the given order. */
    method First(ids: set<Id>, newestFirst: bool) returns (first: Id)
      requires ids != {} && forall id :: id in ids ==> id in rows
      ensures first in ids && forall id :: id in ids ==> InOrder(rows[first], rows[id], newestFirst)
    {
      first :| first in ids;
      var rest := ids - {first};
      while rest != {}
        invariant first in ids && rest <= ids
        invariant forall id :: id in ids - rest ==> InOrder(rows[first], rows[id], newestFirst)
        decreases |rest|
      {
        var id :| id in rest;
        if !InOrder(rows[first], rows[id], newestFirst) {
          first := id;
        }
        rest := rest - {id};
      }
    }

    /** Every row that satisfies `keep`, ordered by creation. */
    method Query(keep: Job -> bool, newestFirst: bool) returns (ids: seq<Id>)
      ensures IsListing(ids, rows, keep, newestFirst)
    {
      var matching := set id | id in rows && keep(rows[id]);
      var rest := matching;
      ids := [];
      while rest != {}
        invariant rest <= matching
        invariant forall id :: id in ids ==> id in rows
        invariant forall id :: id in ids <==> id in matching - rest
        invariant forall i, j :: 0 <= i < j < |ids| ==> ids[i] != ids[j]
        invariant Ordered(ids, rows, newestFirst)
        invariant forall i, id :: 0 <= i < |ids| && id in rest && id in rows ==> InOrder(rows[ids[i]], rows[id], newestFirst)
        decreases |rest|
      {
        var next := First(rest, newestFirst);
        assert next !in ids;
        rest := rest - {next};
        ids := ids + [next];
      }
    }

    /** Every job not in a terminal state, oldest first. */
    method ListUnfinishedJobs() returns (ids: seq<Id>, jobs: seq<Job>)
      ensures IsListing(ids, rows, UnfinishedRow(), false)
      ensures jobs == Rows(ids, rows)
      ensures forall id :: id in ids <==> id in rows && !IsTerminal(rows[id].state)
      ensures forall i, j :: 0 <= i < j < |jobs| ==> jobs[i].createdAt <= jobs[j].createdAt
    {
      ids := Query(UnfinishedRow(), false);
      jobs := Rows(ids, rows);
    }

    /** One light row for every finished job, already-marked ones included. */
    method ListRetentionCandidates() returns (ids: seq<Id>, candidates: seq<RetentionCandidate>)
      ensures Names(ids, rows, RetainedRow()) && |candidates| == |ids|
      ensures forall i :: 0 <= i < |ids| ==> candidates[i] == Candidate(ids[i], rows[ids[i]])
      ensures forall i :: 0 <= i < |ids| ==>
        && candidates[i].id == ids[i] && candidates[i].updatedAt == rows[ids[i]].updatedAt
        && (candidates[i].workspaceRemoved <==> rows[ids[i]].workspaceRemovedAt.Some?)
    {
      ids := Query(RetainedRow(), false);
      var jobs := Rows(ids, rows);
      candidates := seq(|ids|, i requires 0 <= i < |ids| => Candidate(ids[i], jobs[i]));
    }

    /** The owner's jobs changed at or after `since`, by whole seconds. */
    method ListOwnerJobsUpdatedSince(owner: Owner, since: Time) returns (ids: seq<Id>, jobs: seq<Job>)
      ensures Names(ids, rows, OwnerRow(owner, since)) && jobs == Rows(ids, rows)
      ensures forall id :: id in ids <==>
        id in rows && rows[id].owner == Some(owner) && rows[id].updatedAt / 1_000_000 >= since / 1_000_000
    {
      ids := Query(OwnerRow(owner, since), false);
      jobs := Rows(ids, rows);
    }

    /** Per owner: how many jobs, and what each kind of agent cost. */
    method CostSummaryByOwner() returns (summary: map<Option<Owner>, OwnerCosts>)
      ensures Summarises(summary, rows)
    {
      summary := map[];
      var rest := rows.Keys;
      assert rows - rest == map[];
      while rest != {}
        invariant rest <= rows.Keys && Summarises(summary, rows - rest)
        decreases |rest|
      {
        var id :| id in rest;
        SummaryAfter(summary, rows - rest, id, rows[id]);
        assert rows - (rest - {id}) == (rows - rest)[id := rows[id]];
        summary := WithRow(summary, rows[id]);
        rest := rest - {id};
      }
      assert rows - rest == rows;
    }

    /** One page, newest first, and the cursor of the next one if there is more. */
    method ListJobs(owner: Option<Owner>, limit: nat, before: Option<Time>)
      returns (ids: seq<Id>, page: seq<Job>, next: Option<Time>)
      ensures IsPage(rows, owner, limit, before, ids, next)
      ensures (forall id :: id in ids ==> id in rows) && page == Rows(ids, rows) && |page| <= limit
      ensures forall i :: 0 <= i < |page| ==>
        (owner.Some? ==> page[i].owner == owner) && (before.Some? ==> page[i].createdAt < before.value)
      ensures forall i, j :: 0 <= i < j < |page| ==> page[i].createdAt >= page[j].createdAt
    {
      var all := Query(PageRow(owner, before), true);
      var found := if |all| > limit then all[..limit + 1] else all;   // one extra row tells of a next page
      var hasMore := |found| > limit;
      ids := if hasMore then found[..limit] else found;
      assert ids == all[..|ids|];
      page := Rows(ids, rows);
      next := if hasMore && page != [] then Some(page[|page| - 1].createdAt) else None;
      assert IsListing(all, rows, PageRow(owner, before), true);
    }
  }

  // Pagination

  ghost predicate DistinctTimes(rows: map<Id, Job>) {
    forall a, b :: a in rows && b in rows && a != b ==> rows[a].createdAt != rows[b].createdAt
  }

  /** The first `limit` rows of a listing, and the last one's time if there are more. */
  ghost predicate IsPageOf(
    all: seq<Id>, rows: map<Id, Job>, limit: nat, ids: seq<Id>, next: Option<Time>)
    requires forall id :: id in all ==> id in rows
  {
    && ids == all[..if |all| > limit then limit else |all|]
    && next == if |all| > limit && limit > 0 then Some(rows[all[limit - 1]].createdAt) else None
  }

  /** A page the table can give for a cursor. */
  ghost predicate IsPage(
    rows: map<Id, Job>, owner: Option<Owner>, limit: nat, before: Option<Time>, ids: seq<Id>, next: Option<Time>)
  {
    exists all :: IsListing(all, rows, PageRow(owner, before), true) && IsPageOf(all, rows, limit, ids, next)
  }

  /** With distinct creation times the newest-first listing is unique. */
  lemma {:induction false} ListingIsUnique(a: seq<Id>, b: seq<Id>, rows: map<Id, Job>, keep: Job -> bool)
    requires DistinctTimes(rows)
    requires IsListing(a, rows, keep, true) && IsListing(b, rows, keep, true)
    ensures a == b
  {
    SameElementsSameOrder(a, b, rows);
  }

  lemma {:induction false} SameElementsSameOrder(a: seq<Id>, b: seq<Id>, rows: map<Id, Job>)
    requires DistinctTimes(rows)
    requires forall id :: id in a <==> id in b
    requires forall id :: id in a ==> id in rows
    requires forall i, j :: 0 <= i < j < |a| ==> a[i] != a[j]
    requires forall i, j :: 0 <= i < j < |b| ==> b[i] != b[j]
    requires Ordered(a, rows, true) && Ordered(b, rows, true)
    ensures a == b
    decreases |a|
  {
    HeadIn(a);
    HeadIn(b);
    if a != [] {
      assert a[0] == b[0];
      SameTail(a, b);
      SameElementsSameOrder(a[1..], b[1..], rows);
    }
  }

  lemma HeadIn(s: seq<Id>)
    ensures s != [] ==> s[0] in s
  {}

  lemma SameTail(a: seq<Id>, b: seq<Id>)
    requires a != [] && b != [] && a[0] == b[0]
    requires forall id :: id in a <==> id in b
    requires forall i, j :: 0 <= i < j < |a| ==> a[i] != a[j]
    requires forall i, j :: 0 <= i < j < |b| ==> b[i] != b[j]
    ensures forall id :: id in a[1..] <==> id in b[1..]
  {
    InTail(a);
    InTail(b);
  }

  lemma InTail(a: seq<Id>)
    requires a != [] && forall i, j :: 0 <= i < j < |a| ==> a[i] != a[j]
    ensures forall id :: id in a[1..] <==> id in a && id != a[0]
  {
    var tail := a[1..];
    assert a == [a[0]] + tail;
    assert forall i :: 0 <= i < |tail| ==> tail[i] == a[i + 1];
  }

  /** Later tables keep the rows of earlier ones and add only rows created after all of them. */
  ghost predicate OnlyNewerAdded(before: map<Id, Job>, after: map<Id, Job>) {
    && (forall id :: id in before ==>
          id in after && after[id].createdAt == before[id].createdAt && after[id].owner == before[id].owner)
    && (forall id, old_ :: id in after && id !in before && old_ in before ==> after[id].createdAt > before[old_].createdAt)
  }

  /** One request of a walk: the table it met, the page and the cursor it got. */
  datatype Fetch = Fetch(table: map<Id, Job>, page: seq<Id>, next: Option<Time>)

  /** Requests that each follow the cursor of the one before, while newer jobs may arrive. */
  ghost predicate IsWalk(walk: seq<Fetch>, first: map<Id, Job>, owner: Option<Owner>, limit: nat) {
    walk != [] &&
    var before, last := walk[..|walk| - 1], walk[|walk| - 1];
    if before == [] then
      last.table == first && IsPage(first, owner, limit, None, last.page, last.next)
    else
      && IsWalk(before, first, owner, limit) && before[|before| - 1].next.Some?
      && OnlyNewerAdded(first, last.table)
      && IsPage(last.table, owner, limit, before[|before| - 1].next, last.page, last.next)
  }

  /** All the pages of a walk, one after the other. */
  function Concat(walk: seq<Fetch>): seq<Id> {
    if walk == [] then [] else Concat(walk[..|walk| - 1]) + walk[|walk| - 1].page
  }

  /** The rest of the first listing is the listing of any later table below the cursor. */
  lemma RestIsListing(
    first: map<Id, Job>, table: map<Id, Job>, owner: Option<Owner>, all: seq<Id>, n: nat)
    requires DistinctTimes(first) && OnlyNewerAdded(first, table)
    requires IsListing(all, first, PageRow(owner, None), true) && 0 < n <= |all|
    ensures IsListing(all[n..], table, PageRow(owner, Some(first[all[n - 1]].createdAt)), true)
  {
    var cursor := first[all[n - 1]].createdAt;
    var rest, keep := all[n..], PageRow(owner, Some(cursor));
    forall id
      ensures id in rest <==> id in table && keep(table[id])
    {
      if id in rest {
        var i :| n <= i < |all| && all[i] == id;
        assert id in all;
        assert InOrder(first[all[n - 1]], first[all[i]], true);
        assert all[n - 1] != all[i];
      }
      if id in table && keep(table[id]) {
        assert all[n - 1] in all;
        assert id in first;
        assert id in all;
        var i :| 0 <= i < |all| && all[i] == id;
        assert i >= n;
        assert rest[i - n] == id;
      }
    }
    assert forall i :: 0 <= i < |rest| ==> rest[i] == all[n + i];
  }

  lemma RowsStayDistinct(
    first: map<Id, Job>, table: map<Id, Job>, owner: Option<Owner>, cursor: Time, ids: seq<Id>, other: seq<Id>, cursorRow: Id)
    requires DistinctTimes(first) && OnlyNewerAdded(first, table)
    requires cursorRow in first && first[cursorRow].createdAt == cursor
    requires IsListing(ids, table, PageRow(owner, Some(cursor)), true)
    requires IsListing(other, table, PageRow(owner, Some(cursor)), true)
    ensures ids == other
  {
    var old_ := map id | id in table && id in first :: table[id];
    assert forall id :: id in table && table[id].createdAt < cursor ==> id in first;
    SameElementsSameOrder(ids, other, old_);
  }

  /** After some pages the walk has yielded a prefix of the listing; the cursor names its last row. */
  ghost predicate Progress(first: map<Id, Job>, all: seq<Id>, done: seq<Id>, pages: nat, cursor: Option<Time>)
    requires forall id :: id in all ==> id in first
  {
    var n := |done|;
    && n <= |all| && done == all[..n] && pages <= n + 1
    && (n == |all| ==> cursor == None)
    && (n < |all| ==> n > 0 && pages <= n && cursor == Some(first[all[n - 1]].createdAt))
  }

  lemma FirstPage(
    first: map<Id, Job>, owner: Option<Owner>, limit: nat, page: seq<Id>, cursor: Option<Time>, all: seq<Id>)
    requires limit >= 1 && DistinctTimes(first) && IsListing(all, first, PageRow(owner, None), true)
    requires IsPage(first, owner, limit, None, page, cursor)
    ensures Progress(first, all, page, 1, cursor)
  {
    var listed :| IsListing(listed, first, PageRow(owner, None), true) && IsPageOf(listed, first, limit, page, cursor);
    ListingIsUnique(listed, all, first, PageRow(owner, None));
  }

  lemma PageOfRest(
    first: map<Id, Job>, table: map<Id, Job>, owner: Option<Owner>, limit: nat, all: seq<Id>, n: nat,
    page: seq<Id>, next: Option<Time>)
    requires DistinctTimes(first) && IsListing(all, first, PageRow(owner, None), true) && 0 < n <= |all|
    requires OnlyNewerAdded(first, table)
    requires IsPage(table, owner, limit, Some(first[all[n - 1]].createdAt), page, next)
    ensures (forall id :: id in all[n..] ==> id in table) && IsPageOf(all[n..], table, limit, page, next)
  {
    var cursor := first[all[n - 1]].createdAt;
    RestIsListing(first, table, owner, all, n);
    var listed :| IsListing(listed, table, PageRow(owner, Some(cursor)), true) && IsPageOf(listed, table, limit, page, next);
    assert all[n - 1] in all;
    RowsStayDistinct(first, table, owner, cursor, listed, all[n..], all[n - 1]);
  }

  lemma {:induction false} PrefixGrows(all: seq<Id>, n: nat, page: seq<Id>)
    requires n <= |all| && page <= all[n..]
    ensures n + |page| <= |all| && all[..n] + page == all[..n + |page|]
  {}

  /** A page of the rest moves the walk on. */
  lemma {:induction false} PageAdvances(
    first: map<Id, Job>, table: map<Id, Job>, limit: nat, all: seq<Id>, n: nat, pages: nat,
    page: seq<Id>, next: Option<Time>)
    requires limit >= 1 && 0 < n < |all| && pages <= n
    requires forall id :: id in all ==> id in first && id in table && table[id].createdAt == first[id].createdAt
    requires (forall id :: id in all[n..] ==> id in table) && IsPageOf(all[n..], table, limit, page, next)
    ensures Progress(first, all, all[..n] + page, pages + 1, next)
  {
    var rest := all[n..];
    PrefixGrows(all, n, page);
    if |rest| > limit {
      assert rest[limit - 1] == all[n + limit - 1];
      assert all[n + limit - 1] in all;
    }
  }

  lemma NextPage(
    first: map<Id, Job>, table: map<Id, Job>, owner: Option<Owner>, limit: nat, all: seq<Id>,
    done: seq<Id>, pages: nat, cursor: Option<Time>, page: seq<Id>, next: Option<Time>)
    requires limit >= 1 && DistinctTimes(first) && IsListing(all, first, PageRow(owner, None), true)
    requires OnlyNewerAdded(first, table) && cursor.Some? && Progress(first, all, done, pages, cursor)
    requires IsPage(table, owner, limit, cursor, page, next)
    ensures Progress(first, all, done + page, pages + 1, next)
  {
    PageOfRest(first, table, owner, limit, all, |done|, page, next);
    PageAdvances(first, table, limit, all, |done|, pages, page, next);
  }

  lemma {:induction false} WalkProgresses(
    walk: seq<Fetch>, first: map<Id, Job>, owner: Option<Owner>, limit: nat, all: seq<Id>)
    requires IsWalk(walk, first, owner, limit) && limit >= 1
    requires DistinctTimes(first) && IsListing(all, first, PageRow(owner, None), true)
    ensures Progress(first, all, Concat(walk), |walk|, walk[|walk| - 1].next)
    decreases |walk|
  {
    var before, last := walk[..|walk| - 1], walk[|walk| - 1];
    if before == [] {
      FirstPage(first, owner, limit, last.page, last.next, all);
      assert Concat(walk) == last.page;
    } else {
      WalkProgresses(before, first, owner, limit, all);
      NextPage(first, last.table, owner, limit, all, Concat(before), |before|, before[|before| - 1].next,
               last.page, last.next);
    }
  }

  /**
   Following the cursors from the first page until there is none yields
   exactly the owner's jobs that existed at the first fetch, newest first and
   each once, even while newer jobs arrive and jobs change. A walk has at most
   one page per row, plus one.
   */
  lemma {:induction false} WalkYieldsEveryJobOnce(
    walk: seq<Fetch>, first: map<Id, Job>, owner: Option<Owner>, limit: nat, all: seq<Id>)
    requires IsWalk(walk, first, owner, limit) && limit >= 1
    requires DistinctTimes(first) && IsListing(all, first, PageRow(owner, None), true)
    ensures walk[|walk| - 1].next == None ==> Concat(walk) == all
    ensures walk[|walk| - 1].next == None ==>
      forall id :: id in Concat(walk) <==> id in first && (owner.Some? ==> first[id].owner == owner)
    ensures Concat(walk) <= all && |walk| <= |all| + 1
  {
    WalkProgresses(walk, first, owner, limit, all);
  }
}
