/** The spend check over the job table: the coarse prefilter, the window sum and the reset instant. */
module Limits {
  import opened Prelude
  import opened Models
  import opened Sums
  import opened Spend
  import opened Store

  datatype SpendStatus = SpendStatus(spentUsd: real, limitUsd: real, resetsAt: Option<Time>)

  predicate Exceeded(status: SpendStatus) {
    status.spentUsd >= status.limitUsd
  }

  predicate AllStamped(rows: map<Id, Job>) {
    forall id :: id in rows ==> StampedByUpdate(rows[id])
  }

  /** All events of a list of jobs. */
  function EventsOf(jobs: seq<Job>): seq<SpendEvent> {
    if jobs == [] then [] else SpendEvents(jobs[0]) + EventsOf(jobs[1..])
  }

  function WindowCosts(jobs: seq<Job>, since: Time): real {
    if jobs == [] then 0.0 else WindowCost(jobs[0], since) + WindowCosts(jobs[1..], since)
  }

  lemma {:induction false} EventsOfAppend(a: seq<Job>, b: seq<Job>)
    ensures EventsOf(a + b) == EventsOf(a) + EventsOf(b)
  {
    if a == [] {
      assert a + b == b;
    } else {
      EventsOfAppend(a[1..], b);
      assert (a + b)[1..] == a[1..] + b && (a + b)[0] == a[0];
      Associate(SpendEvents(a[0]), EventsOf(a[1..]), EventsOf(b));
    }
  }

  lemma Associate(a: seq<SpendEvent>, b: seq<SpendEvent>, c: seq<SpendEvent>)
    ensures a + (b + c) == (a + b) + c
  {}

  lemma {:induction false} EventSumIsWindowCosts(jobs: seq<Job>, since: Time)
    ensures SumCosts(Newer(EventsOf(jobs), since)) == WindowCosts(jobs, since)
  {
    if jobs != [] {
      EventSumIsWindowCosts(jobs[1..], since);
      WindowCostIsEventSum(jobs[0], since);
      NewerAppend(SpendEvents(jobs[0]), EventsOf(jobs[1..]), since);
      SumAppend(Newer(SpendEvents(jobs[0]), since), Newer(EventsOf(jobs[1..]), since));
    }
  }

  /** A listing that leaves out only rows that weigh nothing sums to the whole table. */
  lemma {:induction false} ListingSum(
    ids: seq<Id>, rows: map<Id, Job>, keep: Job -> bool, owner: Owner, since: Time)
    requires Names(ids, rows, keep)
    requires forall id :: id in rows && keep(rows[id]) ==> rows[id].owner == Some(owner)
    requires forall id :: id in rows && !keep(rows[id]) ==> JobSpent(owner, since)(rows[id]) == 0.0
    ensures WindowCosts(Rows(ids, rows), since) == SumBy(rows, JobSpent(owner, since))
    decreases |ids|
  {
    if ids == [] {
      SumZero(rows, JobSpent(owner, since));
    } else {
      var id, rest := ids[0], ids[1..];
      var others := rows - {id};
      assert Names(rest, others, keep) by {
        InTail(ids);
        HeadIn(ids);
      }
      ListingSum(rest, others, keep, owner, since);
      SumRemove(rows, id, JobSpent(owner, since));
      assert Rows(ids, rows)[1..] == Rows(rest, others);
    }
  }

  /** The prefilter is exact: for any later instant too, it drops only rows without spend in the window. */
  lemma {:induction false} PrefilterSum(ids: seq<Id>, rows: map<Id, Job>, owner: Owner, since: Time, later: Time)
    requires Names(ids, rows, OwnerRow(owner, since)) && since <= later
    requires AllStamped(rows)
    ensures WindowCosts(Rows(ids, rows), later) == SumBy(rows, JobSpent(owner, later))
  {
    forall id | id in rows && !OwnerRow(owner, since)(rows[id])
      ensures JobSpent(owner, later)(rows[id]) == 0.0
    {
      if rows[id].owner == Some(owner) {
        assert !UpdatedSince(rows[id], later);
        PrefilterDropsNothing(rows[id], later);
      }
    }
    ListingSum(ids, rows, OwnerRow(owner, since), owner, later);
  }

  lemma {:induction false} NewerTwice(events: seq<SpendEvent>, since: Time, later: Time)
    requires since <= later
    ensures Newer(Newer(events, since), later) == Newer(events, later)
    decreases |events|
  {
    if events != [] {
      NewerTwice(events[1..], since, later);
    }
  }

  lemma {:induction false} NewerAll(events: seq<SpendEvent>, since: Time)
    ensures forall i :: 0 <= i < |Newer(events, since)| ==> Newer(events, since)[i].at > since
    decreases |events|
  {
    if events != [] {
      NewerAll(events[1..], since);
    }
  }

  lemma {:induction false} InsertKeepsWindow(event: SpendEvent, sorted: seq<SpendEvent>, since: Time)
    ensures SumCosts(Newer(Insert(event, sorted), since)) == SumCosts(Newer([event] + sorted, since))
    decreases |sorted|
  {
    if sorted != [] && event.at > sorted[0].at {
      InsertKeepsWindow(event, sorted[1..], since);
      assert ([event] + sorted)[1..] == sorted;
      assert ([event] + sorted[1..])[1..] == sorted[1..];
      assert Insert(event, sorted)[1..] == Insert(event, sorted[1..]);
    }
  }

  /** Sorting changes no window sum. */
  lemma {:induction false} SortKeepsWindow(events: seq<SpendEvent>, since: Time)
    ensures SumCosts(Newer(SortByTime(events), since)) == SumCosts(Newer(events, since))
    decreases |events|
  {
    if events != [] {
      SortKeepsWindow(events[1..], since);
      InsertKeepsWindow(events[0], SortByTime(events[1..]), since);
      assert ([events[0]] + SortByTime(events[1..]))[1..] == SortByTime(events[1..]);
    }
  }

  lemma {:induction false} EventsArePositive(job: Job, since: Time)
    ensures AllPositive(Newer(SpendEvents(job), since))
  {
    NewerBounds(SpendEvents(job), since);
  }

  /** From `now` on, the events the check collected weigh what the whole table does. */
  lemma CollectedIsTable(
    ids: seq<Id>, rows: map<Id, Job>, owner: Owner, now: Time, t: Time, collected: seq<SpendEvent>)
    requires Names(ids, rows, OwnerRow(owner, now - SPEND_WINDOW)) && now <= t
    requires AllStamped(rows)
    requires collected == Newer(EventsOf(Rows(ids, rows)), now - SPEND_WINDOW)
    ensures WindowSum(SortByTime(collected), t) == OwnerSpent(rows, owner, t)
  {
    var since, later := now - SPEND_WINDOW, t - SPEND_WINDOW;
    SortKeepsWindow(collected, later);
    NewerTwice(EventsOf(Rows(ids, rows)), since, later);
    EventSumIsWindowCosts(Rows(ids, rows), later);
    PrefilterSum(ids, rows, owner, since, later);
  }

  lemma {:induction false} EventsOfOne(job: Job)
    ensures EventsOf([job]) == SpendEvents(job)
  {
    assert [job][1..] == [];
    assert SpendEvents(job) + [] == SpendEvents(job);
  }

  lemma {:induction false} OneMoreJob(jobs: seq<Job>, i: nat, since: Time)
    requires i < |jobs|
    ensures Newer(EventsOf(jobs[..i + 1]), since)
            == Newer(EventsOf(jobs[..i]), since) + Newer(SpendEvents(jobs[i]), since)
    ensures AllPositive(Newer(SpendEvents(jobs[i]), since))
  {
    var before, job := jobs[..i], jobs[i];
    assert jobs[..i + 1] == before + [job];
    EventsOfAppend(before, [job]);
    EventsOfOne(job);
    NewerAppend(EventsOf(before), SpendEvents(job), since);
    EventsArePositive(job, since);
  }

  method CollectEvents(jobs: seq<Job>, since: Time) returns (events: seq<SpendEvent>)
    ensures events == Newer(EventsOf(jobs), since) && AllPositive(events)
  {
    events := [];
    for i := 0 to |jobs|
      invariant events == Newer(EventsOf(jobs[..i]), since) && AllPositive(events)
    {
      OneMoreJob(jobs, i, since);
      events := events + Newer(SpendEvents(jobs[i]), since);
    }
    assert jobs[..|jobs|] == jobs;
  }

  method Total(events: seq<SpendEvent>) returns (total: real)
    ensures total == SumCosts(events)
  {
    total := 0.0;
    for i := 0 to |events|
      invariant total + SumCosts(events[i..]) == SumCosts(events)
    {
      total := total + events[i].costUsd;
    }
  }

  method ResetInstant(events: seq<SpendEvent>, spent: real, limit: real) returns (resetsAt: Option<Time>)
    ensures resetsAt == ResetScan(events, spent, limit)
  {
    resetsAt := None;
    var remaining := spent;
    var i := 0;
    while i < |events|
      invariant 0 <= i <= |events|
      invariant ResetScan(events, spent, limit) == ResetScan(events[i..], remaining, limit)
    {
      remaining := remaining - events[i].costUsd;
      if remaining < limit {
        return Some(events[i].at + SPEND_WINDOW);
      }
      i := i + 1;
    }
  }

  /** The status tells the table's spend, and the least instant at which it will be below the limit. */
  ghost predicate IsStatus(status: SpendStatus, rows: map<Id, Job>, owner: Owner, limit: real, now: Time) {
    && status.limitUsd == limit
    && status.spentUsd == OwnerSpent(rows, owner, now)
    && (status.resetsAt.Some? <==> status.spentUsd >= limit && limit > 0.0)
    && (status.resetsAt.Some? ==>
          && status.resetsAt.value > now
          && OwnerSpent(rows, owner, status.resetsAt.value) < limit
          && forall t :: now <= t < status.resetsAt.value ==> OwnerSpent(rows, owner, t) >= limit)
  }

  lemma ScanMeetsStatus(
    ids: seq<Id>, rows: map<Id, Job>, owner: Owner, limit: real, now: Time, collected: seq<SpendEvent>)
    requires Names(ids, rows, OwnerRow(owner, now - SPEND_WINDOW))
    requires AllStamped(rows)
    requires collected == Newer(EventsOf(Rows(ids, rows)), now - SPEND_WINDOW) && AllPositive(collected)
    ensures var events := SortByTime(collected);
            var spent := SumCosts(events);
            IsStatus(SpendStatus(spent, limit, if spent >= limit then ResetScan(events, spent, limit) else None),
                     rows, owner, limit, now)
  {
    var events := SortByTime(collected);
    SortSorts(collected);
    SortedIsInWindow(EventsOf(Rows(ids, rows)), now - SPEND_WINDOW);
    CollectedIsTableFromNow(ids, rows, owner, now, collected);
    if SumCosts(events) >= limit {
      if limit > 0.0 {
        ResetIsLeast(events, limit, now);
      } else {
        NoResetWithoutLimit(events, limit);
      }
    }
  }

  lemma {:induction false} CollectedIsTableFromNow(
    ids: seq<Id>, rows: map<Id, Job>, owner: Owner, now: Time, collected: seq<SpendEvent>)
    requires Names(ids, rows, OwnerRow(owner, now - SPEND_WINDOW))
    requires AllStamped(rows)
    requires collected == Newer(EventsOf(Rows(ids, rows)), now - SPEND_WINDOW)
    ensures forall t :: now <= t ==> WindowSum(SortByTime(collected), t) == OwnerSpent(rows, owner, t)
  {
    forall t | now <= t
      ensures WindowSum(SortByTime(collected), t) == OwnerSpent(rows, owner, t)
    {
      CollectedIsTable(ids, rows, owner, now, t, collected);
    }
  }

  /** What was collected stays collected and in the window when it is sorted. */
  lemma {:induction false} SortedIsInWindow(events: seq<SpendEvent>, since: Time)
    ensures
      var sorted := SortByTime(Newer(events, since));
      && (forall i :: 0 <= i < |sorted| ==> sorted[i].at > since)
      && (AllPositive(Newer(events, since)) ==> AllPositive(sorted))
      && SumCosts(Newer(sorted, since)) == SumCosts(sorted)
  {
    var collected := Newer(events, since);
    var sorted := SortByTime(collected);
    NewerAll(events, since);
    SortSorts(collected);
    SortKeepsMembers(collected);
    if sorted != [] {
      NewerSorted(sorted, since);
    }
  }

  lemma {:induction false} SortKeepsMembers(events: seq<SpendEvent>)
    ensures forall i :: 0 <= i < |SortByTime(events)| ==> SortByTime(events)[i] in events
  {
    SortSorts(events);
    forall i | 0 <= i < |SortByTime(events)|
      ensures SortByTime(events)[i] in events
    {
      assert SortByTime(events)[i] in multiset(SortByTime(events));
    }
  }

  /**
   `spend_status`, for a table in which every cost is stamped no later than
   its record's last save, as it is in every run of the service.
   */
  method CurrentSpend(store: JobStore, owner: Owner, limit: real, now: Time) returns (status: SpendStatus)
    requires AllStamped(store.rows)
    ensures IsStatus(status, store.rows, owner, limit, now)
  {
    var since := now - SPEND_WINDOW;
    var ids, jobs := store.ListOwnerJobsUpdatedSince(owner, since);
    var collected := CollectEvents(jobs, since);
    var events := SortByTime(collected);
    var spent := Total(events);
    var resetsAt: Option<Time> := None;
    if spent >= limit {
      resetsAt := ResetInstant(events, spent, limit);
    }
    ScanMeetsStatus(ids, store.rows, owner, limit, now, collected);
    status := SpendStatus(spent, limit, resetsAt);
  }

  ghost predicate OwnerAtLimit(rows: map<Id, Job>, owner: Option<Owner>, budget: Option<real>, now: Time) {
    budget.Some? && owner.Some? && OwnerSpent(rows, owner.value, now) >= budget.value
  }

  /** `check_spend_limit`: a no-op without a limit or an owner. */
  method CheckSpendLimit(store: JobStore, owner: Option<Owner>, budget: Option<real>, now: Time)
    returns (refused: Option<SpendStatus>)
    requires AllStamped(store.rows)
    ensures refused.Some? <==> OwnerAtLimit(store.rows, owner, budget, now)
    ensures refused.Some? ==> IsStatus(refused.value, store.rows, owner.value, budget.value, now)
  {
    if budget.None? || owner.None? {
      return None;
    }
    var status := CurrentSpend(store, owner.value, budget.value, now);
    refused := if Exceeded(status) then Some(status) else None;
  }
}
