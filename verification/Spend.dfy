/** The rolling 24-hour spend window: what counts, and when enough of it ages out. */
module Spend {
  import opened Prelude
  import opened Models
  import opened Sums

  const SPEND_WINDOW: Time := 24 * 3600 * 1_000_000

  datatype SpendEvent = SpendEvent(at: Time, costUsd: real)

  function RunEvent(usage: Option<AgentUsage>, at: Time): seq<SpendEvent> {
    if Cost(usage) > 0.0 then [SpendEvent(at, Cost(usage))] else []
  }

  function OrElse(at: Option<Time>, fallback: Time): Time {
    if at.Some? then at.value else fallback
  }

  /** Each recorded cost of a job, stamped with when that run started. */
  function SpendEvents(job: Job): seq<SpendEvent> {
    RunEvent(job.usage, job.createdAt)
    + RunEvent(job.implementationUsage, OrElse(job.startedAt, job.updatedAt))
    + RunEvent(job.correctionUsage, OrElse(job.correctionStartedAt, job.updatedAt))
  }

  function SumCosts(events: seq<SpendEvent>): real {
    if events == [] then 0.0 else events[0].costUsd + SumCosts(events[1..])
  }

  /** The events that are newer than `since`. */
  function Newer(events: seq<SpendEvent>, since: Time): seq<SpendEvent> {
    if events == [] then []
    else if events[0].at > since then [events[0]] + Newer(events[1..], since)
    else Newer(events[1..], since)
  }

  /** What one event weighs in the window that opens after `since`. */
  function Weight(usage: Option<AgentUsage>, at: Time, since: Time): real {
    if Cost(usage) > 0.0 && at > since then Cost(usage) else 0.0
  }

  /** A job's spend in the window that opens after `since`. */
  function WindowCost(job: Job, since: Time): real {
    Weight(job.usage, job.createdAt, since)
    + Weight(job.implementationUsage, OrElse(job.startedAt, job.updatedAt), since)
    + Weight(job.correctionUsage, OrElse(job.correctionStartedAt, job.updatedAt), since)
  }

  /** What a job weighs for `owner` in the window that opens after `since`. */
  function JobSpent(owner: Owner, since: Time): Job -> real {
    (job: Job) => if job.owner == Some(owner) then WindowCost(job, since) else 0.0
  }

  /** An owner's recorded spend over the window that ends at `now`, from the whole table. */
  ghost function OwnerSpent(rows: map<Id, Job>, owner: Owner, now: Time): real {
    SumBy(rows, JobSpent(owner, now - SPEND_WINDOW))
  }

  datatype AgentKind = PlanAgent | ImplementationAgent | CorrectionAgent

  function Recorded(job: Job, agent: AgentKind): Option<AgentUsage> {
    match agent
    case PlanAgent => job.usage
    case ImplementationAgent => job.implementationUsage
    case CorrectionAgent => job.correctionUsage
  }

  /** One column of the cost summary, for one owner (`None`: jobs without one). */
  function RecordedCost(owner: Option<Owner>, agent: AgentKind): Job -> real {
    (job: Job) => if job.owner == owner then Cost(Recorded(job, agent)) else 0.0
  }

  lemma {:induction false} NewerAppend(a: seq<SpendEvent>, b: seq<SpendEvent>, since: Time)
    ensures Newer(a + b, since) == Newer(a, since) + Newer(b, since)
  {
    if a == [] {
      assert a + b == b;
    } else {
      NewerAppend(a[1..], b, since);
      assert (a + b)[1..] == a[1..] + b && (a + b)[0] == a[0];
      if a[0].at > since {
        assert [a[0]] + (Newer(a[1..], since) + Newer(b, since)) == Newer(a, since) + Newer(b, since);
      }
    }
  }

  lemma {:induction false} SumAppend(a: seq<SpendEvent>, b: seq<SpendEvent>)
    ensures SumCosts(a + b) == SumCosts(a) + SumCosts(b)
  {
    if a == [] {
      assert a + b == b;
    } else {
      SumAppend(a[1..], b);
      assert (a + b)[1..] == a[1..] + b;
    }
  }

  lemma {:induction false} RunEventCost(usage: Option<AgentUsage>, at: Time, since: Time)
    ensures SumCosts(Newer(RunEvent(usage, at), since)) == Weight(usage, at, since)
  {
    var events := RunEvent(usage, at);
    if events != [] {
      assert events[1..] == [];
      assert Newer(events, since) == if at > since then events else [];
    }
  }

  /** The window cost of a job is the sum of its events in the window. */
  lemma {:induction false} WindowCostIsEventSum(job: Job, since: Time)
    ensures SumCosts(Newer(SpendEvents(job), since)) == WindowCost(job, since)
  {
    var a := RunEvent(job.usage, job.createdAt);
    var b := RunEvent(job.implementationUsage, OrElse(job.startedAt, job.updatedAt));
    var c := RunEvent(job.correctionUsage, OrElse(job.correctionStartedAt, job.updatedAt));
    NewerAppend(a + b, c, since);
    NewerAppend(a, b, since);
    SumAppend(Newer(a, since) + Newer(b, since), Newer(c, since));
    SumAppend(Newer(a, since), Newer(b, since));
    RunEventCost(job.usage, job.createdAt, since);
    RunEventCost(job.implementationUsage, OrElse(job.startedAt, job.updatedAt), since);
    RunEventCost(job.correctionUsage, OrElse(job.correctionStartedAt, job.updatedAt), since);
  }

  /** The record with one agent's usage taken out. */
  function Unspent(job: Job, agent: AgentKind): Job {
    match agent
    case PlanAgent => job.(usage := None)
    case ImplementationAgent => job.(implementationUsage := None)
    case CorrectionAgent => job.(correctionUsage := None)
  }

  /** The usage has this cost on it. */
  predicate HasCost(usage: Option<AgentUsage>, cost: real) {
    usage.Some? && usage.value.totalCostUsd == Some(cost)
  }

  /** What is left of a usage that says no cost: nothing. */
  predicate HasNoCost(usage: Option<AgentUsage>) {
    usage.None? || usage.value.totalCostUsd.None?
  }

  /** A plan's cost weighs in exactly the windows that open before the job was created. */
  lemma {:induction false} PlanWeighsByCreation(job: Job, since: Time, cost: real)
    requires HasCost(job.usage, cost) && cost > 0.0
    ensures WindowCost(job, since) - WindowCost(job.(usage := None), since) == if job.createdAt > since then cost else 0.0
  {}

  /** An implementation's cost weighs in those that open before it started, or was last saved if no start is known. */
  lemma {:induction false} ImplementationWeighsByStart(job: Job, since: Time, cost: real)
    requires HasCost(job.implementationUsage, cost) && cost > 0.0
    ensures
      var started := if job.startedAt.Some? then job.startedAt.value else job.updatedAt;
      WindowCost(job, since) - WindowCost(job.(implementationUsage := None), since) ==
        if started > since then cost else 0.0
  {}

  /** And a correction's in those that open before that started, with the same way out. */
  lemma {:induction false} CorrectionWeighsByStart(job: Job, since: Time, cost: real)
    requires HasCost(job.correctionUsage, cost) && cost > 0.0
    ensures
      var started := if job.correctionStartedAt.Some? then job.correctionStartedAt.value else job.updatedAt;
      WindowCost(job, since) - WindowCost(job.(correctionUsage := None), since) ==
        if started > since then cost else 0.0
  {}

  /** A usage without a positive cost weighs nothing, and these three are all that weighs. */
  lemma {:induction false} NothingElseWeighs(job: Job, since: Time, agent: AgentKind)
    ensures HasNoCost(Recorded(job, agent)) || (exists cost :: HasCost(Recorded(job, agent), cost) && cost <= 0.0) ==>
      WindowCost(job, since) == WindowCost(Unspent(job, agent), since)
    ensures HasNoCost(job.usage) && HasNoCost(job.implementationUsage) && HasNoCost(job.correctionUsage) ==>
      WindowCost(job, since) == 0.0
  {}

  /** The time from which an agent's cost counts. */
  function CountsFrom(job: Job, agent: AgentKind): Time {
    match agent
    case PlanAgent => job.createdAt
    case ImplementationAgent => OrElse(job.startedAt, job.updatedAt)
    case CorrectionAgent => OrElse(job.correctionStartedAt, job.updatedAt)
  }

  /** Each agent's cost is in its owner's spend exactly until a window after that time. */
  lemma {:induction false} EachCostCounts(
    rows: map<Id, Job>, owner: Owner, id: Id, agent: AgentKind, cost: real, now: Time)
    requires id in rows && rows[id].owner == Some(owner) && HasCost(Recorded(rows[id], agent), cost) && cost > 0.0
    ensures OwnerSpent(rows, owner, now) - OwnerSpent(rows[id := Unspent(rows[id], agent)], owner, now) ==
      if now < CountsFrom(rows[id], agent) + SPEND_WINDOW then cost else 0.0
  {
    var without, since := rows[id := Unspent(rows[id], agent)], now - SPEND_WINDOW;
    SumRemove(rows, id, JobSpent(owner, since));
    SumRemove(without, id, JobSpent(owner, since));
    assert without - {id} == rows - {id};
    match agent
    case PlanAgent => PlanWeighsByCreation(rows[id], since, cost);
    case ImplementationAgent => ImplementationWeighsByStart(rows[id], since, cost);
    case CorrectionAgent => CorrectionWeighsByStart(rows[id], since, cost);
  }

  /** Every event of the job is stamped no later than its last save. */
  predicate StampedByUpdate(job: Job) {
    && job.createdAt <= job.updatedAt
    && OrElse(job.startedAt, job.updatedAt) <= job.updatedAt
    && OrElse(job.correctionStartedAt, job.updatedAt) <= job.updatedAt
  }

  // The coarse SQL prefilter compares whole seconds.

  const SECOND: Time := 1_000_000

  function WholeSecond(at: Time): Time {
    at / SECOND
  }

  predicate UpdatedSince(job: Job, since: Time) {
    WholeSecond(job.updatedAt) >= WholeSecond(since)
  }

  /** A job the prefilter leaves out has nothing in the window. */
  lemma {:induction false} PrefilterDropsNothing(job: Job, since: Time)
    requires StampedByUpdate(job) && !UpdatedSince(job, since)
    ensures Newer(SpendEvents(job), since) == [] && WindowCost(job, since) == 0.0
  {
    assert job.updatedAt < since;
    WindowCostIsEventSum(job, since);
    var a := RunEvent(job.usage, job.createdAt);
    var b := RunEvent(job.implementationUsage, OrElse(job.startedAt, job.updatedAt));
    var c := RunEvent(job.correctionUsage, OrElse(job.correctionStartedAt, job.updatedAt));
    NewerAppend(a + b, c, since);
    NewerAppend(a, b, since);
  }

  // The reset instant

  predicate SortedByTime(events: seq<SpendEvent>) {
    forall i, j :: 0 <= i < j < |events| ==> events[i].at <= events[j].at
  }

  predicate AllPositive(events: seq<SpendEvent>) {
    forall i :: 0 <= i < |events| ==> events[i].costUsd > 0.0
  }

  /** What counts at instant `t` if nothing more is spent. */
  function WindowSum(events: seq<SpendEvent>, t: Time): real {
    SumCosts(Newer(events, t - SPEND_WINDOW))
  }

  /** The scan of `spend_status`: drop events oldest first until the rest is below the limit. */
  function ResetScan(events: seq<SpendEvent>, remaining: real, limit: real): Option<Time> {
    if events == [] then None
    else if remaining - events[0].costUsd < limit then Some(events[0].at + SPEND_WINDOW)
    else ResetScan(events[1..], remaining - events[0].costUsd, limit)
  }

  lemma {:induction false} NewerSorted(events: seq<SpendEvent>, since: Time)
    requires SortedByTime(events) && events != [] && events[0].at > since
    ensures Newer(events, since) == events
    decreases |events|
  {
    if |events| > 1 {
      assert events[1].at >= events[0].at;
      NewerSorted(events[1..], since);
    }
  }

  lemma {:induction false} NewerBounds(events: seq<SpendEvent>, since: Time)
    requires AllPositive(events)
    ensures 0.0 <= SumCosts(Newer(events, since)) <= SumCosts(events)
    ensures AllPositive(Newer(events, since))
    decreases |events|
  {
    if events != [] {
      NewerBounds(events[1..], since);
      var rest := Newer(events[1..], since);
      if events[0].at > since {
        assert Newer(events, since)[1..] == rest;
      }
    }
  }

  /**
   The scan is exact. For a spend at or over a positive limit it finds an
   instant; at that instant the window is below the limit; at any earlier
   instant from `now` on it is not. Events that share a timestamp leave the
   window together, which the scan need not know.
   */
  lemma {:induction false} ResetIsLeast(events: seq<SpendEvent>, limit: real, now: Time)
    requires SortedByTime(events) && AllPositive(events)
    requires forall i :: 0 <= i < |events| ==> events[i].at > now - SPEND_WINDOW
    requires limit > 0.0 && SumCosts(events) >= limit
    ensures var reset := ResetScan(events, SumCosts(events), limit);
            && reset.Some? && reset.value > now
            && WindowSum(events, reset.value) < limit
            && forall t :: now <= t < reset.value ==> WindowSum(events, t) >= limit
    decreases |events|
  {
    if events != [] {
      var first, rest := events[0], events[1..];
      var left := SumCosts(events) - first.costUsd;
      if left < limit {
        var since := first.at;
        assert Newer(events, since) == Newer(rest, since);
        NewerBounds(rest, since);
        forall t | now <= t < first.at + SPEND_WINDOW
          ensures WindowSum(events, t) >= limit
        {
          NewerSorted(events, t - SPEND_WINDOW);
        }
      } else {
        ResetIsLeast(rest, limit, now);
        var reset := ResetScan(rest, left, limit).value;
        assert reset - SPEND_WINDOW >= first.at by {
          ResetAfterFirst(rest, left, limit);
        }
        forall t | now <= t < reset
          ensures WindowSum(events, t) >= limit
        {
          if first.at > t - SPEND_WINDOW {
            NewerSorted(events, t - SPEND_WINDOW);
          } else {
            assert Newer(events, t - SPEND_WINDOW) == Newer(rest, t - SPEND_WINDOW);
            assert WindowSum(rest, t) >= limit;
          }
        }
      }
    }
  }

  lemma {:induction false} ResetAfterFirst(events: seq<SpendEvent>, remaining: real, limit: real)
    requires SortedByTime(events)
    ensures var reset := ResetScan(events, remaining, limit);
            reset.Some? ==> events != [] && reset.value >= events[0].at + SPEND_WINDOW
    decreases |events|
  {
    if events != [] {
      ResetAfterFirst(events[1..], remaining - events[0].costUsd, limit);
    }
  }

  /** Without a positive limit the scan finds no instant: the window can never be below it. */
  lemma {:induction false} NoResetWithoutLimit(events: seq<SpendEvent>, limit: real)
    requires AllPositive(events) && limit <= 0.0
    ensures ResetScan(events, SumCosts(events), limit).None?
    decreases |events|
  {
    if events != [] {
      NewerBounds(events[1..], 0);
      NoResetWithoutLimit(events[1..], limit);
    }
  }

  // Sorting, as the built-in sort does it: stable, by timestamp.

  function Insert(event: SpendEvent, sorted: seq<SpendEvent>): seq<SpendEvent> {
    if sorted == [] || event.at <= sorted[0].at then [event] + sorted
    else [sorted[0]] + Insert(event, sorted[1..])
  }

  function SortByTime(events: seq<SpendEvent>): seq<SpendEvent> {
    if events == [] then [] else Insert(events[0], SortByTime(events[1..]))
  }

  lemma {:induction false} InsertAbove(event: SpendEvent, sorted: seq<SpendEvent>, low: Time)
    requires low <= event.at && forall i :: 0 <= i < |sorted| ==> low <= sorted[i].at
    ensures forall i :: 0 <= i < |Insert(event, sorted)| ==> low <= Insert(event, sorted)[i].at
    decreases |sorted|
  {
    if sorted != [] {
      InsertAbove(event, sorted[1..], low);
    }
  }

  lemma {:induction false} InsertSorts(event: SpendEvent, sorted: seq<SpendEvent>)
    requires SortedByTime(sorted)
    ensures SortedByTime(Insert(event, sorted))
    decreases |sorted|
  {
    if sorted != [] && event.at > sorted[0].at {
      InsertSorts(event, sorted[1..]);
      InsertAbove(event, sorted[1..], sorted[0].at);
    }
  }

  lemma {:induction false} InsertKeepsMembers(event: SpendEvent, sorted: seq<SpendEvent>)
    ensures multiset(Insert(event, sorted)) == multiset{event} + multiset(sorted)
    decreases |sorted|
  {
    if sorted != [] && event.at > sorted[0].at {
      InsertKeepsMembers(event, sorted[1..]);
      assert sorted == [sorted[0]] + sorted[1..];
    }
  }

  lemma {:induction false} InsertAddsCost(event: SpendEvent, sorted: seq<SpendEvent>)
    ensures SumCosts(Insert(event, sorted)) == event.costUsd + SumCosts(sorted)
    decreases |sorted|
  {
    if sorted == [] || event.at <= sorted[0].at {
      assert ([event] + sorted)[1..] == sorted;
    } else {
      InsertAddsCost(event, sorted[1..]);
      assert ([sorted[0]] + Insert(event, sorted[1..]))[1..] == Insert(event, sorted[1..]);
    }
  }

  lemma {:induction false} SortSorts(events: seq<SpendEvent>)
    ensures SortedByTime(SortByTime(events))
    ensures multiset(SortByTime(events)) == multiset(events)
    ensures SumCosts(SortByTime(events)) == SumCosts(events)
    decreases |events|
  {
    if events != [] {
      SortSorts(events[1..]);
      InsertSorts(events[0], SortByTime(events[1..]));
      InsertKeepsMembers(events[0], SortByTime(events[1..]));
      InsertAddsCost(events[0], SortByTime(events[1..]));
      assert events == [events[0]] + events[1..];
    }
  }
}
