/**
 The agent-slot cap. `AgentSlots` counts on asyncio's semaphore, whose waiters
 are granted in arrival order; a granted waiter still has to be resumed before
 it runs, and may be cancelled in between.
 */
module Slots {
  import opened Prelude

  type TaskId = nat

  datatype Waiter = Waiter(task: TaskId, granted: bool)

  // `value`: free permits. `holders`: tasks inside the slot. The last three
  // fields are the history: arrivals in order, starts in order, and the tasks
  // cancelled while they waited.
  datatype SlotState = SlotState(
    limit: nat, running: int, waiting: int, value: nat, queue: seq<Waiter>, holders: set<TaskId>,
    arrived: seq<TaskId>, started: seq<TaskId>, cancelled: set<TaskId>)

  datatype SlotEvent =
    | Arrive(task: TaskId)          // enters `hold`
    | Resume                        // the first waiter, granted, is resumed
    | CancelWaiting(task: TaskId)   // cancelled while waiting, granted or not
    | Leave(task: TaskId)           // the body ends, normally, by an exception or by cancellation

  // The semaphore

  predicate HasUngranted(queue: seq<Waiter>) {
    exists i :: 0 <= i < |queue| && !queue[i].granted
  }

  /** Grant the first waiter that has no permit yet. */
  function GrantFirst(queue: seq<Waiter>): (granted: seq<Waiter>)
    requires HasUngranted(queue)
    ensures |granted| == |queue|
  {
    if !queue[0].granted then [queue[0].(granted := true)] + queue[1..]
    else
      assert HasUngranted(queue[1..]) by {
        var i :| 0 <= i < |queue| && !queue[i].granted;
        assert queue[1..][i - 1] == queue[i];
      }
      [queue[0]] + GrantFirst(queue[1..])
  }

  function Wake(s: SlotState): SlotState {
    if s.value > 0 && HasUngranted(s.queue) then s.(value := s.value - 1, queue := GrantFirst(s.queue)) else s
  }

  /** Grant as many waiters as there are permits. */
  function WakeAll(s: SlotState): SlotState
    decreases s.value
  {
    if s.value > 0 && HasUngranted(s.queue) then WakeAll(Wake(s)) else s
  }

  // Events

  function Position(queue: seq<Waiter>, task: TaskId): (i: nat)
    requires exists k :: 0 <= k < |queue| && queue[k].task == task
    ensures i < |queue| && queue[i].task == task
  {
    if queue[0].task == task then 0
    else
      assert exists k :: 0 <= k < |queue[1..]| && queue[1..][k].task == task by {
        var k :| 0 <= k < |queue| && queue[k].task == task;
        assert queue[1..][k - 1].task == task;
      }
      1 + Position(queue[1..], task)
  }

  predicate Waits(s: SlotState, task: TaskId) {
    exists k :: 0 <= k < |s.queue| && s.queue[k].task == task
  }

  predicate CanHappen(s: SlotState, event: SlotEvent) {
    match event
    case Arrive(task) => task !in s.arrived
    case Resume => s.queue != [] && s.queue[0].granted
    case CancelWaiting(task) => Waits(s, task)
    case Leave(task) => task in s.holders
  }

  function Start(s: SlotState, task: TaskId): SlotState {
    s.(running := s.running + 1, holders := s.holders + {task}, started := s.started + [task])
  }

  /** The state in which the cancelled waiter at `i` has left and given its permit back. */
  function Dropped(s: SlotState, i: nat): SlotState
    requires i < |s.queue|
  {
    s.(queue := s.queue[..i] + s.queue[i + 1..],
       value := if s.queue[i].granted then s.value + 1 else s.value,
       waiting := s.waiting - 1,
       cancelled := s.cancelled + {s.queue[i].task})
  }

  function Happen(s: SlotState, event: SlotEvent): SlotState
    requires CanHappen(s, event)
  {
    match event
    case Arrive(task) =>
      var t := s.(arrived := s.arrived + [task]);
      if s.value == 0 || s.queue != [] then
        t.(waiting := s.waiting + 1, queue := s.queue + [Waiter(task, false)])
      else
        // Counted as waiting and no longer waiting without a suspension in between.
        Start(t.(value := s.value - 1), task)
    case Resume =>
      var t := WakeAll(s.(queue := s.queue[1..], waiting := s.waiting - 1));
      Start(t, s.queue[0].task)
    case CancelWaiting(task) =>
      var i := Position(s.queue, task);
      WakeAll(Dropped(s, i))
    case Leave(task) =>
      Wake(s.(running := s.running - 1, holders := s.holders - {task}, value := s.value + 1))
  }

  // The invariant

  function GrantedCount(queue: seq<Waiter>): nat {
    if queue == [] then 0 else (if queue[0].granted then 1 else 0) + GrantedCount(queue[1..])
  }

  function Tasks(queue: seq<Waiter>): (tasks: seq<TaskId>)
    ensures |tasks| == |queue|
  {
    seq(|queue|, i requires 0 <= i < |queue| => queue[i].task)
  }

  /** The tasks of `arrived` that were not cancelled, in order. */
  function Surviving(arrived: seq<TaskId>, cancelled: set<TaskId>): seq<TaskId> {
    if arrived == [] then []
    else
      var rest := Surviving(arrived[..|arrived| - 1], cancelled);
      var last := arrived[|arrived| - 1];
      if last in cancelled then rest else rest + [last]
  }

  predicate GrantedFirst(queue: seq<Waiter>) {
    forall i, j :: 0 <= i < j < |queue| && queue[j].granted ==> queue[i].granted
  }

  predicate NoDuplicates(tasks: seq<TaskId>) {
    forall i, j :: 0 <= i < j < |tasks| ==> tasks[i] != tasks[j]
  }

  /** Every permit is free, held or granted, and the counters count. */
  predicate Counted(s: SlotState) {
    && s.limit >= 1
    && s.value + |s.holders| + GrantedCount(s.queue) == s.limit
    && s.running == |s.holders| && s.waiting == |s.queue|
    && GrantedFirst(s.queue)
  }

  /** The starts followed by the queue are the arrivals that were not cancelled, in order. */
  ghost predicate InOrder(s: SlotState) {
    && NoDuplicates(s.arrived)
    && s.started + Tasks(s.queue) == Surviving(s.arrived, s.cancelled)
    && (forall task :: task in s.holders ==> task in s.started)
    && (forall task :: task in s.cancelled ==> task in s.arrived)
  }

  /** All of the invariant but the promise that a free permit is on its way to the first waiter. */
  ghost predicate Balanced(s: SlotState) {
    Counted(s) && InOrder(s)
  }

  ghost predicate SlotInv(s: SlotState) {
    Balanced(s) && (s.value > 0 && s.queue != [] ==> s.queue[0].granted)
  }

  function Fresh(limit: nat): SlotState {
    SlotState(limit, 0, 0, limit, [], {}, [], [], {})
  }

  // Granting keeps the counts, the order and the tasks

  lemma {:induction false} GrantFirstFacts(queue: seq<Waiter>)
    requires HasUngranted(queue) && GrantedFirst(queue)
    ensures GrantedCount(GrantFirst(queue)) == GrantedCount(queue) + 1
    ensures Tasks(GrantFirst(queue)) == Tasks(queue)
    ensures GrantedFirst(GrantFirst(queue)) && GrantFirst(queue)[0].granted
    decreases |queue|
  {
    if !queue[0].granted {
      assert GrantFirst(queue)[1..] == queue[1..];
      NoneGranted(queue);
    } else {
      var rest := queue[1..];
      assert HasUngranted(rest) by {
        var i :| 0 <= i < |queue| && !queue[i].granted;
        assert rest[i - 1] == queue[i];
      }
      GrantFirstFacts(rest);
      var granted := GrantFirst(rest);
      assert GrantFirst(queue)[1..] == granted;
      forall i, j | 0 <= i < j < |queue| && GrantFirst(queue)[j].granted
        ensures GrantFirst(queue)[i].granted
      {
        if i > 0 {
          assert granted[j - 1].granted;
        }
      }
      forall i | 0 <= i < |queue|
        ensures GrantFirst(queue)[i].task == queue[i].task
      {
        if i > 0 {
          assert Tasks(granted)[i - 1] == Tasks(rest)[i - 1];
        }
      }
    }
  }

  lemma {:induction false} NoneGranted(queue: seq<Waiter>)
    requires queue != [] && GrantedFirst(queue) && !queue[0].granted
    ensures GrantedCount(queue) == 0 && forall i :: 0 <= i < |queue| ==> !queue[i].granted
    decreases |queue|
  {
    if |queue| > 1 {
      NoneGranted(queue[1..]);
    }
  }

  lemma WakeKeepsBalance(s: SlotState)
    requires Balanced(s)
    ensures Balanced(Wake(s)) && Wake(s).holders == s.holders
    ensures Wake(s) != s ==> Wake(s).queue[0].granted
  {
    if s.value > 0 && HasUngranted(s.queue) {
      GrantFirstFacts(s.queue);
    }
  }

  lemma {:induction false} WakeAllKeepsBalance(s: SlotState)
    requires Balanced(s)
    ensures SlotInv(WakeAll(s)) && Balanced(WakeAll(s))
    ensures WakeAll(s).holders == s.holders && WakeAll(s).started == s.started
    ensures WakeAll(s).value == 0 || !HasUngranted(WakeAll(s).queue)
    decreases s.value
  {
    if s.value > 0 && HasUngranted(s.queue) {
      WakeKeepsBalance(s);
      WakeAllKeepsBalance(Wake(s));
    }
  }

  // The history

  lemma {:induction false} SurvivingMembers(arrived: seq<TaskId>, cancelled: set<TaskId>)
    ensures forall t :: t in Surviving(arrived, cancelled) <==> t in arrived && t !in cancelled
    ensures NoDuplicates(arrived) ==> NoDuplicates(Surviving(arrived, cancelled))
    decreases |arrived|
  {
    if arrived != [] {
      var before, last := arrived[..|arrived| - 1], arrived[|arrived| - 1];
      assert arrived == before + [last];
      SurvivingMembers(before, cancelled);
    }
  }

  lemma {:induction false} CancellingStrangers(arrived: seq<TaskId>, cancelled: set<TaskId>, task: TaskId)
    requires task !in arrived
    ensures Surviving(arrived, cancelled + {task}) == Surviving(arrived, cancelled)
    decreases |arrived|
  {
    if arrived != [] {
      CancellingStrangers(arrived[..|arrived| - 1], cancelled, task);
    }
  }

  /** Cancelling a surviving task takes exactly that task out. */
  lemma {:induction false} SurvivingWithout(
    arrived: seq<TaskId>, cancelled: set<TaskId>, task: TaskId, a: seq<TaskId>, b: seq<TaskId>)
    requires NoDuplicates(arrived) && Surviving(arrived, cancelled) == a + [task] + b
    ensures Surviving(arrived, cancelled + {task}) == a + b
    decreases |arrived|
  {
    SurvivingMembers(arrived, cancelled);
    var before, last := arrived[..|arrived| - 1], arrived[|arrived| - 1];
    var all, rest := a + [task] + b, Surviving(before, cancelled);
    if last in cancelled {
      SurvivingWithout(before, cancelled, task, a, b);
    } else {
      assert all == rest + [last] && all[..|all| - 1] == rest && all[|all| - 1] == last;
      if last == task {
        assert all[|all| - 1] == all[|a|];
        assert rest == a;
        CancellingStrangers(before, cancelled, task);
      } else {
        assert b != [] && b[|b| - 1] == last by {
          assert b == [] ==> all == a + [task];
        }
        var init := b[..|b| - 1];
        assert rest == a + [task] + init;
        SurvivingWithout(before, cancelled, task, a, init);
        assert a + init + [last] == a + b;
      }
    }
  }

  lemma {:induction false} GrantedCountSplit(a: seq<Waiter>, b: seq<Waiter>)
    ensures GrantedCount(a + b) == GrantedCount(a) + GrantedCount(b)
    decreases |a|
  {
    if a == [] {
      assert a + b == b;
    } else {
      GrantedCountSplit(a[1..], b);
      assert (a + b)[1..] == a[1..] + b;
    }
  }

  // Every event keeps the invariant

  lemma ArriveKeepsCounted(s: SlotState, task: TaskId)
    requires SlotInv(s) && CanHappen(s, Arrive(task))
    ensures Counted(Happen(s, Arrive(task)))
  {
    if s.value == 0 || s.queue != [] {
      GrantedCountSplit(s.queue, [Waiter(task, false)]);
    } else {
      SurvivingMembers(s.arrived, s.cancelled);
      assert forall holder :: holder in s.holders ==> holder in s.started + Tasks(s.queue);
    }
  }

  lemma ArriveKeepsInOrder(s: SlotState, task: TaskId)
    requires SlotInv(s) && CanHappen(s, Arrive(task))
    ensures InOrder(Happen(s, Arrive(task)))
  {
    var t := Happen(s, Arrive(task));
    assert t.arrived[..|t.arrived| - 1] == s.arrived;
    if s.value == 0 || s.queue != [] {
      assert Tasks(t.queue) == Tasks(s.queue) + [task];
    }
  }

  lemma ArriveKeepsInv(s: SlotState, task: TaskId)
    requires SlotInv(s) && CanHappen(s, Arrive(task))
    ensures SlotInv(Happen(s, Arrive(task)))
  {
    ArriveKeepsCounted(s, task);
    ArriveKeepsInOrder(s, task);
  }

  /** Starting the task at the head of the queue moves it from the queue to the starts. */
  lemma ResumeKeepsInv(s: SlotState)
    requires SlotInv(s) && CanHappen(s, Resume)
    ensures SlotInv(Happen(s, Resume))
  {
    var head, rest := s.queue[0].task, s.queue[1..];
    assert Tasks(s.queue) == [head] + Tasks(rest);
    assert (s.started + [head]) + Tasks(rest) == s.started + Tasks(s.queue);
    HeadHoldsNothing(s);
    var u := Start(s.(queue := rest, waiting := s.waiting - 1), head);
    assert |u.holders| == |s.holders| + 1;
    assert GrantedCount(s.queue) == 1 + GrantedCount(rest);
    WakeAllKeepsBalance(u);
    WakeAllIgnores(s.(queue := rest, waiting := s.waiting - 1), head);
  }

  /** A queued task is not among the starts, so it holds nothing yet. */
  lemma HeadHoldsNothing(s: SlotState)
    requires SlotInv(s) && s.queue != []
    ensures s.queue[0].task !in s.started && s.queue[0].task !in s.holders
  {
    SurvivingMembers(s.arrived, s.cancelled);
    var all := s.started + Tasks(s.queue);
    assert NoDuplicates(all) && all[|s.started|] == s.queue[0].task;
    assert forall i :: 0 <= i < |s.started| ==> all[i] == s.started[i] && all[i] != all[|s.started|];
  }

  /** Granting permits and counting the resumed task as started commute. */
  lemma {:induction false} WakeAllIgnores(s: SlotState, task: TaskId)
    ensures WakeAll(Start(s, task)) == Start(WakeAll(s), task)
    decreases s.value
  {
    if s.value > 0 && HasUngranted(s.queue) {
      assert Wake(Start(s, task)) == Start(Wake(s), task);
      WakeAllIgnores(Wake(s), task);
    }
  }

  lemma DropKeepsCounted(s: SlotState, i: nat)
    requires Counted(s) && i < |s.queue|
    ensures Counted(Dropped(s, i))
  {
    var before, after := s.queue[..i], s.queue[i + 1..];
    assert s.queue == before + ([s.queue[i]] + after);
    GrantedCountSplit(before, [s.queue[i]] + after);
    GrantedCountSplit([s.queue[i]], after);
    GrantedCountSplit(before, after);
  }

  lemma DropKeepsInOrder(s: SlotState, i: nat)
    requires InOrder(s) && i < |s.queue|
    ensures InOrder(Dropped(s, i))
  {
    var before, after, task := s.queue[..i], s.queue[i + 1..], s.queue[i].task;
    var left, right := s.started + Tasks(before), Tasks(after);
    assert s.started + Tasks(s.queue) == left + [task] + right;
    SurvivingWithout(s.arrived, s.cancelled, task, left, right);
    assert left + right == s.started + Tasks(before + after);
    SurvivingMembers(s.arrived, s.cancelled);
    assert (left + [task] + right)[|left|] == task;
  }

  /** A cancelled waiter leaves the queue; a permit it had been granted goes to the next one. */
  lemma CancelKeepsInv(s: SlotState, task: TaskId)
    requires SlotInv(s) && CanHappen(s, CancelWaiting(task))
    ensures SlotInv(Happen(s, CancelWaiting(task)))
  {
    var i := Position(s.queue, task);
    DropKeepsCounted(s, i);
    DropKeepsInOrder(s, i);
    WakeAllKeepsBalance(Dropped(s, i));
  }

  /** The end of a run frees one permit and grants it to the first waiter without one. */
  lemma LeaveKeepsInv(s: SlotState, task: TaskId)
    requires SlotInv(s) && CanHappen(s, Leave(task))
    ensures SlotInv(Happen(s, Leave(task)))
  {
    var t := s.(running := s.running - 1, holders := s.holders - {task}, value := s.value + 1);
    assert Balanced(t);
    WakeKeepsBalance(t);
  }

  lemma EveryEventKeepsInv(s: SlotState, event: SlotEvent)
    requires SlotInv(s) && CanHappen(s, event)
    ensures SlotInv(Happen(s, event))
  {
    match event
    case Arrive(task) => ArriveKeepsInv(s, task);
    case Resume => ResumeKeepsInv(s);
    case CancelWaiting(task) => CancelKeepsInv(s, task);
    case Leave(task) => LeaveKeepsInv(s, task);
  }

  // Whole runs

  ghost predicate IsSlotRun(s: SlotState, events: seq<SlotEvent>)
    decreases |events|
  {
    events != [] ==> CanHappen(s, events[0]) && IsSlotRun(Happen(s, events[0]), events[1..])
  }

  function AfterAll(s: SlotState, events: seq<SlotEvent>): SlotState
    requires IsSlotRun(s, events)
    decreases |events|
  {
    if events == [] then s else AfterAll(Happen(s, events[0]), events[1..])
  }

  lemma {:induction false} RunKeepsInv(s: SlotState, events: seq<SlotEvent>)
    requires SlotInv(s) && IsSlotRun(s, events)
    ensures SlotInv(AfterAll(s, events))
    decreases |events|
  {
    if events != [] {
      EveryEventKeepsInv(s, events[0]);
      RunKeepsInv(Happen(s, events[0]), events[1..]);
    }
  }

  function Arrivals(events: seq<SlotEvent>): seq<TaskId> {
    if events == [] then []
    else (if events[0].Arrive? then [events[0].task] else []) + Arrivals(events[1..])
  }

  function Cancellations(events: seq<SlotEvent>): set<TaskId> {
    if events == [] then {}
    else (if events[0].CancelWaiting? then {events[0].task} else {}) + Cancellations(events[1..])
  }

  lemma {:induction false} WakeAllKeepsHistory(s: SlotState)
    ensures WakeAll(s).arrived == s.arrived && WakeAll(s).cancelled == s.cancelled && WakeAll(s).limit == s.limit
    decreases s.value
  {
    if s.value > 0 && HasUngranted(s.queue) {
      WakeAllKeepsHistory(Wake(s));
    }
  }

  lemma {:induction false} HistoryOfOne(event: SlotEvent)
    ensures Arrivals([event]) == if event.Arrive? then [event.task] else []
    ensures Cancellations([event]) == if event.CancelWaiting? then {event.task} else {}
  {
    assert [event][1..] == [] && Arrivals([]) == [] && Cancellations([]) == {};
  }

  lemma {:induction false} EventKeepsHistory(s: SlotState, event: SlotEvent)
    requires CanHappen(s, event)
    ensures Happen(s, event).limit == s.limit
    ensures Happen(s, event).arrived == s.arrived + Arrivals([event])
    ensures Happen(s, event).cancelled == s.cancelled + Cancellations([event])
  {
    HistoryOfOne(event);
    match event
    case Arrive(_) => assert s.cancelled + {} == s.cancelled;
    case Leave(_) => LeavingKeepsHistory(s, event.task);
    case Resume => ResumingKeepsHistory(s);
    case CancelWaiting(task) => CancellingKeepsHistory(s, task);
  }

  lemma {:induction false} LeavingKeepsHistory(s: SlotState, task: TaskId)
    requires CanHappen(s, Leave(task))
    ensures
      var t := Happen(s, Leave(task));
      t.limit == s.limit && t.arrived == s.arrived + [] && t.cancelled == s.cancelled + {}
  {}

  lemma {:induction false} ResumingKeepsHistory(s: SlotState)
    requires CanHappen(s, Resume)
    ensures
      var t := Happen(s, Resume);
      t.limit == s.limit && t.arrived == s.arrived + [] && t.cancelled == s.cancelled + {}
  {
    WakeAllKeepsHistory(s.(queue := s.queue[1..], waiting := s.waiting - 1));
  }

  lemma {:induction false} CancellingKeepsHistory(s: SlotState, task: TaskId)
    requires CanHappen(s, CancelWaiting(task))
    ensures
      var t := Happen(s, CancelWaiting(task));
      t.limit == s.limit && t.arrived == s.arrived + [] && t.cancelled == s.cancelled + {task}
  {
    WakeAllKeepsHistory(Dropped(s, Position(s.queue, task)));
  }

  lemma {:induction false} HistoryOfFirst(events: seq<SlotEvent>)
    requires events != []
    ensures Arrivals(events) == Arrivals([events[0]]) + Arrivals(events[1..])
    ensures Cancellations(events) == Cancellations([events[0]]) + Cancellations(events[1..])
  {
    var first := [events[0]];
    assert first[1..] == [] && Arrivals(first[1..]) == [] && Cancellations(first[1..]) == {};
  }

  lemma Associate(a: seq<TaskId>, b: seq<TaskId>, c: seq<TaskId>)
    ensures (a + b) + c == a + (b + c)
  {}

  lemma {:induction false} HistoryIsTheRun(s: SlotState, events: seq<SlotEvent>)
    requires IsSlotRun(s, events)
    ensures AfterAll(s, events).arrived == s.arrived + Arrivals(events)
    ensures AfterAll(s, events).cancelled == s.cancelled + Cancellations(events)
    ensures AfterAll(s, events).limit == s.limit
    decreases |events|
  {
    if events != [] {
      EventKeepsHistory(s, events[0]);
      HistoryIsTheRun(Happen(s, events[0]), events[1..]);
      HistoryOfFirst(events);
      Associate(s.arrived, Arrivals([events[0]]), Arrivals(events[1..]));
    }
  }

  /**
   After any run: the cap holds and the counters are exact; the tasks that have
   started are the first of the arrivals not cancelled while waiting, in arrival
   order; every permit is free, held or on its way to a waiter, so none is left
   over once nobody holds or waits; and with nobody inside, the first waiter can
   always go ahead.
   */
  lemma {:induction false} CapIsFairAndLeaksNothing(limit: nat, events: seq<SlotEvent>)
    requires limit >= 1 && IsSlotRun(Fresh(limit), events)
    ensures
      var s := AfterAll(Fresh(limit), events);
      && s.running == |s.holders| <= limit && s.waiting == |s.queue|
      && s.started + Tasks(s.queue) == Surviving(Arrivals(events), Cancellations(events))
      && s.value + |s.holders| + GrantedCount(s.queue) == limit
      && (s.holders == {} && s.queue == [] ==> s.running == 0 && s.waiting == 0 && s.value == limit)
      && (s.holders == {} && s.queue != [] ==> CanHappen(s, Resume))
  {
    var s := AfterAll(Fresh(limit), events);
    assert SlotInv(Fresh(limit)) by {
      assert Tasks([]) == [];
    }
    RunKeepsInv(Fresh(limit), events);
    HistoryIsTheRun(Fresh(limit), events);
    assert [] + Arrivals(events) == Arrivals(events);
    assert {} + Cancellations(events) == Cancellations(events);
    if s.holders == {} && s.queue != [] && !s.queue[0].granted {
      NoneGranted(s.queue);
    }
  }

  // The class

  lemma {:induction false} FirstUngranted(queue: seq<Waiter>, i: nat)
    requires i < |queue| && !queue[i].granted && forall k :: 0 <= k < i ==> queue[k].granted
    ensures HasUngranted(queue) && GrantFirst(queue) == queue[i := queue[i].(granted := true)]
    decreases i
  {
    if i > 0 {
      assert queue[1..][i - 1] == queue[i];
      FirstUngranted(queue[1..], i - 1);
    }
  }

  lemma {:induction false} WakeAllIgnoresWaiting(s: SlotState, waiting: int)
    ensures WakeAll(s.(waiting := waiting)) == WakeAll(s).(waiting := waiting) && WakeAll(s).waiting == s.waiting
    decreases s.value
  {
    if s.value > 0 && HasUngranted(s.queue) {
      assert Wake(s.(waiting := waiting)) == Wake(s).(waiting := waiting);
      WakeAllIgnoresWaiting(Wake(s), waiting);
    }
  }

  class AgentSlots {
    const limit: nat
    var running: int
    var waiting: int
    // The semaphore's free permits and its waiters.
    var value: nat
    var queue: seq<Waiter>
    ghost var holders: set<TaskId>
    ghost var arrived: seq<TaskId>
    ghost var started: seq<TaskId>
    ghost var cancelled: set<TaskId>

    ghost function State(): SlotState
      reads this
    {
      SlotState(limit, running, waiting, value, queue, holders, arrived, started, cancelled)
    }

    constructor (limit: nat)
      requires limit >= 1
      ensures State() == Fresh(limit)
    {
      this.limit := limit;
      running, waiting, value, queue := 0, 0, limit, [];
      holders, arrived, started, cancelled := {}, [], [], {};
    }

    method WakeNext() returns (woken: bool)
      requires value > 0
      modifies this
      ensures State() == Wake(old(State())) && woken == HasUngranted(old(queue))
    {
      var i := 0;
      while i < |queue| && queue[i].granted
        invariant i <= |queue| && forall k :: 0 <= k < i ==> queue[k].granted
      {
        i := i + 1;
      }
      woken := i < |queue|;
      if woken {
        FirstUngranted(queue, i);
        value, queue := value - 1, queue[i := queue[i].(granted := true)];
      }
    }

    method WakeWhileFree()
      modifies this
      ensures State() == WakeAll(old(State()))
    {
      while value > 0
        invariant WakeAll(State()) == WakeAll(old(State()))
        decreases value
      {
        var woken := WakeNext();
        if !woken {
          break;
        }
      }
    }

    /** Enter `hold`: start at once, or queue. */
    method Enter(task: TaskId) returns (entered: bool)
      requires CanHappen(State(), Arrive(task))
      modifies this
      ensures State() == Happen(old(State()), Arrive(task))
      ensures entered == (old(value) > 0 && old(queue) == [])
    {
      arrived := arrived + [task];
      waiting := waiting + 1;
      entered := value > 0 && queue == [];
      if !entered {
        queue := queue + [Waiter(task, false)];
        return;
      }
      value := value - 1;
      waiting := waiting - 1;
      running := running + 1;
      holders, started := holders + {task}, started + [task];
    }

    /** The granted head of the queue is resumed and goes ahead. */
    method ResumeFirst() returns (task: TaskId)
      requires CanHappen(State(), Resume)
      modifies this
      ensures State() == Happen(old(State()), Resume) && task == old(queue[0].task)
    {
      task := queue[0].task;
      queue := queue[1..];
      ghost var dropped := State();
      WakeWhileFree();
      WakeAllIgnoresWaiting(dropped, dropped.waiting - 1);
      waiting := waiting - 1;
      running := running + 1;
      holders, started := holders + {task}, started + [task];
    }

    method FindWaiter(task: TaskId) returns (i: nat)
      requires Waits(State(), task)
      ensures i == Position(queue, task)
    {
      i := 0;
      while queue[i].task != task
        invariant i <= Position(queue, task)
        invariant i + Position(queue[i..], task) == Position(queue, task)
        decreases |queue| - i
      {
        assert queue[i..][1..] == queue[i + 1..];
        i := i + 1;
      }
    }

    /** `task` is cancelled while it waits; a permit already granted to it goes back first. */
    method Cancel(task: TaskId)
      requires CanHappen(State(), CancelWaiting(task))
      modifies this
      ensures State() == Happen(old(State()), CancelWaiting(task))
    {
      var i := FindWaiter(task);
      if queue[i].granted {
        value := value + 1;
      }
      queue := queue[..i] + queue[i + 1..];
      cancelled := cancelled + {task};
      ghost var dropped := State();
      WakeWhileFree();
      WakeAllIgnoresWaiting(dropped, dropped.waiting - 1);
      waiting := waiting - 1;
    }

    /** The body of `hold` ends, however it ends. */
    method Exit(task: TaskId)
      requires CanHappen(State(), Leave(task))
      modifies this
      ensures State() == Happen(old(State()), Leave(task))
    {
      running := running - 1;
      holders := holders - {task};
      value := value + 1;
      var _ := WakeNext();
    }
  }

  /** `AgentSlots(limit)`: a limit below one is refused. */
  method MakeSlots(limit: int) returns (slots: Option<AgentSlots>)
    ensures slots.Some? <==> limit >= 1
    ensures slots.Some? ==> fresh(slots.value) && slots.value.State() == Fresh(limit)
  {
    if limit < 1 {
      return None;
    }
    var made := new AgentSlots(limit);
    slots := Some(made);
  }
}
