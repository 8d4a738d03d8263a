/** Who waits for a slot and who is inside, event by event. */
module SlotMoves {
  import opened Slots

  ghost function Waiters(s: SlotState): set<TaskId> {
    set task | task in Tasks(s.queue)
  }

  /** The event lets its task in: an arrival that needs not wait, or a resumption. */
  predicate LetsIn(s: SlotState, event: SlotEvent) {
    (event.Arrive? && s.value > 0 && s.queue == []) || event.Resume?
  }

  /** The task the event is about. */
  function TaskOf(s: SlotState, event: SlotEvent): TaskId
    requires CanHappen(s, event)
  {
    if event.Resume? then s.queue[0].task else event.task
  }

  function HoldersAfter(s: SlotState, event: SlotEvent): set<TaskId>
    requires CanHappen(s, event)
  {
    if LetsIn(s, event) then s.holders + {TaskOf(s, event)}
    else if event.Leave? then s.holders - {TaskOf(s, event)}
    else s.holders
  }

  ghost function WaitersAfter(s: SlotState, event: SlotEvent): set<TaskId>
    requires CanHappen(s, event)
  {
    if event.Arrive? && !LetsIn(s, event) then Waiters(s) + {TaskOf(s, event)}
    else if event.Arrive? || event.Leave? then Waiters(s)
    else Waiters(s) - {TaskOf(s, event)}
  }

  lemma {:induction false} GrantFirstTasks(queue: seq<Waiter>)
    requires HasUngranted(queue)
    ensures Tasks(GrantFirst(queue)) == Tasks(queue)
    decreases |queue|
  {
    var granted := GrantFirst(queue);
    if queue[0].granted {
      assert HasUngranted(queue[1..]) by {
        var i :| 0 <= i < |queue| && !queue[i].granted;
        assert queue[1..][i - 1] == queue[i];
      }
      GrantFirstTasks(queue[1..]);
      forall i | 0 <= i < |queue|
        ensures granted[i].task == queue[i].task
      {
        if i > 0 {
          assert Tasks(granted[1..])[i - 1] == Tasks(queue[1..])[i - 1];
        }
      }
    }
  }

  lemma {:induction false} WakeAllKeepsTasks(s: SlotState)
    ensures Tasks(WakeAll(s).queue) == Tasks(s.queue)
    ensures WakeAll(s).holders == s.holders && WakeAll(s).started == s.started
    decreases s.value
  {
    if s.value > 0 && HasUngranted(s.queue) {
      GrantFirstTasks(s.queue);
      WakeAllKeepsTasks(Wake(s));
    }
  }

  lemma {:induction false} ApartInConcat(a: seq<TaskId>, b: seq<TaskId>)
    requires NoDuplicates(a + b)
    ensures NoDuplicates(b) && forall i, j :: 0 <= i < |a| && 0 <= j < |b| ==> a[i] != b[j]
  {
    var all := a + b;
    assert forall i :: 0 <= i < |a| ==> all[i] == a[i];
    assert forall j :: 0 <= j < |b| ==> all[|a| + j] == b[j];
  }

  lemma {:induction false} TasksAreDistinct(s: SlotState)
    requires SlotInv(s)
    ensures NoDuplicates(Tasks(s.queue)) && Waiters(s) !! s.holders
    ensures forall task :: task in s.holders || task in Waiters(s) ==> task in s.arrived
  {
    SurvivingMembers(s.arrived, s.cancelled);
    ApartInConcat(s.started, Tasks(s.queue));
    var all := s.started + Tasks(s.queue);
    assert forall task :: task in all <==> task in s.started || task in Tasks(s.queue);
  }

  lemma {:induction false} TasksWithout(queue: seq<Waiter>, i: nat)
    requires i < |queue| && NoDuplicates(Tasks(queue))
    ensures forall task :: task in Tasks(queue[..i] + queue[i + 1..]) <==> task in Tasks(queue) && task != queue[i].task
  {
    var rest := queue[..i] + queue[i + 1..];
    forall task
      ensures task in Tasks(rest) <==> task in Tasks(queue) && task != queue[i].task
    {
      if task in Tasks(rest) {
        var k :| 0 <= k < |rest| && Tasks(rest)[k] == task;
        var j := if k < i then k else k + 1;
        assert Tasks(queue)[j] == task && Tasks(queue)[i] == queue[i].task;
      }
      if task in Tasks(queue) && task != queue[i].task {
        var j :| 0 <= j < |queue| && Tasks(queue)[j] == task;
        assert Tasks(rest)[if j < i then j else j - 1] == task;
      }
    }
  }

  /** An event that lets its task in adds it to the starts; a departure or cancellation only takes it away. */
  lemma {:induction false} EventMovesItsTask(s: SlotState, event: SlotEvent)
    requires SlotInv(s) && CanHappen(s, event)
    ensures Happen(s, event).started == s.started + if LetsIn(s, event) then [TaskOf(s, event)] else []
    ensures Happen(s, event).holders == HoldersAfter(s, event)
    ensures Waiters(Happen(s, event)) == WaitersAfter(s, event)
  {
    TasksAreDistinct(s);
    match event
    case Arrive(task) => ArriveMoves(s, task);
    case Resume => ResumeMoves(s);
    case CancelWaiting(task) =>
      var i := Position(s.queue, task);
      WakeAllKeepsTasks(Dropped(s, i));
      QueueWithout(s, Happen(s, event), i);
    case Leave(task) =>
      var left := s.(running := s.running - 1, holders := s.holders - {task}, value := s.value + 1);
      if HasUngranted(left.queue) {
        GrantFirstTasks(left.queue);
      }
  }

  lemma {:induction false} ArriveMoves(s: SlotState, task: TaskId)
    requires CanHappen(s, Arrive(task))
    ensures
      var t := Happen(s, Arrive(task));
      if LetsIn(s, Arrive(task))
      then t.started == s.started + [task] && t.holders == s.holders + {task} && Waiters(t) == Waiters(s)
      else t.started == s.started && t.holders == s.holders && Waiters(t) == Waiters(s) + {task}
  {
    if s.value == 0 || s.queue != [] {
      assert Tasks(s.queue + [Waiter(task, false)]) == Tasks(s.queue) + [task];
    }
  }

  lemma {:induction false} ResumeMoves(s: SlotState)
    requires CanHappen(s, Resume) && NoDuplicates(Tasks(s.queue))
    ensures
      var t, head := Happen(s, Resume), s.queue[0].task;
      t.started == s.started + [head] && t.holders == s.holders + {head} && Waiters(t) == Waiters(s) - {head}
  {
    var rest := s.(queue := s.queue[1..], waiting := s.waiting - 1);
    WakeAllKeepsTasks(rest);
    QueueWithout(s, Happen(s, Resume), 0);
  }

  /** A queue that has lost its `i`-th waiter, however it was woken since. */
  lemma {:induction false} QueueWithout(s: SlotState, t: SlotState, i: nat)
    requires i < |s.queue| && NoDuplicates(Tasks(s.queue))
    requires Tasks(t.queue) == Tasks(s.queue[..i] + s.queue[i + 1..])
    ensures Waiters(t) == Waiters(s) - {s.queue[i].task}
  {
    TasksWithout(s.queue, i);
    forall task
      ensures task in Waiters(t) <==> task in Waiters(s) && task != s.queue[i].task
    {
      assert task in Waiters(t) <==> task in Tasks(s.queue[..i] + s.queue[i + 1..]);
    }
  }
}
