/**
 The service with its slot semaphore. A job's first step takes it to the
 semaphore; it goes on into its slot at once or when it is resumed, and its
 permit comes back when it leaves. The cap that `System` asks of a grant is not
 asked here: it follows from the semaphore, and so does the order.
 */
module Scheduling {
  import opened Prelude
  import opened Models
  import opened Lifecycle
  import opened LifecycleInvariant
  import opened System
  import opened SystemInvariant
  import Runs = Witnesses
  import Slots
  import SlotMoves

  type Ticket = Slots.TaskId

  // `events`: what the semaphore has seen since the process started, which made
  // it `slots`. `tickets`: the arrival each job's task waits or runs on.
  // `letIn`: the tickets of the jobs let into a slot, in order.
  datatype Sched = Sched(
    sys: Sys, slots: Slots.SlotState, events: seq<Slots.SlotEvent>, tickets: map<Id, Ticket>, next: Ticket,
    letIn: seq<Ticket>)

  datatype Happening =
    | Enter(id: Id, workspaceExists: bool)      // the task's first step, and the checks in the slot if it gets one
    | Resumed(id: Id, workspaceExists: bool)    // the granted head of the queue goes on: the checks in the slot
    | Other(event: Event)                       // anything else; what becomes of the job's permit follows from it

  // `after`: when the checks in the slot of an `Enter` are made.
  datatype Moment = Moment(what: Happening, now: Time, after: Time)

  predicate Waits(cell: Cell) {
    cell.tasks != [] && cell.tasks[0].pc.Waiting?
  }

  predicate Inside(cell: Cell) {
    cell.tasks != [] && Holding(cell.tasks[0])
  }

  // Steps

  const BEGIN: CellEvent := OnTask(0, Begin)

  /** The in-slot spend check as it comes out at `now`. */
  ghost function GrantNow(cfg: Config, s: Sys, id: Id, workspaceExists: bool, now: Time): CellEvent
    requires id in s.cells && s.cells[id].tasks != []
  {
    OnTask(0, Grant(OverBudget(cfg, s.cells, s.cells[id].tasks[0].local.owner, now), workspaceExists))
  }

  function Stepped(s: Sys, id: Id, event: CellEvent, now: Time): Sys
    requires id in s.cells && Enabled(s.cells[id], event)
  {
    s.(cells := s.cells[id := Step(s.cells[id], event, now)], clock := now)
  }

  /** The semaphore takes the event. That it can is proved, not asked. */
  function Do(c: Sched, event: Slots.SlotEvent): Sched {
    c.(slots := if Slots.CanHappen(c.slots, event) then Slots.Happen(c.slots, event) else c.slots,
       events := c.events + [event])
  }

  /** The job has its permit and makes its checks; if they refuse it, it leaves. */
  ghost function LetIn(cfg: Config, c: Sched, id: Id, workspaceExists: bool, now: Time): Sched
    requires id in c.sys.cells && Waits(c.sys.cells[id]) && id in c.tickets
  {
    var s, ticket := Stepped(c.sys, id, GrantNow(cfg, c.sys, id, workspaceExists, now), now), c.tickets[id];
    var entered := c.(sys := s, letIn := c.letIn + [ticket]);
    if Inside(s.cells[id]) then entered
    else Do(entered, Slots.Leave(ticket)).(tickets := c.tickets - {id})
  }

  /** The job's first step takes it to the semaphore. */
  function Arrived(c: Sched, id: Id, now: Time): Sched
    requires id in c.sys.cells && Enabled(c.sys.cells[id], BEGIN)
  {
    Do(c, Slots.Arrive(c.next)).(
      sys := Stepped(c.sys, id, BEGIN, now), tickets := c.tickets[id := c.next], next := c.next + 1)
  }

  /** No event but these two takes a task to the semaphore or into a slot. */
  predicate NeedsPermit(event: Event) {
    event.OnCell? && event.event.OnTask? && (event.event.event.Begin? || event.event.event.Grant?)
  }

  ghost predicate CanGo(cfg: Config, c: Sched, m: Moment) {
    && c.sys.clock < m.now
    && match m.what
       case Enter(id, _) =>
         && m.now < m.after && c.sys.phase.Up?
         && id in c.sys.cells && c.sys.cells[id].tasks != [] && c.sys.cells[id].tasks[0].pc.Entering?
       case Resumed(id, _) =>
         && c.sys.phase.Up? && id in c.sys.cells && Waits(c.sys.cells[id]) && id in c.tickets
         && c.slots.queue != [] && c.slots.queue[0] == Slots.Waiter(c.tickets[id], true)
       case Other(event) => Possible(cfg, c.sys, event, m.now) && !NeedsPermit(event)
  }

  /** The event takes the job out of the queue or out of its slot. */
  ghost predicate Drops(cfg: Config, c: Sched, event: Event, now: Time)
    requires Possible(cfg, c.sys, event, now)
  {
    event.OnCell? && event.id in c.tickets && (
      var cell := Next(cfg, c.sys, event, now).cells[event.id];
      !Waits(cell) && !Inside(cell))
  }

  ghost function After(cfg: Config, c: Sched, m: Moment): Sched
    requires CanGo(cfg, c, m)
  {
    match m.what
    case Enter(id, workspaceExists) =>
      var arrived := Arrived(c, id, m.now);
      if c.next in arrived.slots.holders then LetIn(cfg, arrived, id, workspaceExists, m.after) else arrived
    case Resumed(id, workspaceExists) => LetIn(cfg, Do(c, Slots.Resume), id, workspaceExists, m.now)
    case Other(event) =>
      var s := Next(cfg, c.sys, event, m.now);
      if event.Kill? then Sched(s, Slots.Fresh(cfg.slots), [], map[], c.next, [])
      else if Drops(cfg, c, event, m.now) then
        var ticket := c.tickets[event.id];
        Do(c, if Waits(c.sys.cells[event.id]) then Slots.CancelWaiting(ticket) else Slots.Leave(ticket)).(
          sys := s, tickets := c.tickets - {event.id})
      else c.(sys := s)
  }

  /** The events of `System` that the moment stands for. */
  ghost function EventsOf(cfg: Config, c: Sched, m: Moment): seq<Timed>
    requires CanGo(cfg, c, m)
  {
    match m.what
    case Enter(id, workspaceExists) =>
      var arrived := Arrived(c, id, m.now);
      [Timed(OnCell(id, BEGIN), m.now)]
      + if c.next in arrived.slots.holders
        then [Timed(OnCell(id, GrantNow(cfg, arrived.sys, id, workspaceExists, m.after)), m.after)] else []
    case Resumed(id, workspaceExists) =>
      [Timed(OnCell(id, GrantNow(cfg, c.sys, id, workspaceExists, m.now)), m.now)]
    case Other(event) => [Timed(event, m.now)]
  }

  // Runs

  ghost predicate IsScheduled(cfg: Config, moments: seq<Moment>)
    decreases |moments|, 0
  {
    moments == [] || (
      var before, last := moments[..|moments| - 1], moments[|moments| - 1];
      IsScheduled(cfg, before) && CanGo(cfg, SchedAfter(cfg, before), last))
  }

  ghost function SchedAfter(cfg: Config, moments: seq<Moment>): Sched
    requires IsScheduled(cfg, moments)
    decreases |moments|, 1
  {
    if moments == [] then Sched(START, Slots.Fresh(cfg.slots), [], map[], 0, [])
    else
      var before, last := moments[..|moments| - 1], moments[|moments| - 1];
      After(cfg, SchedAfter(cfg, before), last)
  }

  ghost function SystemEvents(cfg: Config, moments: seq<Moment>): seq<Timed>
    requires IsScheduled(cfg, moments)
    decreases |moments|
  {
    if moments == [] then []
    else
      var before, last := moments[..|moments| - 1], moments[|moments| - 1];
      SystemEvents(cfg, before) + EventsOf(cfg, SchedAfter(cfg, before), last)
  }

  // Tickets match the tasks

  /** Exactly the jobs that wait or are inside have a ticket, each its own. */
  ghost predicate Ticketed(cells: map<Id, Cell>, tickets: map<Id, Ticket>) {
    && (forall id :: id in tickets <==> id in cells && (Waits(cells[id]) || Inside(cells[id])))
    && (forall a, b :: a in tickets && b in tickets && tickets[a] == tickets[b] ==> a == b)
  }

  /** The semaphore has the tickets of the jobs inside and of those waiting where they are. */
  predicate Placed(cells: map<Id, Cell>, tickets: map<Id, Ticket>, inside: set<Ticket>, queued: set<Ticket>) {
    forall id :: id in tickets ==>
      && id in cells
      && (Inside(cells[id]) <==> tickets[id] in inside) && (Waits(cells[id]) <==> tickets[id] in queued)
  }

  /** And it has no others. */
  predicate AllHeld(tickets: map<Id, Ticket>, inside: set<Ticket>, queued: set<Ticket>) {
    && (forall ticket :: ticket in inside ==> IsHeld(tickets, ticket))
    && (forall ticket :: ticket in queued ==> IsHeld(tickets, ticket))
  }

  ghost predicate Matching(cells: map<Id, Cell>, tickets: map<Id, Ticket>, inside: set<Ticket>, queued: set<Ticket>) {
    Ticketed(cells, tickets) && Placed(cells, tickets, inside, queued) && AllHeld(tickets, inside, queued)
  }

  predicate IsHeld(tickets: map<Id, Ticket>, ticket: Ticket) {
    exists id :: id in tickets && tickets[id] == ticket
  }

  /** The job's ticket, or one that nobody has. */
  predicate IsTicketFor(tickets: map<Id, Ticket>, id: Id, ticket: Ticket) {
    if id in tickets then tickets[id] == ticket else !IsHeld(tickets, ticket)
  }

  function Without(tickets: set<Ticket>, ticket: Ticket, unless: bool): set<Ticket> {
    if unless then tickets + {ticket} else tickets - {ticket}
  }

  function TicketsAfter(tickets: map<Id, Ticket>, id: Id, cell: Cell, ticket: Ticket): map<Id, Ticket> {
    if Waits(cell) || Inside(cell) then tickets[id := ticket] else tickets - {id}
  }

  lemma {:induction false} MoveKeepsHeld(
    tickets: map<Id, Ticket>, id: Id, cell: Cell, ticket: Ticket, held: set<Ticket>, holds: bool)
    requires IsTicketFor(tickets, id, ticket) && forall other :: other in held ==> IsHeld(tickets, other)
    requires holds ==> Waits(cell) || Inside(cell)
    ensures forall other :: other in Without(held, ticket, holds) ==> IsHeld(TicketsAfter(tickets, id, cell, ticket), other)
  {
    var t := TicketsAfter(tickets, id, cell, ticket);
    forall other | other in Without(held, ticket, holds)
      ensures IsHeld(t, other)
    {
      if other == ticket {
        assert id in t && t[id] == ticket;
      } else {
        assert IsHeld(tickets, other);
        var k :| k in tickets && tickets[k] == other;
        assert k != id && k in t && t[k] == other;
      }
    }
  }

  lemma {:induction false} MoveKeepsTicketed(
    cells: map<Id, Cell>, tickets: map<Id, Ticket>, id: Id, cell: Cell, ticket: Ticket)
    requires Ticketed(cells, tickets) && IsTicketFor(tickets, id, ticket)
    ensures Ticketed(cells[id := cell], TicketsAfter(tickets, id, cell, ticket))
  {
    forall other | other in tickets && other != id
      ensures tickets[other] != ticket
    {
      if tickets[other] == ticket {
        assert IsHeld(tickets, ticket);
      }
    }
  }

  lemma {:induction false} MoveKeepsPlaced(
    cells: map<Id, Cell>, tickets: map<Id, Ticket>, inside: set<Ticket>, queued: set<Ticket>,
    id: Id, cell: Cell, ticket: Ticket)
    requires Ticketed(cells, tickets) && Placed(cells, tickets, inside, queued) && IsTicketFor(tickets, id, ticket)
    ensures Placed(cells[id := cell], TicketsAfter(tickets, id, cell, ticket),
                   Without(inside, ticket, Inside(cell)), Without(queued, ticket, Waits(cell)))
  {
    forall other | other in tickets && other != id
      ensures tickets[other] != ticket
    {
      if tickets[other] == ticket {
        assert IsHeld(tickets, ticket);
      }
    }
  }

  /** However one job moves, the rest still matches. */
  lemma {:induction false} Rematch(
    cells: map<Id, Cell>, tickets: map<Id, Ticket>, inside: set<Ticket>, queued: set<Ticket>,
    id: Id, cell: Cell, ticket: Ticket)
    requires Matching(cells, tickets, inside, queued) && IsTicketFor(tickets, id, ticket)
    ensures Matching(cells[id := cell], TicketsAfter(tickets, id, cell, ticket),
                     Without(inside, ticket, Inside(cell)), Without(queued, ticket, Waits(cell)))
  {
    MoveKeepsTicketed(cells, tickets, id, cell, ticket);
    MoveKeepsPlaced(cells, tickets, inside, queued, id, cell, ticket);
    MoveKeepsHeld(tickets, id, cell, ticket, inside, Inside(cell));
    MoveKeepsHeld(tickets, id, cell, ticket, queued, Waits(cell));
  }

  /** Jobs that stay as they were keep the match. */
  lemma {:induction false} StillMatches(
    cells: map<Id, Cell>, after: map<Id, Cell>, tickets: map<Id, Ticket>, inside: set<Ticket>, queued: set<Ticket>)
    requires Matching(cells, tickets, inside, queued) && forall id :: id in cells ==> id in after
    requires forall id :: id in after ==>
      && (Waits(after[id]) <==> id in cells && Waits(cells[id]))
      && (Inside(after[id]) <==> id in cells && Inside(cells[id]))
    ensures Matching(after, tickets, inside, queued)
  {}

  // The semaphore's side

  ghost predicate IsTraced(cfg: Config, slots: Slots.SlotState, events: seq<Slots.SlotEvent>) {
    Slots.IsSlotRun(Slots.Fresh(cfg.slots), events) && slots == Slots.AfterAll(Slots.Fresh(cfg.slots), events)
  }

  lemma {:induction false} SlotRunMore(s: Slots.SlotState, events: seq<Slots.SlotEvent>, event: Slots.SlotEvent)
    requires Slots.IsSlotRun(s, events) && Slots.CanHappen(Slots.AfterAll(s, events), event)
    ensures Slots.IsSlotRun(s, events + [event])
    ensures Slots.AfterAll(s, events + [event]) == Slots.Happen(Slots.AfterAll(s, events), event)
    decreases |events|
  {
    if events == [] {
      assert events + [event] == [event] && [event][1..] == [];
      assert Slots.IsSlotRun(Slots.Happen(s, event), []);
    } else {
      assert (events + [event])[0] == events[0] && (events + [event])[1..] == events[1..] + [event];
      SlotRunMore(Slots.Happen(s, events[0]), events[1..], event);
    }
  }

  lemma {:induction false} TraceKeepsSlotInv(cfg: Config, slots: Slots.SlotState, events: seq<Slots.SlotEvent>)
    requires cfg.slots >= 1 && IsTraced(cfg, slots, events)
    ensures Slots.SlotInv(slots) && slots.limit == cfg.slots
  {
    assert Slots.SlotInv(Slots.Fresh(cfg.slots)) by {
      assert Slots.Tasks([]) == [];
    }
    Slots.RunKeepsInv(Slots.Fresh(cfg.slots), events);
    Slots.HistoryIsTheRun(Slots.Fresh(cfg.slots), events);
  }

  /** What the semaphore's taking an event changes. */
  lemma {:induction false} DoMoves(cfg: Config, c: Sched, event: Slots.SlotEvent)
    requires cfg.slots >= 1 && IsTraced(cfg, c.slots, c.events) && Slots.CanHappen(c.slots, event)
    ensures
      var d, ticket := Do(c, event), SlotMoves.TaskOf(c.slots, event);
      && IsTraced(cfg, d.slots, d.events)
      && d.slots.holders == SlotMoves.HoldersAfter(c.slots, event)
      && SlotMoves.Waiters(d.slots) == SlotMoves.WaitersAfter(c.slots, event)
      && d.slots.started == c.slots.started + (if SlotMoves.LetsIn(c.slots, event) then [ticket] else [])
      && d.slots.arrived == c.slots.arrived + (if event.Arrive? then [ticket] else [])
  {
    TraceKeepsSlotInv(cfg, c.slots, c.events);
    SlotRunMore(Slots.Fresh(cfg.slots), c.events, event);
    SlotMoves.EventMovesItsTask(c.slots, event);
    Slots.EventKeepsHistory(c.slots, event);
    Slots.HistoryOfOne(event);
  }

  ghost predicate Numbered(c: Sched) {
    (forall ticket :: ticket in c.slots.arrived ==> ticket < c.next) && c.letIn == c.slots.started
  }

  /** The tickets are those of the tasks, and the jobs were let in as the semaphore started them. */
  ghost predicate Agrees(cfg: Config, c: Sched) {
    && IsTraced(cfg, c.slots, c.events) && Numbered(c)
    && Matching(c.sys.cells, c.tickets, c.slots.holders, SlotMoves.Waiters(c.slots))
  }

  // Tasks at the semaphore

  lemma {:induction false} BeginWaits(cell: Cell, now: Time)
    requires |cell.tasks| == 1 && cell.tasks[0].pc.Entering?
    ensures Enabled(cell, BEGIN) && Waits(Step(cell, BEGIN, now)) && !Inside(Step(cell, BEGIN, now))
    ensures |Step(cell, BEGIN, now).tasks| == 1
  {}

  lemma {:induction false} GrantLeavesQueue(cell: Cell, event: CellEvent, now: Time)
    requires |cell.tasks| == 1 && Enabled(cell, event) && event.OnTask? && event.event.Grant?
    ensures !Waits(Step(cell, event, now))
  {}

  lemma {:induction false} TaskNeedsNoPermit(turn: Turn, event: TaskEvent, now: Time)
    requires turn.task.Some? && TaskEnabled(turn.task.value, event) && !event.Begin? && !event.Grant?
    ensures
      var after := TaskStep(turn, event, now).task;
      && (after.Some? ==> !after.value.pc.Waiting?)
      && (after.Some? && Holding(after.value) ==> Holding(turn.task.value))
  {}

  /** Only the first step takes a task to the semaphore, and only a grant inside. */
  lemma {:induction false} OthersNeedNoPermit(cell: Cell, event: CellEvent, clock: Time, now: Time)
    requires Inv(cell, clock) && Enabled(cell, event)
    requires event.OnTask? ==> !event.event.Begin? && !event.event.Grant?
    ensures Waits(Step(cell, event, now)) ==> Waits(cell)
    ensures Inside(Step(cell, event, now)) ==> Inside(cell)
  {
    if event.OnTask? {
      TaskNeedsNoPermit(View(cell), event.event, now);
      OnTaskView(cell, event, now);
    }
  }

  lemma {:induction false} NextNeedsNoPermit(cfg: Config, s: Sys, event: Event, now: Time, id: Id)
    requires CellsOk(s) && Possible(cfg, s, event, now) && !NeedsPermit(event) && !event.Kill?
    requires id in Next(cfg, s, event, now).cells
    ensures
      var cell := Next(cfg, s, event, now).cells[id];
      && (Waits(cell) ==> id in s.cells && Waits(s.cells[id])) && (Inside(cell) ==> id in s.cells && Inside(s.cells[id]))
      && (id in s.cells && !(event.OnCell? && event.id == id) ==>
            (Waits(s.cells[id]) ==> Waits(cell)) && (Inside(s.cells[id]) ==> Inside(cell)))
  {
    NextCell(cfg, s, event, now, id);
    var touch := Touches(cfg, s, event, id);
    if touch.Some? {
      OthersNeedNoPermit(s.cells[id], touch.value, s.clock, now);
    }
  }

  // The cap

  lemma {:induction false} TicketsFit(ids: set<Id>, tickets: map<Id, Ticket>, inside: set<Ticket>)
    requires forall id :: id in ids ==> id in tickets && tickets[id] in inside
    requires forall a, b :: a in tickets && b in tickets && tickets[a] == tickets[b] ==> a == b
    ensures |ids| <= |inside|
    decreases |ids|
  {
    if ids != {} {
      var id :| id in ids;
      TicketsFit(ids - {id}, tickets, inside - {tickets[id]});
      assert inside == (inside - {tickets[id]}) + {tickets[id]};
    }
  }

  lemma {:induction false} HolderIsInside(cell: Cell, clock: Time)
    requires Inv(cell, clock)
    ensures HoldsSlot(cell) <==> Inside(cell)
  {}

  /** No more jobs hold slots than the semaphore has given permits for. */
  lemma {:induction false} HoldersFit(
    s: Sys, tickets: map<Id, Ticket>, inside: set<Ticket>, queued: set<Ticket>)
    requires CellsOk(s) && Matching(s.cells, tickets, inside, queued)
    ensures |Holders(s.cells)| <= |inside|
  {
    forall id | id in Holders(s.cells)
      ensures id in tickets && tickets[id] in inside
    {
      HolderIsInside(s.cells[id], s.clock);
    }
    TicketsFit(Holders(s.cells), tickets, inside);
  }

  /** While the semaphore can let a task in, there is room. */
  lemma {:induction false} LettingInNeedsRoom(slots: Slots.SlotState, event: Slots.SlotEvent)
    requires Slots.SlotInv(slots) && Slots.CanHappen(slots, event) && SlotMoves.LetsIn(slots, event)
    ensures |slots.holders| < slots.limit
  {}

  // Every moment keeps the agreement

  lemma {:induction false} TicketsAreOld(cfg: Config, c: Sched)
    requires cfg.slots >= 1 && Agrees(cfg, c)
    ensures forall ticket :: ticket in c.slots.holders || ticket in SlotMoves.Waiters(c.slots) ==> ticket < c.next
    ensures forall id :: id in c.tickets ==> c.tickets[id] < c.next
  {
    TraceKeepsSlotInv(cfg, c.slots, c.events);
    SlotMoves.TasksAreDistinct(c.slots);
  }

  lemma {:induction false} NewTicketIsFree(cfg: Config, c: Sched, id: Id)
    requires cfg.slots >= 1 && Agrees(cfg, c) && id !in c.tickets
    ensures IsTicketFor(c.tickets, id, c.next) && Slots.CanHappen(c.slots, Slots.Arrive(c.next))
    ensures c.next !in c.slots.holders && c.next !in SlotMoves.Waiters(c.slots)
  {
    TicketsAreOld(cfg, c);
  }

  /** The job has been started by the semaphore, and not been counted yet. */
  ghost predicate IsStarted(cfg: Config, c: Sched, id: Id) {
    && IsTraced(cfg, c.slots, c.events) && id in c.sys.cells && id in c.tickets
    && |c.sys.cells[id].tasks| == 1 && Waits(c.sys.cells[id]) && c.tickets[id] in c.slots.holders
    && c.letIn + [c.tickets[id]] == c.slots.started
    && forall ticket :: ticket in c.slots.arrived ==> ticket < c.next
  }

  lemma {:induction false} LetInMoves(cfg: Config, c: Sched, id: Id, workspaceExists: bool, now: Time)
    requires cfg.slots >= 1 && IsStarted(cfg, c, id)
    ensures
      var d, ticket := LetIn(cfg, c, id, workspaceExists, now), c.tickets[id];
      && d.sys == Stepped(c.sys, id, GrantNow(cfg, c.sys, id, workspaceExists, now), now)
      && IsTraced(cfg, d.slots, d.events) && Numbered(d)
      && d.slots.holders == Without(c.slots.holders, ticket, Inside(d.sys.cells[id]))
      && SlotMoves.Waiters(d.slots) == SlotMoves.Waiters(c.slots)
      && !Waits(d.sys.cells[id]) && d.tickets == TicketsAfter(c.tickets, id, d.sys.cells[id], ticket)
  {
    var event := GrantNow(cfg, c.sys, id, workspaceExists, now);
    GrantLeavesQueue(c.sys.cells[id], event, now);
    var s, ticket := Stepped(c.sys, id, event, now), c.tickets[id];
    if Inside(s.cells[id]) {
      assert c.tickets[id := ticket] == c.tickets;
      assert c.slots.holders + {ticket} == c.slots.holders;
    } else {
      DoMoves(cfg, c.(sys := s, letIn := c.letIn + [ticket]), Slots.Leave(ticket));
    }
  }

  /** What a moment leaves, if it moves one job with this ticket. */
  lemma {:induction false} MovedAgrees(cfg: Config, c: Sched, d: Sched, id: Id, ticket: Ticket)
    requires Agrees(cfg, c) && IsTicketFor(c.tickets, id, ticket)
    requires IsTraced(cfg, d.slots, d.events) && Numbered(d) && id in d.sys.cells
    requires d.sys.cells == c.sys.cells[id := d.sys.cells[id]]
    requires d.tickets == TicketsAfter(c.tickets, id, d.sys.cells[id], ticket)
    requires d.slots.holders == Without(c.slots.holders, ticket, Inside(d.sys.cells[id]))
    requires SlotMoves.Waiters(d.slots) == Without(SlotMoves.Waiters(c.slots), ticket, Waits(d.sys.cells[id]))
    ensures Agrees(cfg, d)
  {
    Rematch(c.sys.cells, c.tickets, c.slots.holders, SlotMoves.Waiters(c.slots), id, d.sys.cells[id], ticket);
  }

  lemma {:induction false} ArrivedMoves(cfg: Config, c: Sched, id: Id, now: Time)
    requires cfg.slots >= 1 && Agrees(cfg, c) && id in c.sys.cells && id !in c.tickets
    requires |c.sys.cells[id].tasks| == 1 && c.sys.cells[id].tasks[0].pc.Entering?
    ensures Enabled(c.sys.cells[id], BEGIN)
    ensures
      var d, starts := Arrived(c, id, now), SlotMoves.LetsIn(c.slots, Slots.Arrive(c.next));
      && (c.next in d.slots.holders <==> starts)
      && (if starts then IsStarted(cfg, d, id) else IsTraced(cfg, d.slots, d.events) && Numbered(d))
      && d.slots.holders == (if starts then c.slots.holders + {c.next} else c.slots.holders)
      && SlotMoves.Waiters(d.slots) ==
           if starts then SlotMoves.Waiters(c.slots) else SlotMoves.Waiters(c.slots) + {c.next}
  {
    BeginWaits(c.sys.cells[id], now);
    NewTicketIsFree(cfg, c, id);
    DoMoves(cfg, c, Slots.Arrive(c.next));
  }

  lemma {:induction false} EnteringHasNoTicket(c: Sched, id: Id)
    requires CellsOk(c.sys) && id in c.sys.cells && Ticketed(c.sys.cells, c.tickets)
    requires c.sys.cells[id].tasks != [] && c.sys.cells[id].tasks[0].pc.Entering?
    ensures id !in c.tickets && |c.sys.cells[id].tasks| == 1
  {
    assert Inv(c.sys.cells[id], c.sys.clock);
  }

  /** The task finds the semaphore taken, and queues. */
  lemma {:induction false} QueueingKeepsAgreement(cfg: Config, c: Sched, id: Id, now: Time)
    requires cfg.slots >= 1 && Agrees(cfg, c) && id in c.sys.cells && id !in c.tickets
    requires |c.sys.cells[id].tasks| == 1 && c.sys.cells[id].tasks[0].pc.Entering?
    requires !SlotMoves.LetsIn(c.slots, Slots.Arrive(c.next))
    ensures Enabled(c.sys.cells[id], BEGIN) && Agrees(cfg, Arrived(c, id, now))
  {
    var d := Arrived(c, id, now);
    NewTicketIsFree(cfg, c, id);
    ArrivedMoves(cfg, c, id, now);
    BeginWaits(c.sys.cells[id], now);
    assert c.slots.holders == Without(c.slots.holders, c.next, false);
    MovedAgrees(cfg, c, d, id, c.next);
  }

  lemma {:induction false} WithoutTwice(inside: set<Ticket>, queued: set<Ticket>, ticket: Ticket, unless: bool)
    requires ticket !in queued
    ensures Without(inside + {ticket}, ticket, unless) == Without(inside, ticket, unless)
    ensures queued == Without(queued, ticket, false)
  {}

  lemma {:induction false} AfterBoth(
    cells: map<Id, Cell>, tickets: map<Id, Ticket>, id: Id, first: Cell, second: Cell, ticket: Ticket)
    ensures cells[id := first][id := second] == cells[id := second]
    ensures TicketsAfter(tickets[id := ticket], id, second, ticket) == TicketsAfter(tickets, id, second, ticket)
  {}

  /** The task is let in at once. */
  lemma {:induction false} StartingKeepsAgreement(
    cfg: Config, c: Sched, id: Id, workspaceExists: bool, now: Time, after: Time)
    requires cfg.slots >= 1 && Agrees(cfg, c) && id in c.sys.cells && id !in c.tickets
    requires |c.sys.cells[id].tasks| == 1 && c.sys.cells[id].tasks[0].pc.Entering?
    requires SlotMoves.LetsIn(c.slots, Slots.Arrive(c.next))
    ensures Enabled(c.sys.cells[id], BEGIN) && IsStarted(cfg, Arrived(c, id, now), id)
    ensures Agrees(cfg, LetIn(cfg, Arrived(c, id, now), id, workspaceExists, after))
  {
    NewTicketIsFree(cfg, c, id);
    ArrivedMoves(cfg, c, id, now);
    LetInMoves(cfg, Arrived(c, id, now), id, workspaceExists, after);
    var d := LetIn(cfg, Arrived(c, id, now), id, workspaceExists, after);
    WithoutTwice(c.slots.holders, SlotMoves.Waiters(c.slots), c.next, Inside(d.sys.cells[id]));
    AfterBoth(c.sys.cells, c.tickets, id, Step(c.sys.cells[id], BEGIN, now), d.sys.cells[id], c.next);
    MovedAgrees(cfg, c, d, id, c.next);
  }

  lemma {:induction false} EnterKeepsAgreement(cfg: Config, c: Sched, m: Moment)
    requires cfg.slots >= 1 && Agrees(cfg, c) && CellsOk(c.sys) && CanGo(cfg, c, m) && m.what.Enter?
    ensures Agrees(cfg, After(cfg, c, m))
  {
    var id := m.what.id;
    EnteringHasNoTicket(c, id);
    ArrivedMoves(cfg, c, id, m.now);
    if SlotMoves.LetsIn(c.slots, Slots.Arrive(c.next)) {
      StartingKeepsAgreement(cfg, c, id, m.what.workspaceExists, m.now, m.after);
    } else {
      QueueingKeepsAgreement(cfg, c, id, m.now);
    }
  }

  lemma {:induction false} ResumedMoves(cfg: Config, c: Sched, id: Id)
    requires cfg.slots >= 1 && Agrees(cfg, c) && id in c.tickets && id in c.sys.cells
    requires |c.sys.cells[id].tasks| == 1 && Waits(c.sys.cells[id])
    requires c.slots.queue != [] && c.slots.queue[0] == Slots.Waiter(c.tickets[id], true)
    ensures
      var d, ticket := Do(c, Slots.Resume), c.tickets[id];
      && Slots.CanHappen(c.slots, Slots.Resume) && IsStarted(cfg, d, id)
      && d.slots.holders == c.slots.holders + {ticket}
      && SlotMoves.Waiters(d.slots) == SlotMoves.Waiters(c.slots) - {ticket}
  {
    DoMoves(cfg, c, Slots.Resume);
  }

  lemma {:induction false} ResumedKeepsAgreement(cfg: Config, c: Sched, m: Moment)
    requires cfg.slots >= 1 && Agrees(cfg, c) && CellsOk(c.sys) && CanGo(cfg, c, m) && m.what.Resumed?
    ensures Agrees(cfg, After(cfg, c, m))
  {
    var id := m.what.id;
    assert Inv(c.sys.cells[id], c.sys.clock);
    ResumingKeepsAgreement(cfg, c, id, m.what.workspaceExists, m.now);
  }

  lemma {:induction false} ResumingKeepsAgreement(cfg: Config, c: Sched, id: Id, workspaceExists: bool, now: Time)
    requires cfg.slots >= 1 && Agrees(cfg, c) && id in c.tickets && id in c.sys.cells
    requires |c.sys.cells[id].tasks| == 1 && Waits(c.sys.cells[id])
    requires c.slots.queue != [] && c.slots.queue[0] == Slots.Waiter(c.tickets[id], true)
    ensures Agrees(cfg, LetIn(cfg, Do(c, Slots.Resume), id, workspaceExists, now))
  {
    ResumedMoves(cfg, c, id);
    LetInMoves(cfg, Do(c, Slots.Resume), id, workspaceExists, now);
    MovedAgrees(cfg, c, LetIn(cfg, Do(c, Slots.Resume), id, workspaceExists, now), id, c.tickets[id]);
  }

  lemma {:induction false} KillKeepsAgreement(cfg: Config, c: Sched, m: Moment)
    requires CanGo(cfg, c, m) && m.what == Other(Kill)
    ensures Agrees(cfg, After(cfg, c, m))
  {
    var d := After(cfg, c, m);
    assert Slots.IsSlotRun(Slots.Fresh(cfg.slots), []);
    assert Slots.Tasks([]) == [];
    assert SlotMoves.Waiters(d.slots) == {};
  }

  /** The job leaves the queue, or its slot; what became of its record is `s`. */
  lemma {:induction false} LeavingKeepsAgreement(cfg: Config, c: Sched, s: Sys, id: Id)
    requires cfg.slots >= 1 && Agrees(cfg, c) && id in c.tickets && id in s.cells
    requires s.cells == c.sys.cells[id := s.cells[id]] && !Waits(s.cells[id]) && !Inside(s.cells[id])
    ensures
      var event := if Waits(c.sys.cells[id]) then Slots.CancelWaiting(c.tickets[id]) else Slots.Leave(c.tickets[id]);
      Agrees(cfg, Do(c, event).(sys := s, tickets := c.tickets - {id}))
  {
    var ticket := c.tickets[id];
    if Waits(c.sys.cells[id]) {
      assert !Inside(c.sys.cells[id]);
      QueuedWaits(c.slots, ticket);
      DoMoves(cfg, c, Slots.CancelWaiting(ticket));
      assert c.slots.holders == c.slots.holders - {ticket};
      MovedAgrees(cfg, c, Do(c, Slots.CancelWaiting(ticket)).(sys := s, tickets := c.tickets - {id}), id, ticket);
    } else {
      DoMoves(cfg, c, Slots.Leave(ticket));
      assert SlotMoves.Waiters(c.slots) == SlotMoves.Waiters(c.slots) - {ticket};
      MovedAgrees(cfg, c, Do(c, Slots.Leave(ticket)).(sys := s, tickets := c.tickets - {id}), id, ticket);
    }
  }

  lemma {:induction false} DropKeepsAgreement(cfg: Config, c: Sched, m: Moment)
    requires cfg.slots >= 1 && Agrees(cfg, c) && CanGo(cfg, c, m) && m.what.Other?
    requires !m.what.event.Kill? && Drops(cfg, c, m.what.event, m.now)
    ensures Agrees(cfg, After(cfg, c, m))
  {
    LeavingKeepsAgreement(cfg, c, Next(cfg, c.sys, m.what.event, m.now), m.what.event.id);
  }

  lemma {:induction false} QueuedWaits(slots: Slots.SlotState, ticket: Ticket)
    requires ticket in SlotMoves.Waiters(slots)
    ensures Slots.Waits(slots, ticket)
  {
    var k :| 0 <= k < |slots.queue| && Slots.Tasks(slots.queue)[k] == ticket;
    assert slots.queue[k].task == ticket;
  }

  lemma {:induction false} QuietClass(cfg: Config, c: Sched, event: Event, now: Time, id: Id)
    requires Ticketed(c.sys.cells, c.tickets) && CellsOk(c.sys) && Possible(cfg, c.sys, event, now)
    requires !NeedsPermit(event) && !event.Kill? && !Drops(cfg, c, event, now)
    requires id in Next(cfg, c.sys, event, now).cells
    ensures
      var cell := Next(cfg, c.sys, event, now).cells[id];
      && (Waits(cell) <==> id in c.sys.cells && Waits(c.sys.cells[id]))
      && (Inside(cell) <==> id in c.sys.cells && Inside(c.sys.cells[id]))
  {
    NextNeedsNoPermit(cfg, c.sys, event, now, id);
  }

  lemma {:induction false} QuietKeepsAgreement(cfg: Config, c: Sched, m: Moment)
    requires Agrees(cfg, c) && CellsOk(c.sys) && CanGo(cfg, c, m) && m.what.Other?
    requires !m.what.event.Kill? && !Drops(cfg, c, m.what.event, m.now)
    ensures Agrees(cfg, After(cfg, c, m))
  {
    var after := Next(cfg, c.sys, m.what.event, m.now).cells;
    forall id | id in after
      ensures Waits(after[id]) <==> id in c.sys.cells && Waits(c.sys.cells[id])
      ensures Inside(after[id]) <==> id in c.sys.cells && Inside(c.sys.cells[id])
    {
      QuietClass(cfg, c, m.what.event, m.now, id);
    }
    CellsStay(cfg, c.sys, m.what.event, m.now);
    StillMatches(c.sys.cells, after, c.tickets, c.slots.holders, SlotMoves.Waiters(c.slots));
  }

  lemma {:induction false} CellsStay(cfg: Config, s: Sys, event: Event, now: Time)
    requires Possible(cfg, s, event, now)
    ensures forall id :: id in s.cells ==> id in Next(cfg, s, event, now).cells
  {}

  lemma {:induction false} MomentKeepsAgreement(cfg: Config, c: Sched, m: Moment)
    requires cfg.slots >= 1 && Agrees(cfg, c) && CellsOk(c.sys) && CanGo(cfg, c, m)
    ensures Agrees(cfg, After(cfg, c, m))
  {
    if m.what.Enter? {
      EnterKeepsAgreement(cfg, c, m);
    } else if m.what.Resumed? {
      ResumedKeepsAgreement(cfg, c, m);
    } else if m.what.event.Kill? {
      KillKeepsAgreement(cfg, c, m);
    } else if Drops(cfg, c, m.what.event, m.now) {
      DropKeepsAgreement(cfg, c, m);
    } else {
      QuietKeepsAgreement(cfg, c, m);
    }
  }

  // And is a stretch of a run of the service

  lemma {:induction false} BeginIsPossible(cfg: Config, s: Sys, id: Id, now: Time)
    requires s.phase.Up? && s.clock < now && id in s.cells
    requires |s.cells[id].tasks| == 1 && s.cells[id].tasks[0].pc.Entering?
    ensures Possible(cfg, s, OnCell(id, BEGIN), now) && Next(cfg, s, OnCell(id, BEGIN), now) == Stepped(s, id, BEGIN, now)
  {}

  lemma {:induction false} GrantIsPossible(cfg: Config, s: Sys, id: Id, workspaceExists: bool, now: Time)
    requires s.phase.Up? && s.clock < now && id in s.cells && |Holders(s.cells)| < cfg.slots
    requires |s.cells[id].tasks| == 1 && Waits(s.cells[id])
    ensures
      var event := GrantNow(cfg, s, id, workspaceExists, now);
      Possible(cfg, s, OnCell(id, event), now) && Next(cfg, s, OnCell(id, event), now) == Stepped(s, id, event, now)
  {}

  /** `System`'s cap on grants is what the semaphore guarantees. */
  lemma {:induction false} ThereIsRoom(cfg: Config, c: Sched, event: Slots.SlotEvent)
    requires cfg.slots >= 1 && Agrees(cfg, c) && CellsOk(c.sys)
    requires Slots.CanHappen(c.slots, event) && SlotMoves.LetsIn(c.slots, event)
    ensures |Holders(c.sys.cells)| < cfg.slots
  {
    TraceKeepsSlotInv(cfg, c.slots, c.events);
    LettingInNeedsRoom(c.slots, event);
    HoldersFit(c.sys, c.tickets, c.slots.holders, SlotMoves.Waiters(c.slots));
  }

  lemma {:induction false} StillRoom(cfg: Config, s: Sys, id: Id, now: Time)
    requires id in s.cells && |s.cells[id].tasks| == 1 && s.cells[id].tasks[0].pc.Entering?
    requires |Holders(s.cells)| < cfg.slots
    ensures Enabled(s.cells[id], BEGIN) && |Holders(Stepped(s, id, BEGIN, now).cells)| < cfg.slots
  {
    BeginWaits(s.cells[id], now);
    HoldersGrow(s.cells, id, Step(s.cells[id], BEGIN, now));
  }

  /** The run so far of the service leads to the state the schedule is in. */
  ghost predicate Leads(cfg: Config, events: seq<Timed>, s: Sys) {
    IsRun(cfg, events) && StateAfter(cfg, events) == s
  }

  lemma {:induction false} OneMore(cfg: Config, events: seq<Timed>, s: Sys, event: Event, now: Time)
    requires Leads(cfg, events, s) && Possible(cfg, s, event, now)
    ensures Leads(cfg, events + [Timed(event, now)], Next(cfg, s, event, now))
  {
    Runs.OneMore(cfg, events, event, now);
  }

  lemma {:induction false} GrantRuns(
    cfg: Config, events: seq<Timed>, s: Sys, id: Id, workspaceExists: bool, now: Time)
    requires Leads(cfg, events, s) && s.phase.Up? && s.clock < now && |Holders(s.cells)| < cfg.slots
    requires id in s.cells && |s.cells[id].tasks| == 1 && Waits(s.cells[id])
    ensures
      var event := GrantNow(cfg, s, id, workspaceExists, now);
      Leads(cfg, events + [Timed(OnCell(id, event), now)], Stepped(s, id, event, now))
  {
    GrantIsPossible(cfg, s, id, workspaceExists, now);
    OneMore(cfg, events, s, OnCell(id, GrantNow(cfg, s, id, workspaceExists, now)), now);
  }

  lemma {:induction false} BeginRuns(cfg: Config, events: seq<Timed>, s: Sys, id: Id, now: Time)
    requires Leads(cfg, events, s) && s.phase.Up? && s.clock < now && id in s.cells
    requires |s.cells[id].tasks| == 1 && s.cells[id].tasks[0].pc.Entering?
    ensures Leads(cfg, events + [Timed(OnCell(id, BEGIN), now)], Stepped(s, id, BEGIN, now))
  {
    BeginIsPossible(cfg, s, id, now);
    OneMore(cfg, events, s, OnCell(id, BEGIN), now);
  }

  /** What the semaphore makes of an entering task. */
  lemma {:induction false} EnterFinds(cfg: Config, c: Sched, id: Id, now: Time)
    requires cfg.slots >= 1 && Agrees(cfg, c) && CellsOk(c.sys) && id in c.sys.cells
    requires c.sys.cells[id].tasks != [] && c.sys.cells[id].tasks[0].pc.Entering?
    ensures |c.sys.cells[id].tasks| == 1
    ensures
      var arrived := Arrived(c, id, now);
      && |arrived.sys.cells[id].tasks| == 1 && Waits(arrived.sys.cells[id])
      && (c.next in arrived.slots.holders ==> |Holders(arrived.sys.cells)| < cfg.slots)
  {
    EnteringHasNoTicket(c, id);
    ArrivedMoves(cfg, c, id, now);
    NewTicketIsFree(cfg, c, id);
    BeginWaits(c.sys.cells[id], now);
    if SlotMoves.LetsIn(c.slots, Slots.Arrive(c.next)) {
      ThereIsRoom(cfg, c, Slots.Arrive(c.next));
      StillRoom(cfg, c.sys, id, now);
    }
  }

  lemma {:induction false} EnterIsRun(cfg: Config, events: seq<Timed>, c: Sched, m: Moment)
    requires cfg.slots >= 1 && Leads(cfg, events, c.sys) && Agrees(cfg, c) && CellsOk(c.sys)
    requires CanGo(cfg, c, m) && m.what.Enter?
    ensures Leads(cfg, events + EventsOf(cfg, c, m), After(cfg, c, m).sys)
  {
    EnterFinds(cfg, c, m.what.id, m.now);
    EnteringRuns(cfg, events, c, m);
  }

  lemma {:induction false} EnteringRuns(cfg: Config, events: seq<Timed>, c: Sched, m: Moment)
    requires Leads(cfg, events, c.sys) && CanGo(cfg, c, m) && m.what.Enter? && |c.sys.cells[m.what.id].tasks| == 1
    requires
      var id := m.what.id;
      var arrived := Arrived(c, id, m.now);
      && |arrived.sys.cells[id].tasks| == 1 && Waits(arrived.sys.cells[id])
      && (c.next in arrived.slots.holders ==> |Holders(arrived.sys.cells)| < cfg.slots)
    ensures Leads(cfg, events + EventsOf(cfg, c, m), After(cfg, c, m).sys)
  {
    var id := m.what.id;
    var arrived, begun := Arrived(c, id, m.now), events + [Timed(OnCell(id, BEGIN), m.now)];
    BeginRuns(cfg, events, c.sys, id, m.now);
    if c.next in arrived.slots.holders {
      GrantRuns(cfg, begun, arrived.sys, id, m.what.workspaceExists, m.after);
      LetInSteps(cfg, arrived, id, m.what.workspaceExists, m.after);
      var grant := OnCell(id, GrantNow(cfg, arrived.sys, id, m.what.workspaceExists, m.after));
      assert begun + [Timed(grant, m.after)] == events + EventsOf(cfg, c, m);
    } else {
      assert begun == events + EventsOf(cfg, c, m);
    }
  }

  lemma {:induction false} LetInSteps(cfg: Config, c: Sched, id: Id, workspaceExists: bool, now: Time)
    requires id in c.sys.cells && Waits(c.sys.cells[id]) && id in c.tickets
    ensures LetIn(cfg, c, id, workspaceExists, now).sys ==
      Stepped(c.sys, id, GrantNow(cfg, c.sys, id, workspaceExists, now), now)
  {}

  lemma {:induction false} ResumedIsRun(cfg: Config, events: seq<Timed>, c: Sched, m: Moment)
    requires cfg.slots >= 1 && Leads(cfg, events, c.sys) && Agrees(cfg, c) && CellsOk(c.sys)
    requires CanGo(cfg, c, m) && m.what.Resumed?
    ensures Leads(cfg, events + EventsOf(cfg, c, m), After(cfg, c, m).sys)
  {
    var id := m.what.id;
    assert Inv(c.sys.cells[id], c.sys.clock);
    ThereIsRoom(cfg, c, Slots.Resume);
    GrantRuns(cfg, events, c.sys, id, m.what.workspaceExists, m.now);
    LetInSteps(cfg, Do(c, Slots.Resume), id, m.what.workspaceExists, m.now);
  }

  lemma {:induction false} MomentIsRun(cfg: Config, events: seq<Timed>, c: Sched, m: Moment)
    requires cfg.slots >= 1 && Leads(cfg, events, c.sys) && Agrees(cfg, c) && CellsOk(c.sys) && CanGo(cfg, c, m)
    ensures Leads(cfg, events + EventsOf(cfg, c, m), After(cfg, c, m).sys)
  {
    match m.what
    case Enter(_, _) => EnterIsRun(cfg, events, c, m);
    case Resumed(_, _) => ResumedIsRun(cfg, events, c, m);
    case Other(event) => OneMore(cfg, events, c.sys, event, m.now);
  }

  /**
   The service with its semaphore is the service of `System`, cap and all: its
   events are a run of it, and what the semaphore saw since the process started
   is a run of `Slots`, whose tickets are those of the jobs.
   */
  lemma {:induction false} ScheduledRunsAreRuns(cfg: Config, moments: seq<Moment>)
    requires cfg.slots >= 1 && IsScheduled(cfg, moments)
    ensures Leads(cfg, SystemEvents(cfg, moments), SchedAfter(cfg, moments).sys)
    ensures Agrees(cfg, SchedAfter(cfg, moments))
    decreases |moments|
  {
    if moments == [] {
      StartAgrees(cfg);
    } else {
      var before, last := moments[..|moments| - 1], moments[|moments| - 1];
      ScheduledRunsAreRuns(cfg, before);
      RunsKeepInv(cfg, SystemEvents(cfg, before));
      MomentKeepsAgreement(cfg, SchedAfter(cfg, before), last);
      MomentIsRun(cfg, SystemEvents(cfg, before), SchedAfter(cfg, before), last);
    }
  }

  lemma {:induction false} StartAgrees(cfg: Config)
    ensures Agrees(cfg, Sched(START, Slots.Fresh(cfg.slots), [], map[], 0, []))
  {
    assert Slots.IsSlotRun(Slots.Fresh(cfg.slots), []);
    assert Slots.Tasks([]) == [];
    assert SlotMoves.Waiters(Slots.Fresh(cfg.slots)) == {};
  }

  lemma {:induction false} LetInByOrder(cfg: Config, c: Sched)
    requires cfg.slots >= 1 && Agrees(cfg, c)
    ensures c.letIn + Slots.Tasks(c.slots.queue) ==
      Slots.Surviving(Slots.Arrivals(c.events), Slots.Cancellations(c.events))
    ensures |c.slots.holders| <= cfg.slots
    ensures c.slots.holders == {} && c.slots.queue != [] ==> Slots.CanHappen(c.slots, Slots.Resume)
  {
    Slots.CapIsFairAndLeaksNothing(cfg.slots, c.events);
  }

  lemma {:induction false} NobodyInsideNoPermits(c: Sched)
    requires CellsOk(c.sys) && Holders(c.sys.cells) == {}
    requires Matching(c.sys.cells, c.tickets, c.slots.holders, SlotMoves.Waiters(c.slots))
    ensures c.slots.holders == {}
  {
    if c.slots.holders != {} {
      var ticket :| ticket in c.slots.holders;
      TicketHolds(c, ticket);
    }
  }

  ghost predicate SomeoneCanGo(cfg: Config, c: Sched) {
    exists id :: CanGo(cfg, c, Moment(Resumed(id, true), c.sys.clock + 1, c.sys.clock + 1))
  }

  lemma {:induction false} FirstWaiterCanGo(cfg: Config, c: Sched)
    requires cfg.slots >= 1 && Agrees(cfg, c) && CellsOk(c.sys)
    requires Holders(c.sys.cells) == {} && c.slots.queue != []
    ensures SomeoneCanGo(cfg, c)
  {
    LetInByOrder(cfg, c);
    NobodyInsideNoPermits(c);
    var id := HeadCanGo(cfg, c);
  }

  /**
   The jobs let in and those still waiting are the arrivals in order, but for
   those cancelled while waiting; no more than the limit are inside; and while
   none is, the first that waits can go on.
   */
  ghost predicate Orderly(cfg: Config, c: Sched) {
    && c.letIn + Slots.Tasks(c.slots.queue) ==
         Slots.Surviving(Slots.Arrivals(c.events), Slots.Cancellations(c.events))
    && |Holders(c.sys.cells)| <= |c.slots.holders| <= cfg.slots
    && (Holders(c.sys.cells) == {} && c.slots.queue != [] ==> SomeoneCanGo(cfg, c))
  }

  lemma {:induction false} AgreeingIsOrderly(cfg: Config, c: Sched)
    requires cfg.slots >= 1 && Agrees(cfg, c) && CellsOk(c.sys)
    ensures Orderly(cfg, c)
  {
    HoldersFit(c.sys, c.tickets, c.slots.holders, SlotMoves.Waiters(c.slots));
    LetInByOrder(cfg, c);
    if Holders(c.sys.cells) == {} && c.slots.queue != [] {
      FirstWaiterCanGo(cfg, c);
    }
  }

  /**
   So the first-in-first-out promise is one about jobs: since the process
   started, they were let into a slot in the order in which their tasks came to
   the semaphore.
   */
  lemma {:induction false} JobsStartInOrder(cfg: Config, moments: seq<Moment>)
    requires cfg.slots >= 1 && IsScheduled(cfg, moments)
    ensures Orderly(cfg, SchedAfter(cfg, moments))
  {
    ScheduledRunsAreRuns(cfg, moments);
    RunsKeepInv(cfg, SystemEvents(cfg, moments));
    AgreeingIsOrderly(cfg, SchedAfter(cfg, moments));
  }

  lemma {:induction false} HeadCanGo(cfg: Config, c: Sched) returns (id: Id)
    requires CellsOk(c.sys) && Slots.CanHappen(c.slots, Slots.Resume)
    requires Matching(c.sys.cells, c.tickets, c.slots.holders, SlotMoves.Waiters(c.slots))
    ensures CanGo(cfg, c, Moment(Resumed(id, true), c.sys.clock + 1, c.sys.clock + 1))
  {
    var ticket := c.slots.queue[0].task;
    assert Slots.Tasks(c.slots.queue)[0] == ticket && ticket in SlotMoves.Waiters(c.slots);
    assert IsHeld(c.tickets, ticket);
    id :| id in c.tickets && c.tickets[id] == ticket;
    assert Inv(c.sys.cells[id], c.sys.clock);
  }

  lemma {:induction false} TicketHolds(c: Sched, ticket: Ticket)
    requires CellsOk(c.sys) && ticket in c.slots.holders
    requires Matching(c.sys.cells, c.tickets, c.slots.holders, SlotMoves.Waiters(c.slots))
    ensures Holders(c.sys.cells) != {}
  {
    assert IsHeld(c.tickets, ticket);
    var id :| id in c.tickets && c.tickets[id] == ticket;
    HolderIsInside(c.sys.cells[id], c.sys.clock);
    assert id in Holders(c.sys.cells);
  }
}
