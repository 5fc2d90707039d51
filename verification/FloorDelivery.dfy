/** What reaches the store: its orders are the old ones run through the events that were new, each once, as they came. */
module FloorDelivery {
  import opened Options
  import opened Orders
  import opened OrderLife
  import opened StoredOrders
  import opened FloorEvents

  type FloorEvent = FloorEvents.Event

  /** The events among some calls that were not seen before, at their first arrival. */
  function NewEvents(seen: set<Id>, calls: seq<Call>): seq<FloorEvent>
    decreases |calls|
  {
    if calls == [] then []
    else
      match calls[0]
      case Keeping(_) => NewEvents(seen, calls[1..])
      case Committing(e) =>
        if e.id in seen then NewEvents(seen, calls[1..]) else [e] + NewEvents(seen + {e.id}, calls[1..])
  }

  /** What a returned order is kept as: a stale return changes nothing. */
  function StoredReturn(l: Life, u: NotDelivered, now: Time): Life {
    var (next, result) := NotDeliveredApplied(l, u, now);
    if result == Applied then next else l
  }

  /** What one event makes of an order: only a report or a return about it, with nothing missing, changes it. */
  function OnOrder(l: Life, e: FloorEvent, order: Id, now: Time): Life {
    if e.body.StatusReport? && e.body.order == Some(order) && e.body.status.Some? then
      Stored(l, FloorUpdate(e.body.status.value, e.body.kitchen, e.body.readyAt, e.body.driver, e.at, e.body.auto), now)
    else if e.body.NotDeliveredReport? && e.body.order == Some(order) && e.body.action != OtherAction then
      StoredReturn(l, NotDelivered(e.body.action, e.at, e.body.auto), now)
    else l
  }

  function RunEvents(l: Life, events: seq<FloorEvent>, order: Id, clock: Id -> Time): Life
    decreases |events|
  {
    if events == [] then l
    else RunEvents(OnOrder(l, events[0], order, clock(events[0].id)), events[1..], order, clock)
  }

  /** The roster, shifts and runs after some events: the last roster, the last word on a shift, each run as it was sent. */
  function LastRoster(drivers: seq<Driver>, events: seq<FloorEvent>): seq<Driver>
    decreases |events|
  {
    if events == [] then drivers
    else
      LastRoster(if events[0].body.Roster? && events[0].body.drivers.Some? then events[0].body.drivers.value else drivers,
                 events[1..])
  }

  function LastShifts(shifts: map<Id, Shift>, events: seq<FloorEvent>): map<Id, Shift>
    decreases |events|
  {
    if events == [] then shifts
    else
      LastShifts(if events[0].body.ShiftReport? && events[0].body.shift.Some?
                 then shifts[events[0].body.shift.value.id := events[0].body.shift.value] else shifts, events[1..])
  }

  function AllRuns(runs: map<Id, DeliveryRun>, events: seq<FloorEvent>): map<Id, DeliveryRun>
    decreases |events|
  {
    if events == [] then runs
    else
      AllRuns(if events[0].body.RunReport? && events[0].body.run.Some? then runs[events[0].id := events[0].body.run.value]
              else runs, events[1..])
  }

  // --- one event ----------------------------------------------------------------------------------

  /** A new event does what it says to the one order it is about, and to no other. */
  lemma ANewEventMovesItsOrder(s: Store, e: FloorEvent, now: Time, order: Id)
    requires e.id !in s.seen && order in s.orders
    ensures var next := Commit(s, e, now).0;
      order in next.orders && next.orders[order] == OnOrder(s.orders[order], e, order, now)
  {
    hide FloorUpdated, NotDeliveredApplied;
  }

  lemma ANewEventMovesTheRest(s: Store, e: FloorEvent, now: Time)
    requires e.id !in s.seen
    ensures var next := Commit(s, e, now).0;
      && next.drivers == LastRoster(s.drivers, [e]) && next.shifts == LastShifts(s.shifts, [e])
      && next.runs == AllRuns(s.runs, [e])
  {
    hide FloorUpdated, NotDeliveredApplied;
    assert [e][1..] == [];
  }

  lemma ASeenEventDoesNothing(s: Store, e: FloorEvent, now: Time)
    requires e.id in s.seen
    ensures Commit(s, e, now) == (s, Duplicate)
  {
    hide FloorUpdated, NotDeliveredApplied;
  }

  /** What a new event is answered: what became of the order it names, or why it could not be about one. */
  lemma WhatANewEventIsAnswered(s: Store, e: FloorEvent, now: Time)
    requires e.id !in s.seen
    ensures var answer := Commit(s, e, now).1;
      match e.body
      case StatusReport(order, status, kitchen, readyAt, driver, auto) =>
        if order == None || status == None then answer == Invalid
        else if order.value !in s.orders then answer == NotFound
        else answer == FloorUpdated(s.orders[order.value],
                                    FloorUpdate(status.value, kitchen, readyAt, driver, e.at, auto), now).1
      case NotDeliveredReport(order, action, auto) =>
        if order == None || action == OtherAction then answer == Invalid
        else if order.value !in s.orders then answer == NotFound
        else answer == NotDeliveredApplied(s.orders[order.value], NotDelivered(action, e.at, auto), now).1
      case Roster(drivers) => answer == if drivers.Some? then Applied else Invalid
      case ShiftReport(shift) => answer == if shift.Some? then Applied else Invalid
      case RunReport(run) => answer == if run.Some? then Applied else Invalid
      case UnknownBody => answer == Invalid
  {
    hide FloorUpdated, NotDeliveredApplied;
  }

  // --- all of them ---------------------------------------------------------------------------------

  lemma KeepingMovesOnlyAgents(s: Store, e: FloorEvent)
    ensures Keep(s, e) == s.(agents := Keep(s, e).agents)
  {
  }

  lemma OneEventFirst(e: FloorEvent, events: seq<FloorEvent>)
    ensures ([e] + events)[0] == e && ([e] + events)[1..] == events && [e][1..] == []
  {
  }

  /**
   * After any calls, every order is what it was before, run through the new events in the order of their first arrival;
   * so are the roster, the shifts and the runs. No order comes or goes.
   */
  lemma {:induction false} OrdersFollowTheirEvents(s: Store, calls: seq<Call>, clock: Id -> Time)
    ensures var r, events := AfterCalls(s, calls, clock), NewEvents(s.seen, calls);
      && r.orders.Keys == s.orders.Keys
      && (forall order <- s.orders :: r.orders[order] == RunEvents(s.orders[order], events, order, clock))
      && r.drivers == LastRoster(s.drivers, events) && r.shifts == LastShifts(s.shifts, events)
      && r.runs == AllRuns(s.runs, events)
    decreases |calls|
  {
    hide Commit, Keep, OnOrder;
    if calls != [] {
      var next := After(s, calls[0], clock);
      OrdersFollowTheirEvents(next, calls[1..], clock);
      match calls[0] {
        case Keeping(e) => KeepingMovesOnlyAgents(s, e);
        case Committing(e) =>
          if e.id in s.seen {
            ASeenEventDoesNothing(s, e, clock(e.id));
          } else {
            CommitMarks(s, e, clock(e.id));
            forall order | order in s.orders
              ensures next.orders[order] == OnOrder(s.orders[order], e, order, clock(e.id))
            {
              ANewEventMovesItsOrder(s, e, clock(e.id), order);
            }
            ANewEventMovesTheRest(s, e, clock(e.id));
            OneEventFirst(e, NewEvents(s.seen + {e.id}, calls[1..]));
          }
      }
    }
  }

  /** An order no new event is about stays as it is. */
  lemma {:induction false} OthersStay(l: Life, events: seq<FloorEvent>, order: Id, clock: Id -> Time)
    requires forall e <- events ::
               && (e.body.StatusReport? ==> e.body.order != Some(order))
               && (e.body.NotDeliveredReport? ==> e.body.order != Some(order))
    ensures RunEvents(l, events, order, clock) == l
    decreases |events|
  {
    hide Stored, StoredReturn;
    if events != [] { OthersStay(l, events[1..], order, clock); }
  }

  // --- reports alone: the store converges -------------------------------------------------------------

  /** The reports about an order among some events. */
  function ReportsOn(events: seq<FloorEvent>, order: Id): seq<FloorUpdate>
    decreases |events|
  {
    if events == [] then []
    else
      var b := events[0].body;
      (if b.StatusReport? && b.order == Some(order) && b.status.Some?
       then [FloorUpdate(b.status.value, b.kitchen, b.readyAt, b.driver, events[0].at, b.auto)] else [])
      + ReportsOn(events[1..], order)
  }

  /** Alike but for the stamp of the last change. */
  predicate Alike(a: Life, b: Life) {
    a.(updatedAt := 0) == b.(updatedAt := 0)
  }

  lemma RecordedAlike(a: Life, b: Life, from: Status, reason: Reason, now: Time, then_: Time)
    requires Alike(a, b)
    ensures Alike(Record(a, from, Agent, reason, now), Record(b, from, Agent, reason, then_))
    ensures SnapshotOf(a) == SnapshotOf(b) && a.status == b.status && a.floorAt == b.floorAt
  {
  }

  lemma AdvancedAlike(a: Life, b: Life, u: FloorUpdate, at: Time)
    requires Alike(a, b)
    ensures Alike(Advanced(a, u, at), Advanced(b, u, at))
    ensures Alike(Mirrored(a, u, at), Mirrored(b, u, at))
    ensures Alike(MoveTo(a, Cancelled, at, Agent, NotAccepted), MoveTo(b, Cancelled, at, Agent, NotAccepted))
  {
    hide FloorRank;
  }

  lemma StoredAlike(a: Life, b: Life, u: FloorUpdate, now: Time, then_: Time)
    requires Alike(a, b) && u.at.Some?
    ensures Alike(Stored(a, u, now), Stored(b, u, then_))
  {
    hide FloorRank, Record, Mirrored, Advanced, Alike, MoveTo, SnapshotOf;
    var at := u.at.value;
    RecordedAlike(a, b, a.status, NoReason, now, then_);
    AdvancedAlike(a, b, u, at);
    if u.status == Cancelled {
      RecordedAlike(MoveTo(a, Cancelled, at, Agent, NotAccepted), MoveTo(b, Cancelled, at, Agent, NotAccepted), a.status,
                    NotAccepted, now, then_);
    } else {
      var x, y := Advanced(a, u, at), Advanced(b, u, at);
      AdvancedAlike(x, y, u, at);
      var p := if OlderThan(at, a.floorAt) then x else Mirrored(x, u, at);
      var q := if OlderThan(at, b.floorAt) then y else Mirrored(y, u, at);
      RecordedAlike(p, q, a.status, NoReason, now, then_);
    }
  }

  lemma StoredFirst(l: Life, u: FloorUpdate, us: seq<FloorUpdate>, now: Time)
    ensures StoredRun(l, [u] + us, now) == StoredRun(Stored(l, u, now), us, now)
    decreases |us|
  {
    hide Stored;
    if us == [] {
      assert [u] + us == [u];
      StoredOne(l, u, now);
    } else {
      assert ([u] + us)[..|us|] == [u] + us[..|us|-1];
      StoredFirst(l, u, us[..|us|-1], now);
    }
  }

  lemma {:induction false} StoredRunsAlike(a: Life, b: Life, us: seq<FloorUpdate>, now: Time, then_: Time)
    requires Alike(a, b) && forall u <- us :: u.at.Some?
    ensures Alike(StoredRun(a, us, now), StoredRun(b, us, then_))
  {
    hide Stored, Alike;
    if us != [] {
      assert us[|us|-1] in us;
      StoredRunsAlike(a, b, us[..|us|-1], now, then_);
      StoredAlike(StoredRun(a, us[..|us|-1], now), StoredRun(b, us[..|us|-1], then_), us[|us|-1], now, then_);
    }
  }

  /** With no return about it among them, events run an order as the stored reports do, whatever the clock read. */
  lemma {:induction false} ReportsRunTheOrder(l: Life, events: seq<FloorEvent>, order: Id, clock: Id -> Time, now: Time)
    requires forall e <- events :: e.body.NotDeliveredReport? ==> e.body.order != Some(order)
    requires forall u <- ReportsOn(events, order) :: u.at.Some?
    ensures Alike(RunEvents(l, events, order, clock), StoredRun(l, ReportsOn(events, order), now))
    decreases |events|
  {
    hide Stored, StoredReturn, Alike, StoredRun;
    if events == [] {
      assert StoredRun(l, [], now) == l by { NothingStored(l, now); }
      assert Alike(l, l) by { AlikeItself(l); }
    } else {
      var e, rest := events[0], events[1..];
      var next := OnOrder(l, e, order, clock(e.id));
      assert events == [e] + rest;
      var mine, later := ReportsOn(events, order), ReportsOn(rest, order);
      assert forall u <- later :: u in mine;
      ReportsRunTheOrder(next, rest, order, clock, now);
      if mine != later {
        var u := mine[0];
        assert mine == [u] + later && u in mine;
        StoredFirst(l, u, later, now);
        AlikeItself(l);
        StoredAlike(l, l, u, clock(e.id), now);
        StoredRunsAlike(next, Stored(l, u, now), later, now, now);
        BothAlike(RunEvents(l, events, order, clock), StoredRun(next, later, now), StoredRun(l, mine, now));
      }
    }
  }

  lemma NothingStored(l: Life, now: Time)
    ensures StoredRun(l, [], now) == l
  {
  }

  lemma AlikeItself(l: Life)
    ensures Alike(l, l)
  {
  }

  lemma BothAlike(a: Life, b: Life, c: Life)
    requires Alike(a, b) && Alike(b, c)
    ensures Alike(a, c)
  {
  }

  /**
   * Once a POST has brought the newest of an order's reports, the store holds that report's fields, however the reports
   * came, were repeated or failed on the way; unless a report that leaves the newest nothing new to say is followed by
   * one that says something else.
   */
  lemma TheStoreConverges(s: Store, calls: seq<Call>, clock: Id -> Time, order: Id, all: seq<FloorUpdate>, n: FloorUpdate)
    requires order in s.orders && Untouched(s.orders[order]) && Reports(all, n) && !Overtaken(s.orders[order], all, n)
    requires var events := NewEvents(s.seen, calls);
      && (forall e <- events :: e.body.NotDeliveredReport? ==> e.body.order != Some(order))
      && Drawn(ReportsOn(events, order), all, n)
    ensures var r := AfterCalls(s, calls, clock); order in r.orders && FieldsOf(r.orders[order]) == Sent(n)
  {
    hide AfterCalls, NewEvents, ReportsOn, RunEvents, StoredRun, Overtaken, Untouched, OneAtATime, IsNewest, Full;
    var l, events := s.orders[order], NewEvents(s.seen, calls);
    var us := ReportsOn(events, order);
    OrdersFollowTheirEvents(s, calls, clock);
    assert forall u <- us :: u.at.Some? by { forall u <- us ensures u.at.Some? { FullHasATime(u); } }
    ReportsRunTheOrder(l, events, order, clock, 0);
    StoredFieldsConverge(l, all, n, 0);
  }

  /** An agent's status is kept for the order its report or return names, when it has one and a time, and nothing is missing. */
  lemma WhoseStatusIsKept(e: FloorEvent, order: Id)
    ensures KeptFor(e) == Some(order) <==>
      && e.agent.Some? && e.at.Some?
      && ((e.body.StatusReport? && e.body.order == Some(order) && e.body.status.Some?)
          || (e.body.NotDeliveredReport? && e.body.order == Some(order) && e.body.action in {Retry, Cancel}))
  {
  }

  /** Of an order no status was kept for, nothing is known and nothing acknowledged. */
  lemma NothingKept(s: Store, order: Id)
    requires order !in s.agents
    ensures RowOf(s, order) == AgentRow(None, None, None, false)
  {
  }
}
