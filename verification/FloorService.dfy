/** The floor.events handler: it applies a POST's events one by one, and fails the whole POST when the repository does. */
module FloorService {
  import opened Options
  import opened Sequences
  import opened Orders
  import opened FloorEvents

  /** What an event's transaction does to the order it locks. */
  datatype Change = ByReport(update: FloorUpdate) | ByReturn(event: NotDelivered)

  class Service {
    const placed: map<Id, NewOrderInput> // what each order was made from
    var orders: map<Id, Life>
    var seen: set<Id>
    var agents: map<Id, AgentRow>
    var drivers: seq<Driver>
    var shifts: map<Id, Shift>
    var runs: map<Id, DeliveryRun>
    var callsLeft: nat // repository calls that still succeed

    ghost predicate Valid()
      reads this
    {
      orders.Keys <= placed.Keys
    }

    function Get(): Store
      reads `orders, `seen, `agents, `drivers, `shifts, `runs
    {
      Store(orders, seen, agents, drivers, shifts, runs)
    }

    constructor (placed: map<Id, NewOrderInput>, s: Store, callsLeft: nat)
      requires s.orders.Keys <= placed.Keys
      ensures Valid() && Get() == s && this.callsLeft == callsLeft
    {
      this.placed := placed;
      orders, seen, agents, drivers, shifts, runs := s.orders, s.seen, s.agents, s.drivers, s.shifts, s.runs;
      this.callsLeft := callsLeft;
    }

    // --- the repository ------------------------------------------------------------------------

    method MarkSeen(id: Id, result: FloorResult) returns (answer: FloorResult)
      modifies `seen
      ensures (Get(), answer) == Mark(old(Get()), id, result)
    {
      if id in seen { return Duplicate; }
      seen := seen + {id};
      return result;
    }

    /** Locks the order, runs the change on it, and writes it back when the change applied and the event is new. */
    method ChangeOrder(id: Id, order: Id, change: Change, now: Time) returns (answer: FloorResult)
      requires Valid() && order in orders
      modifies `seen, `orders
      ensures Valid()
      ensures var (next, result) := match change
          case ByReport(u) => FloorUpdated(old(orders[order]), u, now)
          case ByReturn(u) => NotDeliveredApplied(old(orders[order]), u, now);
        (Get(), answer) == Write(old(Get()), id, order, next, result)
    {
      hide FloorUpdated, NotDeliveredApplied;
      var o := new Order.Rehydrate(placed[order], orders[order]);
      var result;
      match change {
        case ByReport(u) => result := o.ApplyFloorUpdate(u, now);
        case ByReturn(u) => result := o.ApplyNotDelivered(u, now);
      }
      if id in seen { return Duplicate; }
      seen := seen + {id};
      if result == Applied { orders := orders[order := o.Get()]; }
      return result;
    }

    method KeepAgentStatus(e: FloorEvents.Event)
      modifies `agents
      ensures Get() == Keep(old(Get()), e)
    {
      var order := KeptFor(e);
      if order == None || order.value !in orders { return; }
      var row := if order.value in agents then agents[order.value] else NO_ROW;
      if row.at.Some? && e.at.value < row.at.value {
        assert agents[order.value := row] == agents;
        return;
      }
      var batch := row.batch;
      if e.agent.value.batch.Some? { batch := e.agent.value.batch; }
      agents := agents[order.value := AgentRow(Some(e.agent.value.status), e.at, batch, true)];
    }

    // --- one event -------------------------------------------------------------------------------

    method CommitEvent(e: FloorEvents.Event, now: Time) returns (answer: FloorResult)
      requires Valid()
      modifies `seen, `orders, `drivers, `shifts, `runs
      ensures Valid()
      ensures (Get(), answer) == Commit(old(Get()), e, now)
    {
      hide FloorUpdated, NotDeliveredApplied;
      match e.body {
        case StatusReport(order, status, kitchen, readyAt, driver, auto) =>
          if status == None || order == None {
            answer := MarkSeen(e.id, Invalid);
          } else if order.value !in orders {
            answer := MarkSeen(e.id, NotFound);
          } else {
            answer := ChangeOrder(e.id, order.value,
                                  ByReport(FloorUpdate(status.value, kitchen, readyAt, driver, e.at, auto)), now);
          }
        case NotDeliveredReport(order, action, auto) =>
          if order == None || action == OtherAction {
            answer := MarkSeen(e.id, Invalid);
          } else if order.value !in orders {
            answer := MarkSeen(e.id, NotFound);
          } else {
            answer := ChangeOrder(e.id, order.value, ByReturn(NotDelivered(action, e.at, auto)), now);
          }
        case Roster(ds) =>
          if ds == None {
            answer := MarkSeen(e.id, Invalid);
          } else {
            answer := MarkSeen(e.id, Applied);
            if answer != Duplicate { drivers := ds.value; }
          }
        case ShiftReport(shift) =>
          if shift == None {
            answer := MarkSeen(e.id, Invalid);
          } else {
            answer := MarkSeen(e.id, Applied);
            if answer != Duplicate { shifts := shifts[shift.value.id := shift.value]; }
          }
        case RunReport(run) =>
          if run == None {
            answer := MarkSeen(e.id, Invalid);
          } else {
            answer := MarkSeen(e.id, Applied);
            if answer != Duplicate { runs := runs[e.id := run.value]; }
          }
        case UnknownBody => answer := MarkSeen(e.id, Invalid);
      }
    }

    // --- a POST ------------------------------------------------------------------------------------

    /** One event, if the repository lasts: its transaction, then the agent's status. None: it failed on the way. */
    method Apply(e: FloorEvents.Event, clock: Id -> Time) returns (answer: Option<FloorResult>)
      requires Valid()
      modifies this
      ensures Valid()
      ensures var n := Min(old(callsLeft), 2);
        && callsLeft == old(callsLeft) - n
        && Get() == AfterCalls(old(Get()), [Committing(e), Keeping(e)][..n], clock)
        && answer == if n == 2 then Some(Commit(old(Get()), e, clock(e.id)).1) else None
    {
      hide Commit, Keep;
      ghost var s := Get();
      TwoCalls(s, e, clock);
      if callsLeft == 0 { return None; }
      callsLeft := callsLeft - 1;
      var result := CommitEvent(e, clock(e.id));
      if callsLeft == 0 { return None; }
      callsLeft := callsLeft - 1;
      KeepAgentStatus(e);
      return Some(result);
    }

    /** None: the POST failed, after the calls that succeeded; otherwise an answer for each event. */
    method Handle(posted: seq<Posted>, clock: Id -> Time) returns (answers: Option<seq<Answer>>)
      requires Valid()
      modifies this
      ensures Valid()
      ensures var calls := CallsOf(posted);
        var n := Min(old(callsLeft), |calls|);
        && Get() == AfterCalls(old(Get()), calls[..n], clock)
        && (answers.Some? <==> old(callsLeft) >= |calls|)
        && (answers.Some? ==> answers.value == AnswersTo(old(Get()), posted, clock))
    {
      hide Commit, Keep, AfterCalls, Get, Valid, CallsOf, AnswersTo;
      ghost var s, start, all := Get(), callsLeft, CallsOf(posted);
      var results: seq<Answer> := [];
      NoCalls(s, clock);
      for i := 0 to |posted|
        invariant Valid()
        invariant Get() == AfterCalls(s, CallsOf(posted[..i]), clock)
        invariant callsLeft == start - |CallsOf(posted[..i])|
        invariant results == AnswersTo(s, posted[..i], clock)
      {
        OneMorePosted(s, posted, i, clock);
        ghost var done := CallsOf(posted[..i]);
        match posted[i] {
          case Undecodable(id) => if id != NO_ID { results := results + [Answer(id, Invalid)]; }
          case BadId => results := results + [Answer(NO_ID, Invalid)];
          case Decoded(e) =>
            ghost var left := Min(callsLeft, 2);
            var answer := Apply(e, clock);
            AfterAppend(s, done, CallsFor(posted[i])[..left], clock);
            if answer == None {
              PrefixCalls(posted, i + 1);
              assert all[..|done| + left] == done + CallsFor(posted[i])[..left];
              return None;
            }
            assert CallsFor(posted[i])[..2] == CallsFor(posted[i]);
            results := results + [Answer(e.id, answer.value)];
        }
      }
      assert posted[..|posted|] == posted;
      assert all[..|all|] == all;
      answers := Some(results);
    }
  }

  lemma AfterOne(s: Store, c: Call, clock: Id -> Time)
    ensures AfterCalls(s, [c], clock) == After(s, c, clock)
  {
    assert [c][1..] == [];
  }

  /** What one more posted event adds to the calls and the answers. */
  lemma OneMorePosted(s: Store, posted: seq<Posted>, i: nat, clock: Id -> Time)
    requires i < |posted|
    ensures CallsOf(posted[..i+1]) == CallsOf(posted[..i]) + CallsFor(posted[i])
    ensures CallsFor(posted[i]) == [] ==> CallsOf(posted[..i+1]) == CallsOf(posted[..i])
    ensures AnswersTo(s, posted[..i+1], clock)
         == AnswersTo(s, posted[..i], clock) + AnswerTo(AfterCalls(s, CallsOf(posted[..i]), clock), posted[i], clock)
  {
    PrefixOfPrefix(posted, i);
  }

  lemma TwoCalls(s: Store, e: FloorEvents.Event, clock: Id -> Time)
    ensures var calls := [Committing(e), Keeping(e)];
      && AfterCalls(s, calls[..0], clock) == s
      && AfterCalls(s, calls[..1], clock) == After(s, Committing(e), clock)
      && AfterCalls(s, calls[..2], clock) == After(After(s, Committing(e), clock), Keeping(e), clock)
  {
    hide Commit, Keep;
    var calls := [Committing(e), Keeping(e)];
    assert calls[..1] == [Committing(e)] && calls[..2] == [Committing(e)] + [Keeping(e)];
    AfterOne(s, Committing(e), clock);
    AfterOne(After(s, Committing(e), clock), Keeping(e), clock);
    AfterAppend(s, [Committing(e)], [Keeping(e)], clock);
  }

  lemma NoCalls(s: Store, clock: Id -> Time)
    ensures AfterCalls(s, CallsOf([]), clock) == s && CallsOf([]) == [] && AnswersTo(s, [], clock) == []
  {
  }

  lemma {:induction false} PrefixCalls(posted: seq<Posted>, i: nat)
    requires i <= |posted|
    ensures CallsOf(posted[..i]) <= CallsOf(posted)
  {
    if i < |posted| {
      PrefixCalls(posted[..|posted|-1], i);
      assert posted[..|posted|-1][..i] == posted[..i];
    } else {
      assert posted[..i] == posted;
    }
  }
}
