/** What each method does to an order: where a transition leads, what a report changes, and what a failed delivery undoes. */
module OrderMoves {
  import opened Options
  import opened Sequences
  import opened Orders
  import opened OrderLife

  // --- a new order ------------------------------------------------------------------------------

  /** An order is made exactly of a complete input whose money adds up; otherwise the first of the causes is reported. */
  lemma WhyAnOrderIsRefused(input: NewOrderInput)
    ensures var why := Refusal(input);
      && (why == None <==>
            && input.tenant != NO_ID && input.location != NO_ID && input.source != "" && input.sourceEventId != ""
            && input.items != [] && input.currency != "" && input.placedAt.Some? && Reconciles(input.money))
      && (why.Some? ==>
            match why.value
            case TenantRequired => input.tenant == NO_ID
            case LocationRequired => input.location == NO_ID
            case SourceRequired => input.source == ""
            case SourceEventRequired => input.sourceEventId == ""
            case EmptyItems => input.items == []
            case CurrencyRequired => input.currency == ""
            case PlacedAtZero => input.placedAt == None
            case TotalMismatch => !Reconciles(input.money))
  {
    hide Reconciles;
  }

  // --- the lifecycle ----------------------------------------------------------------------------

  /** The way from receiving an order to completing it that staff can take. */
  const PATH := [Received, Validated, Accepted, Preparing, Ready, Completed]

  /** The floor counts two more statuses: an order waiting for its time, and one on the road. */
  const FLOOR_PATH := [Received, Validated, Scheduled, Accepted, Preparing, Ready, OnDelivery, Completed]

  /** One step along the way, a rejection before the order is accepted, or a cancellation, with a reason, after. */
  ghost predicate CanMove(from: Status, to: Status, reason: Reason) {
    || (exists i :: 0 <= i < |PATH| - 1 && PATH[i] == from && PATH[i+1] == to)
    || (to == Rejected && from in {Received, Validated})
    || (to == Cancelled && from in {Accepted, Preparing, Ready} && reason != NoReason)
  }

  lemma StepsAlong(from: Status, to: Status)
    ensures (exists i :: 0 <= i < |PATH| - 1 && PATH[i] == from && PATH[i+1] == to)
       <==> (from, to) in {(Received, Validated), (Validated, Accepted), (Accepted, Preparing), (Preparing, Ready),
                           (Ready, Completed)}
  {
    assert PATH[0] == Received && PATH[1] == Validated && PATH[2] == Accepted && PATH[3] == Preparing && PATH[4] == Ready
           && PATH[5] == Completed;
  }

  /** A transition is taken exactly when the lifecycle has it; if not, the first of three reasons is given. */
  lemma WhereATransitionLeads(l: Life, to: Status, actor: Actor, reason: Reason, now: Time)
    ensures var (next, error) := Transitioned(l, to, actor, reason, now);
      && (error == None <==> CanMove(l.status, to, reason))
      && (error == None ==>
            && next.status == to && next.updatedAt == now
            && next.history == l.history + [StatusEvent(Some(l.status), to, now, actor, reason)]
            && next.events == l.events + [StatusChanged(l.status, to, actor, reason,
                                                        Snapshot(to, next.kitchen, next.readyAt, next.driver))]
            && next.kitchen == l.kitchen && next.readyAt == l.readyAt && next.driver == l.driver
            && next.floorAt == l.floorAt)
      && (error != None ==> next == l)
      && (error == Some(TerminalState) <==> l.status in {Completed, Rejected, Cancelled})
      && (error == Some(ReasonRequired) <==>
            to == Cancelled && reason == NoReason && l.status in {Accepted, Preparing, Ready})
  {
    StepsAlong(l.status, to);
  }

  /** The statuses a history has come through. */
  function Through(history: seq<StatusEvent>): (r: seq<Status>)
    ensures |r| == |history|
  {
    seq(|history|, i requires 0 <= i < |history| => history[i].to)
  }

  /** So far along the way, having come through every status before and nothing else. */
  ghost predicate OnTheWay(l: Life) {
    exists k :: 0 <= k < |PATH| && l.status == PATH[k] && Through(l.history) == PATH[..k+1]
  }

  /** By transitions alone, an order on the way has come through every status before its own, and through nothing else. */
  lemma {:induction false} TransitionsGoTheWholeWay(now: Time, steps: seq<Step>)
    requires forall s <- steps :: s.Transit?
    ensures var l := Run(NewLife(now), steps);
      l.status !in {Rejected, Cancelled} ==> OnTheWay(l)
  {
    hide StepResult;
    if steps == [] {
      assert Through(NewLife(now).history) == PATH[..1] && NewLife(now).status == PATH[0];
    } else {
      var init, s := steps[..|steps|-1], steps[|steps|-1];
      assert s in steps;
      TransitionsGoTheWholeWay(now, init);
      OneTransitionMore(Run(NewLife(now), init), s.to, s.actor, s.reason, s.now);
      assert StepResult(Run(NewLife(now), init), s).0 == Transitioned(Run(NewLife(now), init), s.to, s.actor, s.reason, s.now).0
        by { ATransitionStep(Run(NewLife(now), init), s); }
    }
  }

  lemma ATransitionStep(l: Life, s: Step)
    requires s.Transit?
    ensures StepResult(l, s).0 == Transitioned(l, s.to, s.actor, s.reason, s.now).0
  {
    hide Transitioned;
  }

  lemma OneTransitionMore(l: Life, to: Status, actor: Actor, reason: Reason, now: Time)
    requires l.status !in {Rejected, Cancelled} ==> OnTheWay(l)
    ensures var next := Transitioned(l, to, actor, reason, now).0;
      next.status !in {Rejected, Cancelled} ==> OnTheWay(next)
  {
    hide Transitioned, OnTheWay;
    WhereATransitionLeads(l, to, actor, reason, now);
    var (next, error) := Transitioned(l, to, actor, reason, now);
    if error == None && to !in {Rejected, Cancelled} {
      OneFurther(l, next);
    }
  }

  lemma OneFurther(l: Life, next: Life)
    requires OnTheWay(l) && exists i :: 0 <= i < |PATH| - 1 && PATH[i] == l.status && PATH[i+1] == next.status
    requires |next.history| == |l.history| + 1 && next.history[..|l.history|] == l.history
    requires next.history[|l.history|].to == next.status
    ensures OnTheWay(next)
  {
    var i :| 0 <= i < |PATH| - 1 && PATH[i] == l.status && PATH[i+1] == next.status;
    var k :| 0 <= k < |PATH| && l.status == PATH[k] && Through(l.history) == PATH[..k+1];
    DistinctSteps(i, k);
    assert next.history == l.history + [next.history[|l.history|]];
    assert Through(next.history) == Through(l.history) + [next.status];
    assert PATH[..k+2] == PATH[..k+1] + [PATH[k+1]];
  }

  lemma DistinctSteps(i: int, k: int)
    requires 0 <= i < |PATH| && 0 <= k < |PATH| && PATH[i] == PATH[k]
    ensures i == k
  {
    assert PATH[0] == Received && PATH[1] == Validated && PATH[2] == Accepted && PATH[3] == Preparing && PATH[4] == Ready
           && PATH[5] == Completed;
  }

  /** The floor ranks the statuses as an order comes to them; rejected and cancelled are below them all. */
  lemma RanksFollowTheWay(s: Status, t: Status)
    ensures Rank(s) < Rank(t) <==>
      || (exists i, j :: 0 <= i < j < |FLOOR_PATH| && FLOOR_PATH[i] == s && FLOOR_PATH[j] == t)
      || (s in {Rejected, Cancelled} && t !in {Rejected, Cancelled})
    ensures FloorRank(s).Some? <==> s !in {Rejected, Cancelled}
  {
    assert FLOOR_PATH[0] == Received && FLOOR_PATH[1] == Validated && FLOOR_PATH[2] == Scheduled && FLOOR_PATH[3] == Accepted;
    assert FLOOR_PATH[4] == Preparing && FLOOR_PATH[5] == Ready && FLOOR_PATH[6] == OnDelivery && FLOOR_PATH[7] == Completed;
    assert Rank(s) >= 0 ==> FLOOR_PATH[Rank(s)] == s;
    assert Rank(t) >= 0 ==> FLOOR_PATH[Rank(t)] == t;
  }

  // --- a floor report -----------------------------------------------------------------------------

  /** When a report was made: at the time it gives, or when it is read. */
  function Made(at: Option<Time>, now: Time): Time {
    if at.Some? then at.value else now
  }

  /**
   * A report moves an order forward only; whatever it says of kitchen, estimate and driver counts unless a newer report
   * has come, and what it leaves out stays. It is applied exactly when something shows.
   */
  lemma WhatAReportDoes(l: Life, u: FloorUpdate, now: Time)
    requires u.status != Cancelled && l.status !in {Rejected, Cancelled}
    ensures var (next, result) := FloorUpdated(l, u, now);
      var at := Made(u.at, now);
      var late := l.floorAt.Some? && l.floorAt.value > at;
      && next.status == (if Rank(u.status) > Rank(l.status) then u.status else l.status)
      && next.history == l.history + (if Rank(u.status) > Rank(l.status)
           then [StatusEvent(Some(l.status), u.status, at, Agent, if u.auto then AutoFinished else Floor)] else [])
      && next.kitchen == (if late || u.kitchen == None then l.kitchen else u.kitchen)
      && next.readyAt == (if late || u.readyAt == None then l.readyAt else u.readyAt)
      && next.driver == (if late || u.driver == NO_ID then l.driver else u.driver)
      && next.floorAt == (if late then l.floorAt else Some(at))
      && result == (if SnapshotOf(next) != SnapshotOf(l) then Applied else Stale)
      && next.events == l.events + (if result == Applied
           then [StatusChanged(l.status, next.status, Agent, NoReason, SnapshotOf(next))] else [])
      && next.updatedAt == (if result == Applied then now else l.updatedAt)
  {
    hide FloorRank;
    assert FloorRank(l.status).Some? by { RanksFollowTheWay(l.status, l.status); }
  }

  /** The floor can cancel an order only while it waits to be accepted, and can do nothing to a dead one. */
  lemma WhatAFloorCancelDoes(l: Life, u: FloorUpdate, now: Time)
    requires u.status == Cancelled || l.status in {Rejected, Cancelled}
    ensures var (next, result) := FloorUpdated(l, u, now);
      && (result == Applied <==> l.status in {Received, Validated, Scheduled})
      && (result == Applied ==>
            && next == l.(status := Cancelled, history := next.history, events := next.events, updatedAt := now)
            && next.history == l.history + [StatusEvent(Some(l.status), Cancelled, Made(u.at, now), Agent, NotAccepted)]
            && next.events == l.events + [StatusChanged(l.status, Cancelled, Agent, NotAccepted, SnapshotOf(next))])
      && (result != Applied ==> result == Stale && next == l)
  {
  }

  // --- a failed delivery ----------------------------------------------------------------------------

  /** Is the event older than the newest one applied? */
  predicate Late(l: Life, u: NotDelivered, now: Time) {
    l.floorAt.Some? && Made(u.at, now) < l.floorAt.value
  }

  /**
   * An order that came back to go out again: ready, without its driver, all else as it was. This is for orders on the road,
   * ones already counted as completed, and ready ones that still name a driver.
   */
  lemma WhatARetryDoes(l: Life, u: NotDelivered, now: Time)
    requires u.action == Retry
    ensures var (next, result) := NotDeliveredApplied(l, u, now);
      && (result == Applied <==>
            !Late(l, u, now) && (l.status in {OnDelivery, Completed} || (l.status == Ready && l.driver != NO_ID)))
      && (result == Applied ==>
            && next == l.(status := Ready, driver := NO_ID, floorAt := Some(Made(u.at, now)), updatedAt := now,
                          history := next.history, events := next.events)
            && next.history == l.history + (if l.status == Ready then []
                 else [StatusEvent(Some(l.status), Ready, Made(u.at, now), Agent, CameBack)])
            && |next.events| == |l.events| + 1 && next.events[|l.events|].snapshot == SnapshotOf(next))
      && (result != Applied ==> result == Stale && next == l)
  {
  }

  /** One that came back for good: cancelled, without its driver. This is for ready orders too. */
  lemma WhatACancelDoes(l: Life, u: NotDelivered, now: Time)
    requires u.action == Cancel
    ensures var (next, result) := NotDeliveredApplied(l, u, now);
      && (result == Applied <==> !Late(l, u, now) && l.status in {Ready, OnDelivery, Completed})
      && (result == Applied ==>
            && next == l.(status := Cancelled, driver := NO_ID, floorAt := Some(Made(u.at, now)), updatedAt := now,
                          history := next.history, events := next.events)
            && next.history == l.history + [StatusEvent(Some(l.status), Cancelled, Made(u.at, now), Agent,
                                                        if u.auto then NotSentAgain else CameBackCancelled)]
            && |next.events| == |l.events| + 1 && next.events[|l.events|].snapshot == SnapshotOf(next))
      && (result != Applied ==> result == Stale && next == l)
  {
  }

  lemma NoOtherReturnApplies(l: Life, u: NotDelivered, now: Time)
    requires u.action == OtherAction
    ensures NotDeliveredApplied(l, u, now) == (l, Stale)
  {
  }

  /** After a retry the order goes out again: any report of it on the road is applied, whatever its time. */
  lemma ARetriedOrderGoesOutAgain(l: Life, u: NotDelivered, now: Time, out: FloorUpdate, later: Time)
    requires u.action == Retry && NotDeliveredApplied(l, u, now).1 == Applied && out.status == OnDelivery
    ensures var (next, result) := FloorUpdated(NotDeliveredApplied(l, u, now).0, out, later);
      && result == Applied && next.status == OnDelivery
      && (Made(out.at, later) >= Made(u.at, now) && out.driver != NO_ID ==> next.driver == out.driver)
  {
    WhatARetryDoes(l, u, now);
    hide NotDeliveredApplied, FloorUpdated;
    WhatAReportDoes(NotDeliveredApplied(l, u, now).0, out, later);
    RanksFollowTheWay(Ready, OnDelivery);
    assert FLOOR_PATH[5] == Ready && FLOOR_PATH[6] == OnDelivery;
  }

  /** And after a cancellation nothing brings it back. */
  lemma ACancelledReturnIsFinal(l: Life, u: NotDelivered, now: Time, steps: seq<Step>)
    requires u.action == Cancel && NotDeliveredApplied(l, u, now).1 == Applied
    ensures Run(NotDeliveredApplied(l, u, now).0, steps) == NotDeliveredApplied(l, u, now).0
  {
    WhatACancelDoes(l, u, now);
    hide NotDeliveredApplied;
    DeadStaysDead(NotDeliveredApplied(l, u, now).0, steps);
  }
}
