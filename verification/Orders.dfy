/** The order aggregate: the money it is accepted with, its lifecycle, and what the restaurant's floor reports about it. */
module Orders {
  import opened Options
  import opened Sequences

  /** Instants, in any fixed unit. */
  type Time = int

  // --- money ---------------------------------------------------------------------------

  datatype Fee = Fee(kind: string, title: string, amount: int)

  datatype PriceCut = PriceCut(kind: string, code: string, title: string, amount: int)

  datatype MoneyBreakdown = MoneyBreakdown(
    subtotal: int, tax: int, tip: int, fees: seq<Fee>, discounts: seq<PriceCut>, total: int)

  /** An order line, its options below it; route is the id its kitchen routing goes by. */
  datatype LineItem = LineItem(
    position: nat, name: string, size: string, quantity: int, unitPrice: int, lineTotal: int, notes: string,
    children: seq<LineItem>, route: Id)

  function FeeAmounts(fees: seq<Fee>): seq<int> {
    seq(|fees|, i requires 0 <= i < |fees| => fees[i].amount)
  }

  function CutAmounts(cuts: seq<PriceCut>): seq<int> {
    seq(|cuts|, i requires 0 <= i < |cuts| => cuts[i].amount)
  }

  /** What a breakdown's parts come to. */
  function Expected(m: MoneyBreakdown): int {
    m.subtotal + m.tax + m.tip + Sum(FeeAmounts(m.fees)) - Sum(CutAmounts(m.discounts))
  }

  /** A breakdown adds up, a cent's difference allowed. */
  predicate Reconciles(m: MoneyBreakdown) {
    -1 <= m.total - Expected(m) <= 1
  }

  method MoneyReconciles(m: MoneyBreakdown) returns (ok: bool)
    ensures ok == Reconciles(m)
  {
    var fees := 0;
    for i := 0 to |m.fees|
      invariant fees == Sum(FeeAmounts(m.fees[..i]))
    {
      assert FeeAmounts(m.fees[..i+1]) == FeeAmounts(m.fees[..i]) + [m.fees[i].amount];
      SumAppend(FeeAmounts(m.fees[..i]), [m.fees[i].amount]);
      fees := fees + m.fees[i].amount;
    }
    assert m.fees[..|m.fees|] == m.fees;
    var cuts := 0;
    for i := 0 to |m.discounts|
      invariant cuts == Sum(CutAmounts(m.discounts[..i]))
    {
      assert CutAmounts(m.discounts[..i+1]) == CutAmounts(m.discounts[..i]) + [m.discounts[i].amount];
      SumAppend(CutAmounts(m.discounts[..i]), [m.discounts[i].amount]);
      cuts := cuts + m.discounts[i].amount;
    }
    assert m.discounts[..|m.discounts|] == m.discounts;
    var diff := m.total - (m.subtotal + m.tax + m.tip + fees - cuts);
    if diff < 0 { diff := -diff; }
    return diff <= 1;
  }

  // --- lifecycle -----------------------------------------------------------------------

  datatype Status =
    | Received | Validated | Scheduled | Accepted | Preparing | Ready | OnDelivery | Completed | Rejected | Cancelled

  predicate ValidTransition(from: Status, to: Status) {
    match from
    case Received => to == Validated || to == Rejected
    case Validated => to == Accepted || to == Rejected
    case Accepted => to == Preparing || to == Cancelled
    case Preparing => to == Ready || to == Cancelled
    case Ready => to == Completed || to == Cancelled
    case _ => false
  }

  predicate Terminal(s: Status) {
    s == Completed || s == Rejected || s == Cancelled
  }

  /** The floor's order of the lifecycle; rejected and cancelled have no place in it. */
  function FloorRank(s: Status): Option<nat> {
    match s
    case Received => Some(0)
    case Validated => Some(1)
    case Scheduled => Some(2)
    case Accepted => Some(3)
    case Preparing => Some(4)
    case Ready => Some(5)
    case OnDelivery => Some(6)
    case Completed => Some(7)
    case _ => None
  }

  /** Rank for comparing: -1 for the two statuses outside the order. */
  function Rank(s: Status): int {
    match FloorRank(s)
    case None => -1
    case Some(r) => r
  }

  datatype Actor = System | Agent | Person(id: Id)

  /** Why a status changed; Given is a reason someone gave. Drivers' names compare only for equality, so they are ids. */
  datatype Reason =
    | NoReason | Floor | AutoFinished | NotAccepted | CameBack | CameBackCancelled | NotSentAgain | Given(text: string)

  /** One step of an order's history (from is None for its first). */
  datatype StatusEvent = StatusEvent(from: Option<Status>, to: Status, at: Time, actor: Actor, reason: Reason)

  /** The parts of an order's snapshot that change over its life. */
  datatype Snapshot = Snapshot(status: Status, kitchen: Option<int>, readyAt: Option<Time>, driver: Id)

  datatype Event =
    | ReceivedEvent(snapshot: Snapshot)
    | StatusChanged(from: Status, to: Status, actor: Actor, reason: Reason, snapshot: Snapshot)

  /** What an order's methods read and write. */
  datatype Life = Life(
    status: Status, history: seq<StatusEvent>, kitchen: Option<int>, readyAt: Option<Time>, driver: Id,
    floorAt: Option<Time>, updatedAt: Time, events: seq<Event>)

  function SnapshotOf(l: Life): Snapshot {
    Snapshot(l.status, l.kitchen, l.readyAt, l.driver)
  }

  /** Moves to a status, noting the step. */
  function MoveTo(l: Life, to: Status, at: Time, actor: Actor, reason: Reason): Life {
    l.(status := to, history := l.history + [StatusEvent(Some(l.status), to, at, actor, reason)])
  }

  /** Stamps the change and records one event with the order as it now is. */
  function Record(l: Life, from: Status, actor: Actor, reason: Reason, now: Time): Life {
    l.(updatedAt := now, events := l.events + [StatusChanged(from, l.status, actor, reason, SnapshotOf(l))])
  }

  function NewLife(now: Time): Life {
    var l := Life(Received, [StatusEvent(None, Received, now, System, NoReason)], None, None, NO_ID, None, now, []);
    l.(events := [ReceivedEvent(SnapshotOf(l))])
  }

  datatype TransitionError = TerminalState | InvalidTransition | ReasonRequired

  function Transitioned(l: Life, to: Status, actor: Actor, reason: Reason, now: Time): (Life, Option<TransitionError>) {
    if Terminal(l.status) then (l, Some(TerminalState))
    else if !ValidTransition(l.status, to) then (l, Some(InvalidTransition))
    else if to == Cancelled && reason == NoReason then (l, Some(ReasonRequired))
    else (Record(MoveTo(l, to, now, actor, reason), l.status, actor, reason, now), None)
  }

  // --- the floor -----------------------------------------------------------------------

  datatype FloorResult = Applied | Duplicate | Stale | NotFound | Invalid

  /** One change the agent reports. at: None when it sent no time; driver NO_ID = none named. */
  datatype FloorUpdate =
    FloorUpdate(status: Status, kitchen: Option<int>, readyAt: Option<Time>, driver: Id, at: Option<Time>, auto: bool)

  function At(at: Option<Time>, now: Time): Time {
    match at
    case None => now
    case Some(t) => t
  }

  function FloorCancelled(l: Life, u: FloorUpdate, now: Time): (Life, FloorResult) {
    if l.status != Received && l.status != Validated && l.status != Scheduled then (l, Stale)
    else (Record(MoveTo(l, Cancelled, At(u.at, now), Agent, NotAccepted), l.status, Agent, NotAccepted, now), Applied)
  }

  /** Forward only: the update's status when it ranks above the order's. */
  function Advanced(l: Life, u: FloorUpdate, at: Time): Life {
    if FloorRank(l.status).Some? && Rank(u.status) > Rank(l.status)
    then MoveTo(l, u.status, at, Agent, if u.auto then AutoFinished else Floor)
    else l
  }

  predicate OlderThan(at: Time, floorAt: Option<Time>) {
    floorAt.Some? && at < floorAt.value
  }

  /** The fields after an update that is not out of date. */
  function Mirrored(l: Life, u: FloorUpdate, at: Time): Life {
    l.(floorAt := Some(at),
       kitchen := if u.kitchen.Some? then u.kitchen else l.kitchen,
       readyAt := if u.readyAt.Some? then u.readyAt else l.readyAt,
       driver := if u.driver != NO_ID then u.driver else l.driver)
  }

  function FloorUpdated(l: Life, u: FloorUpdate, now: Time): (Life, FloorResult) {
    if u.status == Cancelled then FloorCancelled(l, u, now)
    else if FloorRank(l.status).None? then (l, Stale)
    else
      var at := At(u.at, now);
      var moved := Advanced(l, u, at);
      var next := if OlderThan(at, l.floorAt) then moved else Mirrored(moved, u, at);
      if SnapshotOf(next) == SnapshotOf(l) then (next, Stale)
      else (Record(next, l.status, Agent, NoReason, now), Applied)
  }

  datatype Action = Retry | Cancel | OtherAction

  datatype NotDelivered = NotDelivered(action: Action, at: Option<Time>, auto: bool)

  /** Where an undelivered order goes, with the reason noted (None: the event is stale). */
  function ReturnTo(l: Life, u: NotDelivered): Option<(Status, Reason)> {
    match u.action
    case Retry =>
      if l.status == OnDelivery || l.status == Completed then
        Some((Ready, CameBack))
      else if l.status == Ready && l.driver != NO_ID then Some((Ready, NoReason))
      else None
    case Cancel =>
      if l.status != Ready && l.status != OnDelivery && l.status != Completed then None
      else Some((Cancelled,
                 if u.auto then NotSentAgain else CameBackCancelled))
    case OtherAction => None
  }

  function NotDeliveredApplied(l: Life, u: NotDelivered, now: Time): (Life, FloorResult) {
    var at := At(u.at, now);
    if OlderThan(at, l.floorAt) then (l, Stale)
    else
      match ReturnTo(l, u)
      case None => (l, Stale)
      case Some((to, reason)) =>
        var moved := if to != l.status then MoveTo(l, to, at, Agent, reason) else l;
        (Record(moved.(driver := NO_ID, floorAt := Some(at)), l.status, Agent, reason, now), Applied)
  }

  // --- the aggregate -------------------------------------------------------------------

  datatype OrderError =
    | TenantRequired | LocationRequired | SourceRequired | SourceEventRequired | EmptyItems | CurrencyRequired
    | PlacedAtZero | TotalMismatch

  /** What an order is made from. Ids are NO_ID and texts "" when absent; placedAt None is the zero time. */
  datatype NewOrderInput = NewOrderInput(
    tenant: Id, location: Id, source: string, sourceEventId: string, items: seq<LineItem>, money: MoneyBreakdown,
    currency: string, placedAt: Option<Time>)

  /** Why an input makes no order (None: it makes one). The first failing check is the one reported. */
  function Refusal(in_: NewOrderInput): Option<OrderError> {
    if in_.tenant == NO_ID then Some(TenantRequired)
    else if in_.location == NO_ID then Some(LocationRequired)
    else if in_.source == "" then Some(SourceRequired)
    else if in_.sourceEventId == "" then Some(SourceEventRequired)
    else if in_.items == [] then Some(EmptyItems)
    else if in_.currency == "" then Some(CurrencyRequired)
    else if in_.placedAt == None then Some(PlacedAtZero)
    else if !Reconciles(in_.money) then Some(TotalMismatch)
    else None
  }

  class Order {
    const input: NewOrderInput
    var status: Status
    var history: seq<StatusEvent>
    var kitchen: Option<int>
    var readyAt: Option<Time>
    var driver: Id
    var floorAt: Option<Time>
    var updatedAt: Time
    var events: seq<Event>

    function Get(): Life
      reads this
    {
      Life(status, history, kitchen, readyAt, driver, floorAt, updatedAt, events)
    }

    constructor Make(in_: NewOrderInput, now: Time)
      ensures input == in_ && Get() == NewLife(now)
    {
      input := in_;
      status, history := Received, [StatusEvent(None, Received, now, System, NoReason)];
      kitchen, readyAt, driver, floorAt, updatedAt := None, None, NO_ID, None, now;
      events := [ReceivedEvent(Snapshot(Received, None, None, NO_ID))];
    }

    /** An order as the repository kept it. */
    constructor Rehydrate(in_: NewOrderInput, l: Life)
      ensures input == in_ && Get() == l
    {
      input := in_;
      status, history, kitchen, readyAt, driver := l.status, l.history, l.kitchen, l.readyAt, l.driver;
      floorAt, updatedAt, events := l.floorAt, l.updatedAt, l.events;
    }

    /** Accepts an input as a new order, or says why not. */
    static method New(in_: NewOrderInput, now: Time) returns (o: Order?, refused: Option<OrderError>)
      ensures refused == Refusal(in_) && (o == null <==> refused.Some?)
      ensures o != null ==> fresh(o) && o.input == in_ && o.Get() == NewLife(now)
    {
      o := null;
      if in_.tenant == NO_ID { return null, Some(TenantRequired); }
      if in_.location == NO_ID { return null, Some(LocationRequired); }
      if in_.source == "" { return null, Some(SourceRequired); }
      if in_.sourceEventId == "" { return null, Some(SourceEventRequired); }
      if |in_.items| == 0 { return null, Some(EmptyItems); }
      if in_.currency == "" { return null, Some(CurrencyRequired); }
      if in_.placedAt == None { return null, Some(PlacedAtZero); }
      var ok := MoneyReconciles(in_.money);
      if !ok { return null, Some(TotalMismatch); }
      o := new Order.Make(in_, now);
      refused := None;
    }

    lemma StatusOf()
      ensures Get().status == status && Get().floorAt == floorAt
    {
    }

    method RecordChange(from: Status, actor: Actor, reason: Reason, now: Time)
      modifies this`updatedAt, this`events
      ensures Get() == Record(old(Get()), from, actor, reason, now)
    {
      updatedAt := now;
      events := events + [StatusChanged(from, status, actor, reason, Snapshot(status, kitchen, readyAt, driver))];
    }

    method Move(to: Status, at: Time, actor: Actor, reason: Reason)
      modifies this`status, this`history
      ensures Get() == MoveTo(old(Get()), to, at, actor, reason)
    {
      history := history + [StatusEvent(Some(status), to, at, actor, reason)];
      status := to;
    }

    method Transition(to: Status, actor: Actor, reason: Reason, now: Time) returns (error: Option<TransitionError>)
      modifies this
      ensures (Get(), error) == Transitioned(old(Get()), to, actor, reason, now)
    {
      hide Record, MoveTo, ValidTransition, Terminal, Get;
      ghost var l := Get();
      assert status == l.status by { StatusOf(); }
      if Terminal(status) { return Some(TerminalState); }
      if !ValidTransition(status, to) { return Some(InvalidTransition); }
      if to == Cancelled && reason == NoReason { return Some(ReasonRequired); }
      var from := status;
      Move(to, now, actor, reason);
      RecordChange(from, actor, reason, now);
      return None;
    }

    method ApplyFloorUpdate(u: FloorUpdate, now: Time) returns (result: FloorResult)
      modifies this
      ensures (Get(), result) == FloorUpdated(old(Get()), u, now)
    {
      if u.status == Cancelled {
        result := ApplyFloorCancel(u, now);
        return;
      }
      hide Record, Mirrored, MoveTo, FloorCancelled, FloorRank, Get;
      ghost var l := Get();
      assert status == l.status && floorAt == l.floorAt by { StatusOf(); }
      var changed := false;
      var from := status;
      var cur, next := FloorRank(status), FloorRank(u.status);
      var at := At(u.at, now);
      if cur.Some? && next.Some? && next.value > cur.value {
        Move(u.status, at, Agent, if u.auto then AutoFinished else Floor);
        changed := true;
      }
      if cur == None { return Stale; }
      // Out of date: the fields stay.
      if floorAt.Some? && at < floorAt.value {
        if !changed { return Stale; }
        RecordChange(from, Agent, NoReason, now);
        return Applied;
      }
      var mirrored := Mirror(u, at);
      if !changed && !mirrored { return Stale; }
      RecordChange(from, Agent, NoReason, now);
      return Applied;
    }

    /** Copies an up-to-date update's fields and reports any difference. */
    method Mirror(u: FloorUpdate, at: Time) returns (changed: bool)
      requires !OlderThan(at, floorAt)
      modifies this`kitchen, this`readyAt, this`driver, this`floorAt
      ensures Get() == Mirrored(old(Get()), u, at)
      ensures changed <==> SnapshotOf(Get()) != SnapshotOf(old(Get()))
    {
      changed := false;
      if floorAt == None || at > floorAt.value { floorAt := Some(at); }
      if u.kitchen.Some? && kitchen != u.kitchen {
        kitchen, changed := u.kitchen, true;
      }
      if u.readyAt.Some? && readyAt != u.readyAt {
        readyAt, changed := u.readyAt, true;
      }
      if u.driver != NO_ID && u.driver != driver {
        driver, changed := u.driver, true;
      }
    }

    /** A cancel from the floor works on orders that are still waiting to be accepted. */
    method ApplyFloorCancel(u: FloorUpdate, now: Time) returns (result: FloorResult)
      modifies this
      ensures (Get(), result) == FloorCancelled(old(Get()), u, now)
    {
      if status != Received && status != Validated && status != Scheduled { return Stale; }
      var from := status;
      Move(Cancelled, At(u.at, now), Agent, NotAccepted);
      RecordChange(from, Agent, NotAccepted, now);
      return Applied;
    }

    /** The one report that can take an order back a step. */
    method ApplyNotDelivered(u: NotDelivered, now: Time) returns (result: FloorResult)
      modifies this
      ensures (Get(), result) == NotDeliveredApplied(old(Get()), u, now)
    {
      var at := At(u.at, now);
      if floorAt.Some? && at < floorAt.value { return Stale; }
      var from, to, reason := status, status, NoReason;
      match u.action {
        case Retry =>
          if status == OnDelivery || status == Completed {
            to, reason := Ready, CameBack;
          } else if status == Ready && driver != NO_ID {
            to := Ready;
          } else {
            return Stale;
          }
        case Cancel =>
          if status != Ready && status != OnDelivery && status != Completed { return Stale; }
          to, reason := Cancelled, CameBackCancelled;
          if u.auto { reason := NotSentAgain; }
        case OtherAction => return Stale;
      }
      if to != from { Move(to, at, Agent, reason); }
      driver := NO_ID;
      floorAt := Some(at);
      RecordChange(from, Agent, reason, now);
      return Applied;
    }
  }
}
