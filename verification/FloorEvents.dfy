/** What the agent's floor events do to what main keeps, one repository call at a time. */
module FloorEvents {
  import opened Options
  import opened Orders

  /** How an agent sees an order (opaque here), and the batch number it gives. */
  datatype AgentView = AgentView(status: Id, batch: Option<int>)

  datatype Driver = Driver(id: Id, name: Id, position: int, status: Id)

  datatype Shift = Shift(id: Id, driver: Id, clockIn: Time, clockOut: Option<Time>, autoOut: bool)

  datatype DeliveryRun = DeliveryRun(driver: Id, plan: Id, sent: seq<Id>, stops: seq<Id>, at: Time)

  /** What an event says; None marks a part the service finds malformed. */
  datatype Body =
    | StatusReport(order: Option<Id>, status: Option<Status>, kitchen: Option<int>, readyAt: Option<Time>, driver: Id,
                   auto: bool)
    | NotDeliveredReport(order: Option<Id>, action: Action, auto: bool)
    | Roster(drivers: Option<seq<Driver>>)
    | ShiftReport(shift: Option<Shift>)
    | RunReport(run: Option<DeliveryRun>)
    | UnknownBody

  datatype Event = Event(id: Id, body: Body, at: Option<Time>, agent: Option<AgentView>)

  /** An event as posted: one that cannot be decoded (NO_ID: not even its id), or one whose id is no id, or an event. */
  datatype Posted = Undecodable(id: Id) | BadId | Decoded(event: Event)

  /** The columns a new agent would be restored from. */
  datatype AgentRow = AgentRow(status: Option<Id>, at: Option<Time>, batch: Option<int>, acknowledged: bool)

  const NO_ROW := AgentRow(None, None, None, false)

  /** What main keeps for one location. */
  datatype Store = Store(
    orders: map<Id, Life>, seen: set<Id>, agents: map<Id, AgentRow>, drivers: seq<Driver>, shifts: map<Id, Shift>,
    runs: map<Id, DeliveryRun>)

  // --- one transaction: an event takes effect once -------------------------------------------

  function Mark(s: Store, id: Id, result: FloorResult): (Store, FloorResult) {
    if id in s.seen then (s, Duplicate) else (s.(seen := s.seen + {id}), result)
  }

  /** The order is locked, changed and written back only when the change applied and the event is new. */
  function Write(s: Store, id: Id, order: Id, next: Life, result: FloorResult): (Store, FloorResult) {
    if id in s.seen then (s, Duplicate)
    else (s.(seen := s.seen + {id}, orders := if result == Applied then s.orders[order := next] else s.orders), result)
  }

  function Commit(s: Store, e: Event, now: Time): (Store, FloorResult) {
    match e.body
    case StatusReport(order, status, kitchen, readyAt, driver, auto) =>
      if status == None || order == None then Mark(s, e.id, Invalid)
      else if order.value !in s.orders then Mark(s, e.id, NotFound)
      else
        var (next, result) := FloorUpdated(s.orders[order.value],
                                           FloorUpdate(status.value, kitchen, readyAt, driver, e.at, auto), now);
        Write(s, e.id, order.value, next, result)
    case NotDeliveredReport(order, action, auto) =>
      if order == None || action == OtherAction then Mark(s, e.id, Invalid)
      else if order.value !in s.orders then Mark(s, e.id, NotFound)
      else
        var (next, result) := NotDeliveredApplied(s.orders[order.value], NotDelivered(action, e.at, auto), now);
        Write(s, e.id, order.value, next, result)
    case Roster(drivers) =>
      if drivers == None then Mark(s, e.id, Invalid)
      else if e.id in s.seen then (s, Duplicate)
      else (s.(seen := s.seen + {e.id}, drivers := drivers.value), Applied)
    case ShiftReport(shift) =>
      if shift == None then Mark(s, e.id, Invalid)
      else if e.id in s.seen then (s, Duplicate)
      else (s.(seen := s.seen + {e.id}, shifts := s.shifts[shift.value.id := shift.value]), Applied)
    case RunReport(run) =>
      if run == None then Mark(s, e.id, Invalid)
      else if e.id in s.seen then (s, Duplicate)
      else (s.(seen := s.seen + {e.id}, runs := s.runs[e.id := run.value]), Applied)
    case UnknownBody => Mark(s, e.id, Invalid)
  }

  // --- the agent's status, kept beside the order ----------------------------------------------

  /** The order an event is about, when its status is kept at all. */
  function KeptFor(e: Event): (order: Option<Id>)
    ensures order.Some? ==> e.agent.Some? && e.at.Some?
  {
    if e.agent == None || e.at == None then None
    else
      match e.body
      case StatusReport(order, status, _, _, _, _) => if status == None then None else order
      case NotDeliveredReport(order, action, _) => if action == OtherAction then None else order
      case _ => None
  }

  /** The newest status wins, and of two sent at one time the later arrival; a batch is only ever replaced by another. */
  function Put(row: AgentRow, view: AgentView, at: Time): AgentRow {
    if row.at.Some? && at < row.at.value then row
    else AgentRow(Some(view.status), Some(at), if view.batch.Some? then view.batch else row.batch, true)
  }

  function RowOf(s: Store, order: Id): AgentRow {
    if order in s.agents then s.agents[order] else NO_ROW
  }

  function Keep(s: Store, e: Event): Store {
    match KeptFor(e)
    case None => s
    case Some(order) =>
      if order !in s.orders then s
      else s.(agents := s.agents[order := Put(RowOf(s, order), e.agent.value, e.at.value)])
  }

  // --- a POST, call by call --------------------------------------------------------------------

  /** One repository call: the event's transaction, or storing the agent's status. */
  datatype Call = Committing(event: Event) | Keeping(event: Event)

  function CallsOf(posted: seq<Posted>): seq<Call> {
    if posted == [] then [] else CallsOf(posted[..|posted|-1]) + CallsFor(posted[|posted|-1])
  }

  function CallsFor(p: Posted): seq<Call> {
    match p
    case Decoded(e) => [Committing(e), Keeping(e)]
    case _ => []
  }

  function After(s: Store, c: Call, clock: Id -> Time): Store {
    match c
    case Committing(e) => Commit(s, e, clock(e.id)).0
    case Keeping(e) => Keep(s, e)
  }

  /** What main keeps after some calls; clock is what the clock read when an event first took effect. */
  function AfterCalls(s: Store, calls: seq<Call>, clock: Id -> Time): Store
    decreases |calls|
  {
    if calls == [] then s else AfterCalls(After(s, calls[0], clock), calls[1..], clock)
  }

  // --- rerunning calls changes nothing ----------------------------------------------------------

  lemma {:induction false} AfterAppend(s: Store, a: seq<Call>, b: seq<Call>, clock: Id -> Time)
    ensures AfterCalls(s, a + b, clock) == AfterCalls(AfterCalls(s, a, clock), b, clock)
    decreases |a|
  {
    if a == [] {
      assert a + b == b;
    } else {
      assert (a + b)[1..] == a[1..] + b;
      AfterAppend(After(s, a[0], clock), a[1..], b, clock);
    }
  }

  /** Everything but the agent's statuses. */
  function Core(s: Store): Store {
    s.(agents := map[])
  }

  ghost predicate AllSeen(seen: set<Id>, calls: seq<Call>) {
    forall c :: c in calls && c.Committing? ==> c.event.id in seen
  }

  lemma CommitMarks(s: Store, e: Event, now: Time)
    ensures var (next, result) := Commit(s, e, now);
      && next.seen == s.seen + {e.id} && next.orders.Keys == s.orders.Keys && next.agents == s.agents
      && (e.id in s.seen ==> next == s && result == Duplicate)
  {
    hide FloorUpdated, NotDeliveredApplied;
  }

  lemma {:induction false} CallsMark(s: Store, calls: seq<Call>, clock: Id -> Time)
    ensures var r := AfterCalls(s, calls, clock);
      s.seen <= r.seen && AllSeen(r.seen, calls) && r.orders.Keys == s.orders.Keys
    decreases |calls|
  {
    hide Commit, Keep;
    if calls != [] {
      var c := calls[0];
      var next := After(s, c, clock);
      match c {
        case Committing(e) => CommitMarks(s, e, clock(e.id));
        case Keeping(e) => KeepKeeps(s, e);
      }
      CallsMark(next, calls[1..], clock);
      assert calls == [c] + calls[1..];
    }
  }

  lemma KeepKeeps(s: Store, e: Event)
    ensures Core(Keep(s, e)) == Core(s)
  {
  }

  /** Calls whose events were all seen move nothing but the agent's statuses. */
  lemma {:induction false} SeenCallsMoveNothing(s: Store, calls: seq<Call>, clock: Id -> Time)
    requires AllSeen(s.seen, calls)
    ensures Core(AfterCalls(s, calls, clock)) == Core(s)
    decreases |calls|
  {
    hide Commit, Keep;
    if calls != [] {
      match calls[0] {
        case Committing(e) => CommitMarks(s, e, clock(e.id));
        case Keeping(e) => KeepKeeps(s, e);
      }
      SeenCallsMoveNothing(After(s, calls[0], clock), calls[1..], clock);
    }
  }

  // --- the agent's row of one order ---------------------------------------------------------------

  function PutCall(row: AgentRow, c: Call, order: Id): AgentRow {
    if c.Keeping? && KeptFor(c.event) == Some(order) then Put(row, c.event.agent.value, c.event.at.value) else row
  }

  function PutCalls(row: AgentRow, calls: seq<Call>, order: Id): AgentRow
    decreases |calls|
  {
    if calls == [] then row else PutCalls(PutCall(row, calls[0], order), calls[1..], order)
  }

  lemma {:induction false} RowAfterCalls(s: Store, calls: seq<Call>, clock: Id -> Time, order: Id)
    ensures var r := AfterCalls(s, calls, clock);
      RowOf(r, order) == if order in s.orders then PutCalls(RowOf(s, order), calls, order) else RowOf(s, order)
    ensures order in AfterCalls(s, calls, clock).agents
      <==> order in s.agents || (order in s.orders && exists c :: c in calls && c.Keeping? && KeptFor(c.event) == Some(order))
    decreases |calls|
  {
    hide Commit, Put;
    if calls != [] {
      var c := calls[0];
      var next := After(s, c, clock);
      match c {
        case Committing(e) => CommitMarks(s, e, clock(e.id));
        case Keeping(e) =>
      }
      RowAfterCalls(next, calls[1..], clock, order);
      assert calls == [c] + calls[1..];
    }
  }

  /** Options of times, none before any. */
  predicate AtMost(a: Option<Time>, b: Option<Time>) {
    a.None? || (b.Some? && a.value <= b.value)
  }

  lemma {:induction false} RowsOnlyGetNewer(row: AgentRow, calls: seq<Call>, order: Id)
    ensures AtMost(row.at, PutCalls(row, calls, order).at)
    decreases |calls|
  {
    if calls != [] {
      RowsOnlyGetNewer(PutCall(row, calls[0], order), calls[1..], order);
    }
  }

  /** A row on its way to `end` a second time: still there, or back in step with the first pass but for the batch. */
  ghost predicate CatchingUp(first: AgentRow, second: AgentRow, end: AgentRow) {
    && second.at == end.at
    && (second == end
        || (first.at == end.at && second.status == first.status && second.acknowledged == first.acknowledged
            && (second.batch == first.batch || second.batch == end.batch)))
  }

  lemma {:induction false} CatchUp(first: AgentRow, second: AgentRow, calls: seq<Call>, order: Id)
    requires CatchingUp(first, second, PutCalls(first, calls, order))
    ensures PutCalls(second, calls, order) == PutCalls(first, calls, order)
    decreases |calls|
  {
    if calls != [] {
      var c := calls[0];
      RowsOnlyGetNewer(PutCall(first, c, order), calls[1..], order);
      RowsOnlyGetNewer(first, calls, order);
      CatchUp(PutCall(first, c, order), PutCall(second, c, order), calls[1..], order);
    }
  }

  lemma PuttingAgainChangesNothing(row: AgentRow, calls: seq<Call>, order: Id)
    ensures var end := PutCalls(row, calls, order); PutCalls(end, calls, order) == end
  {
    CatchUp(row, PutCalls(row, calls, order), calls, order);
  }

  /** Running the same calls again changes nothing. */
  lemma CallsAreIdempotent(s: Store, calls: seq<Call>, clock: Id -> Time)
    ensures var once := AfterCalls(s, calls, clock); AfterCalls(once, calls, clock) == once
  {
    var once := AfterCalls(s, calls, clock);
    var twice := AfterCalls(once, calls, clock);
    CallsMark(s, calls, clock);
    SeenCallsMoveNothing(once, calls, clock);
    forall order ensures (order in twice.agents <==> order in once.agents) && RowOf(twice, order) == RowOf(once, order) {
      RowAfterCalls(s, calls, clock, order);
      RowAfterCalls(once, calls, clock, order);
      PuttingAgainChangesNothing(RowOf(s, order), calls, order);
    }
    SameRows(twice, once);
  }

  lemma SameRows(a: Store, b: Store)
    requires Core(a) == Core(b)
    requires forall order :: (order in a.agents <==> order in b.agents) && RowOf(a, order) == RowOf(b, order)
    ensures a == b
  {
    assert a.agents.Keys == b.agents.Keys;
    forall order | order in a.agents ensures a.agents[order] == b.agents[order] {
      assert RowOf(a, order) == RowOf(b, order);
    }
  }

  /** A row keeps a status sent at the newest time of all that came, itself included: none of them is newer than it. */
  lemma {:induction false} TheNewestStatusIsKept(row: AgentRow, calls: seq<Call>, order: Id)
    ensures var end := PutCalls(row, calls, order);
      && (forall c :: c in calls && c.Keeping? && KeptFor(c.event) == Some(order) ==> AtMost(c.event.at, end.at))
      && (end == row
          || exists c :: c in calls && c.Keeping? && KeptFor(c.event) == Some(order)
                         && end.at == c.event.at && end.status == Some(c.event.agent.value.status))
    decreases |calls|
  {
    if calls != [] {
      var c, next := calls[0], PutCall(row, calls[0], order);
      TheNewestStatusIsKept(next, calls[1..], order);
      RowsOnlyGetNewer(next, calls[1..], order);
      assert calls == [c] + calls[1..];
    }
  }

  // --- exactly once, however often it is sent -------------------------------------------------------

  /** What main keeps after POSTs of the same calls, each failing after the given number of them. */
  function AfterAttempts(s: Store, calls: seq<Call>, attempts: seq<nat>, clock: Id -> Time): Store
    requires forall i :: 0 <= i < |attempts| ==> attempts[i] <= |calls|
    decreases |attempts|
  {
    if attempts == [] then s
    else AfterAttempts(AfterCalls(s, calls[..attempts[0]], clock), calls, attempts[1..], clock)
  }

  /**
   * However many POSTs of the same events fail, after whatever repository call (also between an event's transaction and
   * storing its agent status), the one that succeeds leaves main exactly as one clean pass would have.
   */
  lemma {:induction false} ResendingIsOneCleanPass(s: Store, calls: seq<Call>, attempts: seq<nat>, clock: Id -> Time)
    requires forall i :: 0 <= i < |attempts| ==> attempts[i] <= |calls|
    ensures AfterCalls(AfterAttempts(s, calls, attempts, clock), calls, clock) == AfterCalls(s, calls, clock)
    decreases |attempts|
  {
    if attempts != [] {
      var p, rest := calls[..attempts[0]], calls[attempts[0]..];
      var after := AfterCalls(s, p, clock);
      ResendingIsOneCleanPass(after, calls, attempts[1..], clock);
      assert calls == p + rest;
      AfterAppend(after, p, rest, clock);
      CallsAreIdempotent(s, p, clock);
      AfterAppend(s, p, rest, clock);
    }
  }

  // --- the answers ------------------------------------------------------------------------------------

  datatype Answer = Answer(event: Id, result: FloorResult)

  function AnswerTo(s: Store, p: Posted, clock: Id -> Time): seq<Answer> {
    match p
    case Undecodable(id) => if id == NO_ID then [] else [Answer(id, Invalid)]
    case BadId => [Answer(NO_ID, Invalid)]
    case Decoded(e) => [Answer(e.id, Commit(s, e, clock(e.id)).1)]
  }

  /** What a POST that succeeds answers, event by event. */
  function AnswersTo(s: Store, posted: seq<Posted>, clock: Id -> Time): seq<Answer>
    decreases |posted|
  {
    if posted == [] then []
    else
      var before := posted[..|posted|-1];
      AnswersTo(s, before, clock) + AnswerTo(AfterCalls(s, CallsOf(before), clock), posted[|posted|-1], clock)
  }

  lemma {:induction false} CallsAreOfEvents(posted: seq<Posted>, e: Event)
    ensures Committing(e) in CallsOf(posted) <==> Decoded(e) in posted
  {
    if posted != [] {
      CallsAreOfEvents(posted[..|posted|-1], e);
      assert posted == posted[..|posted|-1] + [posted[|posted|-1]];
    }
  }

  /** What a batch posted again is answered: duplicate for every event read, invalid for the rest that can be answered. */
  function RepostAnswers(posted: seq<Posted>): seq<Answer> {
    if posted == [] then []
    else
      RepostAnswers(posted[..|posted|-1])
      + match posted[|posted|-1]
        case Undecodable(id) => if id == NO_ID then [] else [Answer(id, Invalid)]
        case BadId => [Answer(NO_ID, Invalid)]
        case Decoded(e) => [Answer(e.id, Duplicate)]
  }

  /** Posting a whole batch again answers duplicate to every event that was read, and invalid only where none was. */
  lemma RepostingAnswersDuplicate(s: Store, posted: seq<Posted>, clock: Id -> Time)
    ensures AnswersTo(AfterCalls(s, CallsOf(posted), clock), posted, clock) == RepostAnswers(posted)
  {
    assert posted[..|posted|] == posted;
    RepostedSoFar(s, posted, |posted|, clock);
  }

  lemma {:induction false} RepostedSoFar(s: Store, all: seq<Posted>, n: nat, clock: Id -> Time)
    requires n <= |all|
    ensures AnswersTo(AfterCalls(s, CallsOf(all), clock), all[..n], clock) == RepostAnswers(all[..n])
    decreases n
  {
    hide Commit, AfterCalls;
    if n > 0 {
      var once := AfterCalls(s, CallsOf(all), clock);
      RepostedSoFar(s, all, n - 1, clock);
      assert all[..n][..n-1] == all[..n-1];
      var later := AfterCalls(once, CallsOf(all[..n-1]), clock);
      if all[n-1].Decoded? {
        var e := all[n-1].event;
        CallsMark(s, CallsOf(all), clock);
        CallsMark(once, CallsOf(all[..n-1]), clock);
        CallsAreOfEvents(all, e);
        CommitMarks(later, e, clock(e.id));
      }
    }
  }
}
