/** A store's ordering status, its next opening and its promise times. */
module StoreStatus {
  import opened Options
  import opened Sequences
  import opened Hours
  import opened Schedules

  const SLOT := 15 * MINUTE
  const HOUR := 60 * MINUTE

  datatype Kind = Pickup | Delivery

  datatype Pause = Pause(until: Option<Time>)

  datatype Settings = Settings(pickupOn: bool, deliveryOn: bool, pickupEta: int, deliveryEta: int,
                               scheduleDays: int, pause: Option<Pause>)

  datatype State = IsOpen | IsPaused | IsClosed

  datatype Status = Status(state: State, accepting: bool, openNow: bool,
                           nextOpenAt: Option<Time>, closesAt: Option<Time>)

  datatype Refusal = BadType | TypeOff | ScheduleOff | BadDate

  datatype Slots = Slots(times: seq<Time>) | Refused(why: Refusal)

  /** A timed pause holds before its end; one without an end holds until someone lifts it. */
  predicate Paused(st: Settings, now: Time) {
    st.pause.Some? && (st.pause.value.until.None? || now < st.pause.value.until.value)
  }

  function Eta(st: Settings, kind: Kind): int {
    if kind == Delivery then st.deliveryEta else st.pickupEta
  }

  predicate Enabled(st: Settings, kind: Kind) {
    if kind == Delivery then st.deliveryOn else st.pickupOn
  }

  /** What Settings.Validate accepts. */
  predicate ValidSettings(st: Settings) {
    0 <= st.pickupEta <= 240 && 0 <= st.deliveryEta <= 240 && 0 <= st.scheduleDays <= 30
  }

  /** Does a store take orders for now at t? */
  predicate Accepts(s: Schedule, st: Settings, t: Time) {
    OpenAt(s, t) && !Paused(st, t) && (st.pickupOn || st.deliveryOn)
  }

  // --- the status ---------------------------------------------------------------------------

  method Compute(now: Time, s: Schedule, st: Settings) returns (out: Status)
    ensures out.openNow <==> OpenAt(s, now)
    ensures out.state == if Paused(st, now) then IsPaused else if OpenAt(s, now) then IsOpen else IsClosed
    ensures out.accepting <==> Accepts(s, st, now)
    ensures out.closesAt == ClosesAtSpec(s, now)
    ensures out.nextOpenAt == NextTaken(s, st, now)
  {
    hide CurrentSpec, ClosesAtSpec, NextOpenSpec;
    var current := Current(s, now);
    var openNow, paused := current.Some?, Paused(st, now);
    var state := if paused then IsPaused else if !openNow then IsClosed else IsOpen;
    var accepting := state == IsOpen && (st.pickupOn || st.deliveryOn);
    var closesAt, nextOpenAt := None, None;
    NoCloseWhenClosed(s, now);
    if openNow {
      closesAt := ClosesAt(s, now);
    }
    if !accepting {
      if paused && st.pause.value.until.None? {
        // No end to the pause is known.
      } else if paused {
        nextOpenAt := NextOpen(s, st.pause.value.until.value);
      } else if openNow {
        // Nothing to wait for but an order type.
      } else {
        nextOpenAt := NextOpen(s, now);
      }
    }
    out := Status(state, accepting, openNow, nextOpenAt, closesAt);
  }

  lemma NoCloseWhenClosed(s: Schedule, t: Time)
    ensures !OpenAt(s, t) ==> ClosesAtSpec(s, t) == None
  {
    hide CurrentSpec;
  }

  function NextTaken(s: Schedule, st: Settings, now: Time): Option<Time> {
    if Paused(st, now) then
      if st.pause.value.until.None? then None else NextOpenSpec(s, st.pause.value.until.value)
    else if OpenAt(s, now) then None
    else NextOpenSpec(s, now)
  }

  /** A store is ready to take orders at t when it is inside its hours and not paused. */
  ghost predicate Ready(s: Schedule, st: Settings, t: Time) {
    Open(s, t) && !Paused(st, t)
  }

  /** The next-open time reported is the first ready instant from now on, and it lies ahead. */
  lemma NextOpenAtIsTheFirstReady(s: Schedule, st: Settings, now: Time)
    requires NextTaken(s, st, now).Some?
    ensures var u := NextTaken(s, st, now).value;
            now < u && Ready(s, st, u) && forall x :: now <= x < u ==> !Ready(s, st, x)
  {
    hide Open, OpenAt, NextOpenSpec;
    var from := if Paused(st, now) then st.pause.value.until.value else now;
    NextOpenIsTheFirst(s, from);
    OpenAtIsOpen(s, now);
    assert forall x :: now <= x < from ==> Paused(st, x);
  }

  /** At the next-open time reported the store takes orders exactly when some order type is on. */
  lemma WhenTheNextOpenTakesOrders(s: Schedule, st: Settings, now: Time)
    requires NextTaken(s, st, now).Some?
    ensures Accepts(s, st, NextTaken(s, st, now).value) <==> st.pickupOn || st.deliveryOn
  {
    hide Open, OpenAt, NextTaken, Paused;
    NextOpenAtIsTheFirstReady(s, st, now);
    OpenAtIsOpen(s, NextTaken(s, st, now).value);
  }

  /** Both order types off, paused for a minute. */
  function TypesOff(now: Time): (st: Settings)
    ensures ValidSettings(st)
  {
    Settings(false, false, 20, 45, 7, Some(Pause(Some(now + MINUTE))))
  }

  /** A store that takes no orders at any time is given a next-open time all the same. */
  lemma TypesOffAreGivenANextOpen(now: Time)
    ensures NextTaken(ROUND_THE_CLOCK, TypesOff(now), now) == Some(now + MINUTE)
    ensures forall t :: !Accepts(ROUND_THE_CLOCK, TypesOff(now), t)
  {
    hide OpenAt, Open;
    OpenAtIsOpen(ROUND_THE_CLOCK, now + MINUTE);
    RoundTheClockIsAlwaysOpen(now + MINUTE);
  }

  /** None is reported only when the store is ready now, paused without an end, or shut for the next two weeks. */
  lemma WhenNoNextOpenIsKnown(s: Schedule, st: Settings, now: Time)
    requires NextTaken(s, st, now).None?
    ensures
      || Ready(s, st, now)
      || (Paused(st, now) && st.pause.value.until.None?)
      || forall x :: now <= x < Midnight(DateOf(now, s.zone) + LOOK_AHEAD + 1, s.zone) ==> !Ready(s, st, x)
  {
    hide Open, OpenAt, NextOpenSpec, DateOf;
    var from := if Paused(st, now) && st.pause.value.until.Some? then st.pause.value.until.value else now;
    NextOpenIsTheFirst(s, from);
    OpenAtIsOpen(s, now);
    LaterDates(now, from, s.zone);
    assert Paused(st, now) ==> forall x :: now <= x < from ==> Paused(st, x);
  }

  lemma LaterDates(t: Time, u: Time, zone: int)
    requires t <= u
    ensures DateOf(t, zone) <= DateOf(u, zone)
  {
  }

  // --- promised times -----------------------------------------------------------------------

  /** On the grid of quarter hours the local clock shows. */
  predicate OnGrid(t: Time, zone: int) {
    (t + zone) % SLOT == 0
  }

  /** The hour the local clock last struck. */
  function HourOf(t: Time, zone: int): Time {
    (t + zone) / HOUR * HOUR - zone
  }

  /** The first grid instant from t on. */
  method CeilSlot(t: Time, zone: int) returns (base: Time)
    ensures OnGrid(base, zone) && t <= base
    ensures forall x :: OnGrid(x, zone) && t <= x ==> base <= x
  {
    hide OnGrid;
    base := HourOf(t, zone);
    HoursAreOnGrid(t, zone);
    while base < t
      invariant OnGrid(base, zone)
      invariant base < t + SLOT
    {
      base := base + SLOT;
      StepsStayOnGrid(base - SLOT, zone);
    }
    forall x | OnGrid(x, zone) && t <= x ensures base <= x { NothingBetween(base, x, zone); }
  }

  lemma HoursAreOnGrid(t: Time, zone: int)
    ensures OnGrid(HourOf(t, zone), zone) && HourOf(t, zone) <= t
  {
    hide OnGrid;
    QuartersAreOnGrid(4 * ((t + zone) / HOUR), zone);
  }

  lemma QuartersAreOnGrid(n: int, zone: int)
    ensures OnGrid(n * SLOT - zone, zone)
  {
  }

  lemma StepsStayOnGrid(t: Time, zone: int)
    requires OnGrid(t, zone)
    ensures OnGrid(t + SLOT, zone)
  {
  }

  lemma NothingBetween(a: Time, b: Time, zone: int)
    requires OnGrid(a, zone) && OnGrid(b, zone)
    ensures b <= a - SLOT || a <= b
    ensures b <= a || a + SLOT <= b
  {
  }

  /** The earliest start of work: not before the period, the present or the end of a pause. */
  function WorkFrom(p: Period, st: Settings, now: Time): Time {
    var from := Max(p.start, now);
    if Paused(st, now) && st.pause.value.until.Some? then Max(from, st.pause.value.until.value) else from
  }

  /** A time may be promised in a period when it is on the grid, an ETA after work can start, and not past the end. */
  predicate Promisable(p: Period, st: Settings, kind: Kind, now: Time, zone: int, t: Time) {
    OnGrid(t, zone) && WorkFrom(p, st, now) + Eta(st, kind) * MINUTE <= t <= p.end
  }

  /** The times listed for one period: exactly the promisable ones, rising, none twice. */
  ghost predicate ListsThePeriod(times: seq<Time>, p: Period, st: Settings, kind: Kind, now: Time, zone: int) {
    && (forall t :: t in times <==> Promisable(p, st, kind, now, zone, t))
    && (forall i, j :: 0 <= i < j < |times| ==> times[i] < times[j])
  }

  /** One list for each period, one period after the other. */
  ghost predicate ListsThePeriods(times: seq<Time>, ps: seq<Period>, st: Settings, kind: Kind, now: Time, zone: int)
    decreases ps
  {
    if ps == [] then times == []
    else
      exists k :: 0 <= k <= |times| && ListsThePeriods(times[..k], ps[..|ps|-1], st, kind, now, zone)
                  && ListsThePeriod(times[k..], ps[|ps|-1], st, kind, now, zone)
  }

  method SlotsOf(p: Period, st: Settings, kind: Kind, now: Time, zone: int) returns (out: seq<Time>)
    ensures ListsThePeriod(out, p, st, kind, now, zone)
  {
    hide OnGrid, WorkFrom, Eta;
    var earliest := WorkFrom(p, st, now) + Eta(st, kind) * MINUTE;
    var t := CeilSlot(earliest, zone);
    out := [];
    while t <= p.end
      invariant OnGrid(t, zone) && earliest <= t
      invariant forall x :: x in out <==> OnGrid(x, zone) && earliest <= x <= p.end && x < t
      invariant forall i, j :: 0 <= i < j < |out| ==> out[i] < out[j]
      decreases p.end - t
    {
      forall x | OnGrid(x, zone) && x < t + SLOT ensures x <= t { NothingBetween(t, x, zone); }
      forall i | 0 <= i < |out| ensures out[i] < t { assert out[i] in out; }
      out := out + [t];
      StepsStayOnGrid(t, zone);
      t := t + SLOT;
    }
  }

  /** The refusals, in the order they are checked; a date that does not parse is None. */
  function Refuses(kind: Option<Kind>, st: Settings, date: Option<int>, today: int): Option<Refusal> {
    if kind.None? then Some(BadType)
    else if !Enabled(st, kind.value) then Some(TypeOff)
    else if st.scheduleDays == 0 then Some(ScheduleOff)
    else if date.None? || date.value < today || date.value > today + st.scheduleDays then Some(BadDate)
    else None
  }

  method Times(now: Time, s: Schedule, st: Settings, kind: Option<Kind>, date: Option<int>) returns (out: Slots)
    ensures match Refuses(kind, st, date, DateOf(now, s.zone))
            case Some(why) => out == Refused(why)
            case None =>
              && out.Slots?
              && if Paused(st, now) && st.pause.value.until.None? then out.times == []
                 else ListsThePeriods(out.times, PeriodsSpec(s, date.value), st, kind.value, now, s.zone)
  {
    hide PeriodsSpec, DateOf, ListsThePeriod, Enabled;
    if kind.None? { return Refused(BadType); }
    if !Enabled(st, kind.value) { return Refused(TypeOff); }
    if st.scheduleDays == 0 { return Refused(ScheduleOff); }
    var today := DateOf(now, s.zone);
    if date.None? || date.value < today || date.value > today + st.scheduleDays { return Refused(BadDate); }
    if Paused(st, now) && st.pause.value.until.None? { return Slots([]); }
    var ps := Periods(s, date.value);
    var times := [];
    for i := 0 to |ps|
      invariant ListsThePeriods(times, ps[..i], st, kind.value, now, s.zone)
    {
      var more := SlotsOf(ps[i], st, kind.value, now, s.zone);
      OnePeriodMore(times, more, ps, i, st, kind.value, now, s.zone);
      times := times + more;
    }
    assert ps[..|ps|] == ps;
    return Slots(times);
  }

  lemma OnePeriodMore(times: seq<Time>, more: seq<Time>, ps: seq<Period>, i: nat,
                      st: Settings, kind: Kind, now: Time, zone: int)
    requires i < |ps| && ListsThePeriods(times, ps[..i], st, kind, now, zone)
    requires ListsThePeriod(more, ps[i], st, kind, now, zone)
    ensures ListsThePeriods(times + more, ps[..i+1], st, kind, now, zone)
  {
    hide ListsThePeriod;
    var both := times + more;
    assert both[..|times|] == times && both[|times|..] == more;
    assert ps[..i+1][..i] == ps[..i];
  }

  /** A time is listed exactly when some period of the date can promise it. */
  lemma {:induction false} ListedIsPromisable(times: seq<Time>, ps: seq<Period>, st: Settings, kind: Kind,
                                              now: Time, zone: int, t: Time)
    requires ListsThePeriods(times, ps, st, kind, now, zone)
    ensures t in times <==> exists p <- ps :: Promisable(p, st, kind, now, zone, t)
    decreases ps
  {
    hide Promisable;
    if ps != [] {
      var init, last := ps[..|ps|-1], ps[|ps|-1];
      var k :| 0 <= k <= |times| && ListsThePeriods(times[..k], init, st, kind, now, zone)
               && ListsThePeriod(times[k..], last, st, kind, now, zone);
      ListedIsPromisable(times[..k], init, st, kind, now, zone, t);
      assert times == times[..k] + times[k..];
      assert ps == init + [last];
    }
  }

  /**
   * An order promised for a listed time can be started an ETA before it: the store is inside the period then, it is
   * now or later, and a pause that held has ended. The one exception is a promise with no ETA for the very end.
   */
  lemma PromisesCanBeKept(p: Period, s: Schedule, date: int, st: Settings, kind: Kind, now: Time, t: Time)
    requires ValidSettings(st) && p in PeriodsSpec(s, date)
    requires Promisable(p, st, kind, now, s.zone, t) && (Paused(st, now) ==> st.pause.value.until.Some?)
    ensures var started := t - Eta(st, kind) * MINUTE;
            && now <= started && !Paused(st, started)
            && (p.Holds(started) <==> Eta(st, kind) > 0 || t < p.end)
            && (p.Holds(started) ==> Open(s, started))
  {
    hide OnGrid;
    SortByMembers(Stretches(s, date), StartOf);
    StretchBounds(s, date, p);
    hide Stretches;
    if p.Holds(t - Eta(st, kind) * MINUTE) {
      assert OpenFrom(s, date, t - Eta(st, kind) * MINUTE);
    }
  }

  /** What is listed for an order type leaves it its own time: delivery's or pickup's, from now and from the opening on. */
  lemma PromisesLeaveTime(p: Period, st: Settings, kind: Kind, now: Time, zone: int, t: Time)
    ensures Promisable(p, st, kind, now, zone, t) <==>
      && t <= p.end && (t + zone) % (15 * MINUTE) == 0
      && (kind == Delivery ==> t - st.deliveryEta * MINUTE >= now && t - st.deliveryEta * MINUTE >= p.start)
      && (kind == Pickup ==> t - st.pickupEta * MINUTE >= now && t - st.pickupEta * MINUTE >= p.start)
      && (Paused(st, now) && st.pause.value.until.Some? ==>
            t - (if kind == Delivery then st.deliveryEta else st.pickupEta) * MINUTE >= st.pause.value.until.value)
  {
  }

  /** Why no times are listed: no order type, one that is off, no scheduling, or a date that is past or too far ahead. */
  lemma WhyNoTimesAreListed(kind: Option<Kind>, st: Settings, date: Option<int>, today: int)
    ensures var why := Refuses(kind, st, date, today);
      && (why == Some(BadType) <==> kind == None)
      && (why == Some(TypeOff) <==> (kind == Some(Pickup) && !st.pickupOn) || (kind == Some(Delivery) && !st.deliveryOn))
      && (why == None <==>
            && ((kind == Some(Pickup) && st.pickupOn) || (kind == Some(Delivery) && st.deliveryOn))
            && st.scheduleDays != 0 && date.Some? && today <= date.value <= today + st.scheduleDays)
      && (why == Some(ScheduleOff) ==> st.scheduleDays == 0)
      && (why == Some(BadDate) ==> date == None || date.value < today || date.value > today + st.scheduleDays)
  {
  }

  /** A pause without an end holds at all times, a timed one until it is over, and no pause never. */
  lemma WhenAPauseHolds(st: Settings, t: Time)
    ensures Paused(st, t) <==> st.pause.Some? && (st.pause.value.until == None || st.pause.value.until.value > t)
  {
  }

  /** A period's very end is listed exactly when it is on the grid and an order begun when work can start is ready by then. */
  lemma WhenTheEndIsListed(times: seq<Time>, p: Period, st: Settings, kind: Kind, now: Time, zone: int)
    requires ListsThePeriod(times, p, st, kind, now, zone)
    ensures p.end in times <==> OnGrid(p.end, zone) && WorkFrom(p, st, now) + Eta(st, kind) * MINUTE <= p.end
    ensures !p.Holds(p.end)
  {
    assert p.end in times <==> Promisable(p, st, kind, now, zone, p.end);
  }

  /** Open for the first hour of every day; pickup only, without an estimate, and nothing paused. */
  const AN_HOUR := Schedule(seq(7, i => [Range(0, 60)]), map[], 0)
  const AT_ONCE := Settings(true, false, 0, 0, 7, None)

  /** The times a date lists, asked for by the end of its hour, include that end, when the store is shut. */
  lemma AnEndIsListed(times: seq<Time>, date: int, now: Time)
    requires ListsThePeriods(times, PeriodsSpec(AN_HOUR, date), AT_ONCE, Pickup, now, 0)
    requires now <= Midnight(date, 0) + HOUR
    ensures ValidSettings(AT_ONCE) && Midnight(date, 0) + HOUR in times && !Open(AN_HOUR, Midnight(date, 0) + HOUR)
  {
    hide ListsThePeriods, OnGrid, Stretches, SortBy, Open;
    var p := Period(Midnight(date, 0), Midnight(date, 0) + HOUR);
    TheHourOf(date);
    SortByMembers(Stretches(AN_HOUR, date), StartOf);
    assert p in PeriodsSpec(AN_HOUR, date) by { assert p in [p]; }
    hide PeriodsSpec;
    ListedIsPromisable(times, PeriodsSpec(AN_HOUR, date), AT_ONCE, Pickup, now, 0, p.end);
    QuartersAreOnGrid(96 * date + 4, 0);
    assert Promisable(p, AT_ONCE, Pickup, now, 0, p.end);
    ShutAfterTheHour(date);
  }

  lemma ShutAfterTheHour(date: int)
    ensures !Open(AN_HOUR, Midnight(date, 0) + HOUR)
  {
    hide Stretches;
    var t := Midnight(date, 0) + HOUR;
    forall d ensures !OpenFrom(AN_HOUR, d, t) {
      TheHourOf(d);
      assert d <= date - 1 || d == date || d >= date + 1;
    }
  }

  lemma TheHourOf(date: int)
    ensures Stretches(AN_HOUR, date) == [Period(Midnight(date, 0), Midnight(date, 0) + HOUR)]
  {
    var s := AN_HOUR;
    assert s.weekly[0] != [];
    assert DayHours(s, date) == [Range(0, 60)];
    assert Stretch(date, Range(0, 60), 0) == Period(Midnight(date, 0), Midnight(date, 0) + HOUR);
  }

  // --- pausing ------------------------------------------------------------------------------

  /** "Today" in a pause: the running stretch when it began before midnight, else the last one that starts today. */
  function TodaysEnd(s: Schedule, now: Time): Option<Time> {
    var midnight := Midnight(DateOf(now, s.zone), s.zone);
    var current := CurrentSpec(s, now);
    if current.Some? && current.value.start < midnight && HoursSet(s) then ClosesAtSpec(s, now)
    else Some(LatestEnd(PeriodsSpec(s, DateOf(now, s.zone)), Midnight(DateOf(now, s.zone) + 1, s.zone)))
  }

  method PauseUntilTodaysEnd(s: Schedule, now: Time) returns (until: Option<Time>)
    ensures until == TodaysEnd(s, now)
  {
    hide CurrentSpec, PeriodsSpec, ClosesAtSpec, DateOf, HoursSet;
    var today := DateOf(now, s.zone);
    var current := Current(s, now);
    if current.Some? && current.value.start < Midnight(today, s.zone) && HoursSet(s) {
      until := ClosesAt(s, now);
      return;
    }
    var end := Midnight(today + 1, s.zone);
    var ps := Periods(s, today);
    for i := 0 to |ps|
      invariant end == LatestEnd(ps[..i], Midnight(today + 1, s.zone))
    {
      PrefixOfPrefix(ps, i);
      if ps[i].end > end { end := ps[i].end; }
    }
    assert ps[..|ps|] == ps;
    return Some(end);
  }

  /** A pause for today always has an end, it lies ahead, and the stretch running now does not outlast it. */
  lemma TodaysPauseCoversTheStretch(s: Schedule, now: Time)
    ensures TodaysEnd(s, now).Some? && now < TodaysEnd(s, now).value
    ensures CurrentSpec(s, now).Some? ==> CurrentSpec(s, now).value.end <= TodaysEnd(s, now).value
  {
    hide Stretches, AroundSpec, SortBy, HoursSet, LatestEnd, Chained;
    var today := DateOf(now, s.zone);
    OpenAtIsOpen(s, now);
    LatestEndCovers(PeriodsSpec(s, today), Midnight(today + 1, s.zone));
    SortByMembers(Stretches(s, today), StartOf);
    if CurrentSpec(s, now).Some? {
      var p := CurrentSpec(s, now).value;
      ChainedGrows(AroundSpec(s, p.end, 1), p.end);
      var d :| p in Stretches(s, d);
      StretchBounds(s, d, p);
    }
  }

  /**
   * A pause for today taken in the night, in a stretch that began yesterday, is over as soon as that stretch is: the store
   * would be open all through it. Any other lasts to midnight, or to the latest end of today's periods where that is later.
   */
  lemma WhenTodaysPauseEnds(s: Schedule, now: Time)
    ensures var until, current, today := TodaysEnd(s, now), CurrentSpec(s, now), DateOf(now, s.zone);
      var midnight := Midnight(today + 1, s.zone);
      if current.Some? && DateOf(current.value.start, s.zone) < today && HoursSet(s) then
        until == ClosesAtSpec(s, now) && until.Some? && forall x :: now <= x < until.value ==> Open(s, x)
      else
        && until.Some? && until.value >= midnight
        && (forall p <- PeriodsSpec(s, today) :: p.end <= until.value)
        && (until.value == midnight || exists p <- PeriodsSpec(s, today) :: p.end == until.value)
  {
    hide PeriodsSpec, CurrentSpec, HoursSet, LatestEnd, Open, Chained, AroundSpec;
    var today, current := DateOf(now, s.zone), CurrentSpec(s, now);
    LatestEndCovers(PeriodsSpec(s, today), Midnight(today + 1, s.zone));
    LatestEndIsAnEnd(PeriodsSpec(s, today), Midnight(today + 1, s.zone));
    if current.Some? {
      BeforeMidnight(current.value.start, today, s.zone);
      if HoursSet(s) { OpenUntilItCloses(s, now); }
    }
  }

  lemma BeforeMidnight(t: Time, date: int, zone: int)
    ensures DateOf(t, zone) < date <==> t < Midnight(date, zone)
  {
  }

  /** Orders are taken exactly when some period holds the instant, no pause does, and an order type is on. */
  lemma WhenOrdersAreTaken(s: Schedule, st: Settings, t: Time)
    ensures Accepts(s, st, t) <==>
      && Open(s, t) && (st.pickupOn || st.deliveryOn)
      && (st.pause == None || (st.pause.value.until.Some? && st.pause.value.until.value <= t))
  {
    hide Open, OpenAt;
    OpenAtIsOpen(s, t);
  }
}
