/** The limits on diagnostic reports: four sliding windows checked and booked as one step. */
module DiagLimits {
  import opened Options
  import opened Sequences
  import opened RateLimit

  const SECOND := 1_000_000_000
  const HOUR := 3600 * SECOND

  datatype Which = OfTablet | OfLocation | OfAll | OfManual

  datatype Key = TabletKey(location: Id, tablet: Id) | LocationKey(at: Id) | GlobalKey

  datatype Report = Report(location: Id, tablet: Id, manual: bool)

  function MaxOf(w: Which): (max: int)
    ensures max >= 1
  {
    match w
    case OfTablet => 30
    case OfLocation => 120
    case OfAll => 1000
    case OfManual => 1
  }

  function SpanOf(w: Which): int {
    match w
    case OfTablet => HOUR
    case OfLocation => 24 * HOUR
    case OfAll => HOUR
    case OfManual => 600 * SECOND
  }

  /** The key a report is counted under; only a manual report counts in the last window. */
  function KeyOf(r: Report, w: Which): Option<Key> {
    match w
    case OfTablet => Some(TabletKey(r.location, r.tablet))
    case OfLocation => Some(LocationKey(r.location))
    case OfAll => Some(GlobalKey)
    case OfManual => if r.manual then Some(TabletKey(r.location, r.tablet)) else None
  }

  /** What each window's clock read: every check and every booking reads its own. */
  datatype Reading = Reading(tablet: Time, location: Time, all: Time, manual: Time)
  {
    function At(w: Which): Time {
      match w
      case OfTablet => tablet
      case OfLocation => location
      case OfAll => all
      case OfManual => manual
    }
  }

  function Instant(t: Time): Reading {
    Reading(t, t, t, t)
  }

  datatype Counters = Counters(tablet: Hits<Key>, location: Hits<Key>, all: Hits<Key>, manual: Hits<Key>)
  {
    function At(w: Which): Hits<Key> {
      match w
      case OfTablet => tablet
      case OfLocation => location
      case OfAll => all
      case OfManual => manual
    }
  }

  const NOTHING := Counters(map[], map[], map[], map[])

  // --- one take -----------------------------------------------------------------------------

  function LiveAt(c: Counters, r: Report, w: Which, t: Time): seq<Time> {
    match KeyOf(r, w)
    case None => []
    case Some(k) => Live(HitsAt(c.At(w), k), t, SpanOf(w))
  }

  function WaitAt(c: Counters, r: Report, w: Which, t: Time): int {
    match KeyOf(r, w)
    case None => 0
    case Some(k) => WaitFor(LiveAt(c, r, w, t), t, SpanOf(w), MaxOf(w))
  }

  /** The longest wait any window asks for, and never less than nothing. */
  function WaitOf(c: Counters, r: Report, asked: Reading): int {
    Max(Max(Max(Max(0, WaitAt(c, r, OfTablet, asked.tablet)), WaitAt(c, r, OfLocation, asked.location)),
            WaitAt(c, r, OfAll, asked.all)), WaitAt(c, r, OfManual, asked.manual))
  }

  function LookedUp(c: Counters, r: Report, asked: Reading, w: Which): Hits<Key> {
    match KeyOf(r, w)
    case None => c.At(w)
    case Some(k) => Pruned(c.At(w), k, asked.At(w), SpanOf(w))
  }

  function Booked(c: Counters, r: Report, asked: Reading, booked: Reading, w: Which): Hits<Key> {
    match KeyOf(r, w)
    case None => c.At(w)
    case Some(k) => Added(LookedUp(c, r, asked, w), k, booked.At(w), SpanOf(w))
  }

  function AfterTake(c: Counters, r: Report, asked: Reading, booked: Reading): Counters {
    if WaitOf(c, r, asked) > 0 then
      Counters(LookedUp(c, r, asked, OfTablet), LookedUp(c, r, asked, OfLocation),
               LookedUp(c, r, asked, OfAll), LookedUp(c, r, asked, OfManual))
    else
      Counters(Booked(c, r, asked, booked, OfTablet), Booked(c, r, asked, booked, OfLocation),
               Booked(c, r, asked, booked, OfAll), Booked(c, r, asked, booked, OfManual))
  }

  class Limits {
    const tablet: Window<Key>
    const location: Window<Key>
    const all: Window<Key>
    const manual: Window<Key>

    ghost predicate Valid() {
      && tablet != location && tablet != all && tablet != manual
      && location != all && location != manual && all != manual
      && tablet.max == MaxOf(OfTablet) && tablet.span == SpanOf(OfTablet)
      && location.max == MaxOf(OfLocation) && location.span == SpanOf(OfLocation)
      && all.max == MaxOf(OfAll) && all.span == SpanOf(OfAll)
      && manual.max == MaxOf(OfManual) && manual.span == SpanOf(OfManual)
    }

    ghost function Contents(): Counters
      reads tablet, location, all, manual
    {
      Counters(tablet.hits, location.hits, all.hits, manual.hits)
    }

    constructor ()
      ensures Valid() && Contents() == NOTHING
      ensures fresh(tablet) && fresh(location) && fresh(all) && fresh(manual)
    {
      tablet := new Window(MaxOf(OfTablet), SpanOf(OfTablet));
      location := new Window(MaxOf(OfLocation), SpanOf(OfLocation));
      all := new Window(MaxOf(OfAll), SpanOf(OfAll));
      manual := new Window(MaxOf(OfManual), SpanOf(OfManual));
    }

    method Take(r: Report, asked: Reading, booked: Reading) returns (wait: int)
      requires Valid()
      modifies tablet, location, all, manual
      ensures wait == WaitOf(old(Contents()), r, asked)
      ensures Contents() == AfterTake(old(Contents()), r, asked, booked)
    {
      hide Live, Added, Pruned, WaitFor;
      var tabletKey, locationKey := TabletKey(r.location, r.tablet), LocationKey(r.location);
      wait := 0;
      var d := tablet.RetryAfterN(tabletKey, tablet.max, asked.tablet);
      if d > wait { wait := d; }
      d := location.RetryAfterN(locationKey, location.max, asked.location);
      if d > wait { wait := d; }
      d := all.RetryAfterN(GlobalKey, all.max, asked.all);
      if d > wait { wait := d; }
      if r.manual {
        d := manual.RetryAfterN(tabletKey, manual.max, asked.manual);
        if d > wait { wait := d; }
      }
      if wait > 0 { return; }
      tablet.Add(tabletKey, booked.tablet);
      location.Add(locationKey, booked.location);
      all.Add(GlobalKey, booked.all);
      if r.manual { manual.Add(tabletKey, booked.manual); }
      wait := 0;
    }
  }

  // --- runs ---------------------------------------------------------------------------------

  datatype Ask = Ask(report: Report, asked: Reading, booked: Reading)

  /** The clock never runs backwards: from one window's reading to the next, and from one take to the next. */
  predicate Rising(now: Time, a: Ask) {
    && now <= a.asked.tablet <= a.asked.location <= a.asked.all <= a.asked.manual
    && a.asked.manual <= a.booked.tablet <= a.booked.location <= a.booked.all <= a.booked.manual
  }

  function ClockAfter(start: Time, asks: seq<Ask>): Time {
    if asks == [] then start else asks[|asks|-1].booked.manual
  }

  predicate Orderly(start: Time, asks: seq<Ask>) {
    asks == [] || (Orderly(start, asks[..|asks|-1])
                   && Rising(ClockAfter(start, asks[..|asks|-1]), asks[|asks|-1]))
  }

  function After(asks: seq<Ask>): Counters {
    if asks == [] then NOTHING
    else
      var last := asks[|asks|-1];
      AfterTake(After(asks[..|asks|-1]), last.report, last.asked, last.booked)
  }

  /** The bookings counted under a key in a window, oldest first, none ever forgotten. */
  function Log(asks: seq<Ask>, w: Which, k: Key): seq<Time> {
    if asks == [] then []
    else
      var init, last := asks[..|asks|-1], asks[|asks|-1];
      Log(init, w, k)
      + if WaitOf(After(init), last.report, last.asked) <= 0 && KeyOf(last.report, w) == Some(k)
        then [last.booked.At(w)] else []
  }

  /** The counters answer every later question as the full log of bookings would. */
  ghost predicate Mirrors(c: Counters, asks: seq<Ask>, w: Which, k: Key, now: Time) {
    && Ordered(Log(asks, w, k))
    && (forall t :: t in Log(asks, w, k) ==> t <= now)
    && forall later :: now <= later ==>
         Live(HitsAt(c.At(w), k), later, SpanOf(w)) == Live(Log(asks, w, k), later, SpanOf(w))
  }

  /** Looking a report up shows in no window, now or later. */
  lemma LookingUpDoesNotShow(c: Counters, r: Report, asked: Reading, w: Which, k: Key, later: Time)
    requires asked.At(w) <= later
    ensures Live(HitsAt(LookedUp(c, r, asked, w), k), later, SpanOf(w)) == Live(HitsAt(c.At(w), k), later, SpanOf(w))
  {
    hide Live, Pruned, SpanOf, HitsAt;
    match KeyOf(r, w)
    case None =>
    case Some(key) => HousekeepingDoesNotShow(c.At(w), key, asked.At(w), SpanOf(w));
  }

  /** A refusal books nothing in any of the four windows. */
  lemma ARefusalBooksNothing(c: Counters, r: Report, asked: Reading, booked: Reading, w: Which, k: Key, later: Time)
    requires WaitOf(c, r, asked) > 0 && asked.At(w) <= later
    ensures Live(HitsAt(AfterTake(c, r, asked, booked).At(w), k), later, SpanOf(w))
         == Live(HitsAt(c.At(w), k), later, SpanOf(w))
  {
    hide Live, Pruned, SpanOf, HitsAt, WaitOf, LookedUp;
    LookingUpDoesNotShow(c, r, asked, w, k, later);
  }

  /** An accepted report shows as one hit in each window that counts it, and nowhere else. */
  lemma AnAcceptanceBooksOneHit(c: Counters, r: Report, asked: Reading, booked: Reading, w: Which, k: Key, later: Time)
    requires WaitOf(c, r, asked) <= 0 && asked.At(w) <= booked.At(w) <= later
    ensures Live(HitsAt(AfterTake(c, r, asked, booked).At(w), k), later, SpanOf(w))
         == Live(HitsAt(c.At(w), k), later, SpanOf(w))
            + if KeyOf(r, w) == Some(k) then Live([booked.At(w)], later, SpanOf(w)) else []
  {
    hide Live, Pruned, Added, SpanOf, HitsAt, WaitOf, LookedUp;
    LookingUpDoesNotShow(c, r, asked, w, k, later);
    match KeyOf(r, w)
    case None => assert LookedUp(c, r, asked, w) == c.At(w) by { NotCounted(c, r, asked, w); }
    case Some(key) => AddingShowsOneHit(LookedUp(c, r, asked, w), key, booked.At(w), SpanOf(w), k, later);
  }

  lemma NotCounted(c: Counters, r: Report, asked: Reading, w: Which)
    requires KeyOf(r, w) == None
    ensures LookedUp(c, r, asked, w) == c.At(w)
  {
  }

  /** In every run, pruning and sweeping included, the counters answer as the full log. */
  lemma {:induction false} CountersMirrorTheLog(start: Time, asks: seq<Ask>, w: Which, k: Key)
    requires Orderly(start, asks)
    ensures Mirrors(After(asks), asks, w, k, ClockAfter(start, asks))
    decreases |asks|
  {
    hide Live, WaitOf, SpanOf, AfterTake, HitsAt, KeyOf, Ordered;
    if asks == [] {
      NothingMirrors(start, w, k);
    } else {
      var init, last := asks[..|asks|-1], asks[|asks|-1];
      var now, c, log := last.booked.manual, After(init), Log(init, w, k);
      CountersMirrorTheLog(start, init, w, k);
      RisingBounds(ClockAfter(start, init), last, w);
      LaterKeepsOrder(log, last.booked.At(w));
      assert log + [] == log;
      forall later | now <= later
        ensures Live(HitsAt(After(asks).At(w), k), later, SpanOf(w)) == Live(Log(asks, w, k), later, SpanOf(w))
      {
        if WaitOf(c, last.report, last.asked) > 0 {
          ARefusalBooksNothing(c, last.report, last.asked, last.booked, w, k, later);
        } else {
          AnAcceptanceBooksOneHit(c, last.report, last.asked, last.booked, w, k, later);
          assert Live(log, later, SpanOf(w)) + [] == Live(log, later, SpanOf(w));
          LiveAppend(log, [last.booked.At(w)], later, SpanOf(w));
        }
      }
    }
  }

  lemma NothingMirrors(start: Time, w: Which, k: Key)
    ensures Mirrors(NOTHING, [], w, k, start)
  {
    hide Live;
    assert HitsAt(NOTHING.At(w), k) == [];
  }

  lemma RisingBounds(now: Time, a: Ask, w: Which)
    requires Rising(now, a)
    ensures now <= a.asked.At(w) <= a.booked.At(w) <= a.booked.manual
  {
  }

  lemma LongestCoversEach(c: Counters, r: Report, asked: Reading, w: Which)
    ensures WaitAt(c, r, w, asked.At(w)) <= WaitOf(c, r, asked)
  {
    hide WaitAt;
  }

  /** No run lets a window pass its limit: wherever it is placed, an interval of the span's length holds at most max. */
  lemma {:induction false} NoWindowOverfills(start: Time, asks: seq<Ask>, w: Which, k: Key)
    requires Orderly(start, asks)
    ensures Limited(Log(asks, w, k), MaxOf(w), SpanOf(w))
    decreases |asks|
  {
    hide Live, WaitOf, SpanOf, After, HitsAt, Limited, MaxOf, KeyOf, Ordered;
    if asks == [] {
      NothingIsLimited(MaxOf(w), SpanOf(w));
    } else {
      var init, last := asks[..|asks|-1], asks[|asks|-1];
      NoWindowOverfills(start, init, w, k);
      assert Log(init, w, k) + [] == Log(init, w, k);
      if WaitOf(After(init), last.report, last.asked) <= 0 && KeyOf(last.report, w) == Some(k) {
        CountersMirrorTheLog(start, init, w, k);
        RisingBounds(ClockAfter(start, init), last, w);
        LongestCoversEach(After(init), last.report, last.asked, w);
        NoWaitMeansRoom(After(init), last.report, w, k, init, ClockAfter(start, init), last.asked.At(w));
        FewerLater(Log(init, w, k), last.asked.At(w), last.booked.At(w), SpanOf(w));
        BookingKeepsTheLimit(Log(init, w, k), last.booked.At(w), SpanOf(w), MaxOf(w));
      }
    }
  }

  lemma NothingIsLimited(max: int, span: int)
    requires max >= 0
    ensures Limited([], max, span)
  {
  }

  lemma NoWaitMeansRoom(c: Counters, r: Report, w: Which, k: Key, asks: seq<Ask>, now: Time, t: Time)
    requires KeyOf(r, w) == Some(k) && now <= t && Mirrors(c, asks, w, k, now)
    requires WaitAt(c, r, w, t) <= 0
    ensures |Live(Log(asks, w, k), t, SpanOf(w))| < MaxOf(w)
  {
    hide Live, SpanOf, HitsAt, KeyOf, Log, MaxOf, WaitFor;
    WaitIsTheLeast(Log(asks, w, k), t, SpanOf(w), MaxOf(w), 0);
  }

  lemma {:induction false} FewerLater(ts: seq<Time>, now: Time, later: Time, span: int)
    requires now <= later
    ensures |Live(ts, later, span)| <= |Live(ts, now, span)|
  {
    if ts != [] {
      FewerLater(ts[..|ts|-1], now, later, span);
    }
  }

  /**
   * The wait a refused caller is given is the least that works: asked again d later, with nothing booked in
   * between, the same report is accepted exactly when d has reached it.
   */
  lemma TheWaitIsTheLeast(start: Time, asks: seq<Ask>, r: Report, now: Time, d: int, booked: Reading)
    requires Orderly(start, asks) && ClockAfter(start, asks) <= now && d >= 0
    requires WaitOf(After(asks), r, Instant(now)) > 0
    ensures var c := AfterTake(After(asks), r, Instant(now), booked);
            WaitOf(c, r, Instant(now + d)) <= 0 <==> d >= WaitOf(After(asks), r, Instant(now))
  {
    hide Live, SpanOf, HitsAt, KeyOf, After, AfterTake, WaitAt, MaxOf, Orderly, ClockAfter;
    var c := AfterTake(After(asks), r, Instant(now), booked);
    EachWaitIsTheLeast(start, asks, r, now, d, booked, OfTablet);
    EachWaitIsTheLeast(start, asks, r, now, d, booked, OfLocation);
    EachWaitIsTheLeast(start, asks, r, now, d, booked, OfAll);
    EachWaitIsTheLeast(start, asks, r, now, d, booked, OfManual);
  }

  lemma EachWaitIsTheLeast(start: Time, asks: seq<Ask>, r: Report, now: Time, d: int, booked: Reading, w: Which)
    requires Orderly(start, asks) && ClockAfter(start, asks) <= now && d >= 0
    requires WaitOf(After(asks), r, Instant(now)) > 0
    ensures var c := AfterTake(After(asks), r, Instant(now), booked);
            WaitAt(c, r, w, now + d) <= 0 <==> d >= WaitAt(After(asks), r, w, now)
  {
    hide Live, SpanOf, HitsAt, KeyOf, Log, After, AfterTake, WaitOf, MaxOf, Orderly, ClockAfter, WaitFor, Ordered;
    match KeyOf(r, w)
    case None =>
    case Some(k) =>
      var c := After(asks);
      var full := Log(asks, w, k);
      CountersMirrorTheLog(start, asks, w, k);
      assert Instant(now).At(w) == now;
      ARefusalBooksNothing(c, r, Instant(now), booked, w, k, now + d);
      WaitIsTheLeast(full, now, SpanOf(w), MaxOf(w), d);
      WaitIsTheLeast(full, now + d, SpanOf(w), MaxOf(w), 0);
  }

  // --- the limits, by what was accepted ------------------------------------------------------------

  /** Was the ask accepted after the ones before it? */
  predicate Accepted(before: seq<Ask>, a: Ask) {
    WaitOf(After(before), a.report, a.asked) <= 0
  }

  /** When the accepted reports of a tablet were booked: all of them, or only those sent by hand. */
  function TabletTimes(asks: seq<Ask>, location: Id, tablet: Id): seq<Time> {
    if asks == [] then []
    else
      var init, last := asks[..|asks|-1], asks[|asks|-1];
      TabletTimes(init, location, tablet)
      + if Accepted(init, last) && last.report.location == location && last.report.tablet == tablet
        then [last.booked.tablet] else []
  }

  function ManualTimes(asks: seq<Ask>, location: Id, tablet: Id): seq<Time> {
    if asks == [] then []
    else
      var init, last := asks[..|asks|-1], asks[|asks|-1];
      ManualTimes(init, location, tablet)
      + if Accepted(init, last) && last.report.manual && last.report.location == location && last.report.tablet == tablet
        then [last.booked.manual] else []
  }

  function LocationTimes(asks: seq<Ask>, location: Id): seq<Time> {
    if asks == [] then []
    else
      var init, last := asks[..|asks|-1], asks[|asks|-1];
      LocationTimes(init, location)
      + if Accepted(init, last) && last.report.location == location then [last.booked.location] else []
  }

  function AllTimes(asks: seq<Ask>): seq<Time> {
    if asks == [] then []
    else
      var init, last := asks[..|asks|-1], asks[|asks|-1];
      AllTimes(init) + if Accepted(init, last) then [last.booked.all] else []
  }

  lemma {:induction false} LogsAreTheAccepted(asks: seq<Ask>, location: Id, tablet: Id)
    ensures Log(asks, OfTablet, TabletKey(location, tablet)) == TabletTimes(asks, location, tablet)
    ensures Log(asks, OfManual, TabletKey(location, tablet)) == ManualTimes(asks, location, tablet)
    ensures Log(asks, OfLocation, LocationKey(location)) == LocationTimes(asks, location)
    ensures Log(asks, OfAll, GlobalKey) == AllTimes(asks)
    decreases |asks|
  {
    hide WaitOf, After;
    if asks != [] { LogsAreTheAccepted(asks[..|asks|-1], location, tablet); }
  }

  /**
   * In every run, whatever an interval of the length covers: 30 reports of a tablet in an hour, 120 of a location in a day,
   * 1000 altogether in an hour, and one sent by hand from a tablet in ten minutes, at most.
   */
  lemma TheLimitsHold(start: Time, asks: seq<Ask>, location: Id, tablet: Id)
    requires Orderly(start, asks)
    ensures Limited(TabletTimes(asks, location, tablet), 30, 3_600_000_000_000)
    ensures Limited(LocationTimes(asks, location), 120, 86_400_000_000_000)
    ensures Limited(AllTimes(asks), 1000, 3_600_000_000_000)
    ensures Limited(ManualTimes(asks, location, tablet), 1, 600_000_000_000)
  {
    hide Limited, Orderly, Log, TabletTimes, LocationTimes, AllTimes, ManualTimes;
    LogsAreTheAccepted(asks, location, tablet);
    NoWindowOverfills(start, asks, OfTablet, TabletKey(location, tablet));
    NoWindowOverfills(start, asks, OfLocation, LocationKey(location));
    NoWindowOverfills(start, asks, OfAll, GlobalKey);
    NoWindowOverfills(start, asks, OfManual, TabletKey(location, tablet));
  }

  lemma LogIsFull(start: Time, asks: seq<Ask>, r: Report, w: Which, k: Key, t: Time)
    requires Orderly(start, asks) && ClockAfter(start, asks) <= t && KeyOf(r, w) == Some(k)
    ensures WaitAt(After(asks), r, w, t) > 0 <==> |Live(Log(asks, w, k), t, SpanOf(w))| >= MaxOf(w)
  {
    hide Live, SpanOf, HitsAt, KeyOf, Log, After, MaxOf, Orderly, ClockAfter, Ordered, WaitFor;
    CountersMirrorTheLog(start, asks, w, k);
    var live := Live(Log(asks, w, k), t, SpanOf(w));
    assert LiveAt(After(asks), r, w, t) == live;
    FullWindowsWait(Log(asks, w, k), t, SpanOf(w), MaxOf(w));
  }

  lemma FullWindowsWait(ts: seq<Time>, t: Time, span: int, max: int)
    requires Ordered(ts) && max >= 1
    ensures WaitFor(Live(ts, t, span), t, span, max) > 0 <==> |Live(ts, t, span)| >= max
  {
    hide Live;
    WaitIsTheLeast(ts, t, span, max, 0);
  }

  /** A report is refused exactly when one of its windows already holds as many accepted ones as it may. */
  lemma WhenAReportIsRefused(start: Time, asks: seq<Ask>, r: Report, now: Time)
    requires Orderly(start, asks) && ClockAfter(start, asks) <= now
    ensures WaitOf(After(asks), r, Instant(now)) > 0 <==>
      || |Live(TabletTimes(asks, r.location, r.tablet), now, 3_600_000_000_000)| >= 30
      || |Live(LocationTimes(asks, r.location), now, 86_400_000_000_000)| >= 120
      || |Live(AllTimes(asks), now, 3_600_000_000_000)| >= 1000
      || (r.manual && |Live(ManualTimes(asks, r.location, r.tablet), now, 600_000_000_000)| >= 1)
  {
    hide Live, Orderly, Log, TabletTimes, LocationTimes, AllTimes, ManualTimes, After, WaitAt, ClockAfter;
    LogsAreTheAccepted(asks, r.location, r.tablet);
    LogIsFull(start, asks, r, OfTablet, TabletKey(r.location, r.tablet), now);
    LogIsFull(start, asks, r, OfLocation, LocationKey(r.location), now);
    LogIsFull(start, asks, r, OfAll, GlobalKey, now);
    if r.manual {
      LogIsFull(start, asks, r, OfManual, TabletKey(r.location, r.tablet), now);
    } else {
      NoManualWait(After(asks), r, now);
    }
  }

  lemma NoManualWait(c: Counters, r: Report, t: Time)
    requires !r.manual
    ensures WaitAt(c, r, OfManual, t) == 0
  {
  }

  /** Does a call read a clock that has not run back since the one before it? */
  predicate RisesAt(start: Time, asks: seq<Ask>, i: nat)
    requires i < |asks|
  {
    Rising(if i == 0 then start else asks[i-1].booked.manual, asks[i])
  }

  /** A run is orderly when each of its calls reads a clock that has not run back since the one before it. */
  lemma {:induction false} WhenRunsAreOrderly(start: Time, asks: seq<Ask>)
    ensures Orderly(start, asks) <==> forall i :: 0 <= i < |asks| ==> RisesAt(start, asks, i)
    decreases |asks|
  {
    hide Rising;
    if asks != [] {
      var init := asks[..|asks|-1];
      WhenRunsAreOrderly(start, init);
      assert forall i :: 0 <= i < |init| ==> RisesAt(start, init, i) == RisesAt(start, asks, i);
      assert RisesAt(start, asks, |asks| - 1) == Rising(ClockAfter(start, init), asks[|asks|-1]);
    }
  }
}
