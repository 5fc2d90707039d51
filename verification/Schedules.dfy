/** A store's schedule: weekly hours, dated exceptions, and what is open when. */
module Schedules {
  import opened Options
  import opened Sequences
  import opened Hours

  /** The hours of one date that differs from its weekday. */
  datatype DayException = DayException(closed: bool, hours: seq<Range>)

  datatype Schedule = Schedule(weekly: Weekly, exceptions: map<int, DayException>, zone: int)

  const LOOK_AHEAD := 14

  /** A store without any weekly range is always open. */
  predicate HoursSet(s: Schedule) {
    exists day :: 0 <= day < 7 && s.weekly[day] != []
  }

  function DayHours(s: Schedule, date: int): seq<Range> {
    if date in s.exceptions then
      if s.exceptions[date].closed then [] else s.exceptions[date].hours
    else RangesOn(s.weekly, date)
  }

  predicate AllDay(s: Schedule, date: int) {
    !HoursSet(s) && date !in s.exceptions
  }

  function WholeDay(s: Schedule, date: int): Period {
    Period(Midnight(date, s.zone), Midnight(date + 1, s.zone))
  }

  function StretchesOf(date: int, ranges: seq<Range>, zone: int): (ps: seq<Period>)
    ensures |ps| == |ranges| && forall i :: 0 <= i < |ps| ==> ps[i] == Stretch(date, ranges[i], zone)
  {
    seq(|ranges|, i requires 0 <= i < |ranges| => Stretch(date, ranges[i], zone))
  }

  /** A date's stretches, unsorted. */
  function Stretches(s: Schedule, date: int): seq<Period> {
    if AllDay(s, date) then [WholeDay(s, date)] else StretchesOf(date, DayHours(s, date), s.zone)
  }

  function StartOf(p: Period): int {
    p.start
  }

  function PeriodsSpec(s: Schedule, date: int): seq<Period> {
    SortBy(Stretches(s, date), StartOf)
  }

  /** The periods of n consecutive dates, date after date. */
  function PeriodsFrom(s: Schedule, date: int, n: nat): seq<Period> {
    if n == 0 then [] else PeriodsFrom(s, date, n - 1) + PeriodsSpec(s, date + n - 1)
  }

  /** Every period of the dates around t, sorted by its start. */
  function AroundSpec(s: Schedule, t: Time, days: nat): seq<Period> {
    SortBy(PeriodsFrom(s, DateOf(t, s.zone) - 1, days + 2), StartOf)
  }

  function FirstHolding(ps: seq<Period>, t: Time): Option<Period> {
    if ps == [] then None else if ps[0].Holds(t) then Some(ps[0]) else FirstHolding(ps[1..], t)
  }

  function FirstAfter(ps: seq<Period>, t: Time): Option<Time> {
    if ps == [] then None else if ps[0].start > t then Some(ps[0].start) else FirstAfter(ps[1..], t)
  }

  function CurrentSpec(s: Schedule, t: Time): Option<Period> {
    FirstHolding(AroundSpec(s, t, 0), t)
  }

  predicate OpenAt(s: Schedule, t: Time) {
    CurrentSpec(s, t).Some?
  }

  function NextOpenSpec(s: Schedule, t: Time): Option<Time> {
    if OpenAt(s, t) then Some(t) else FirstAfter(AroundSpec(s, t, LOOK_AHEAD), t)
  }

  /** The end a stretch reaches when each period that begins by then pushes it on. */
  function Chained(ps: seq<Period>, end: Time): Time {
    if ps == [] then end
    else
      var sofar, last := Chained(ps[..|ps|-1], end), ps[|ps|-1];
      if last.start <= sofar < last.end then last.end else sofar
  }

  function ClosesAtSpec(s: Schedule, t: Time): Option<Time> {
    match CurrentSpec(s, t)
    case None => None
    case Some(p) => if HoursSet(s) then Some(Chained(AroundSpec(s, p.end, 1), p.end)) else None
  }

  // --- the loops ----------------------------------------------------------------------------

  method Periods(s: Schedule, date: int) returns (out: seq<Period>)
    ensures out == PeriodsSpec(s, date)
  {
    if AllDay(s, date) {
      out := [WholeDay(s, date)];
      assert out == SortBy(out, StartOf) by { assert out[1..] == []; }
      return;
    }
    var ranges := DayHours(s, date);
    out := [];
    for i := 0 to |ranges|
      invariant out == StretchesOf(date, ranges[..i], s.zone)
    {
      PrefixOfPrefix(ranges, i);
      out := out + [Stretch(date, ranges[i], s.zone)];
    }
    assert ranges[..|ranges|] == ranges;
    out := SortBy(out, StartOf);
  }

  method PeriodsAround(s: Schedule, t: Time, days: nat) returns (out: seq<Period>)
    ensures out == AroundSpec(s, t, days)
  {
    hide PeriodsSpec, SortBy, DateOf;
    var today := DateOf(t, s.zone);
    out := [];
    for i := -1 to days + 1
      invariant out == PeriodsFrom(s, today - 1, i + 1)
    {
      var ps := Periods(s, today + i);
      out := out + ps;
    }
    out := SortBy(out, StartOf);
  }

  method Current(s: Schedule, t: Time) returns (p: Option<Period>)
    ensures p == CurrentSpec(s, t)
  {
    hide AroundSpec;
    var ps := PeriodsAround(s, t, 0);
    for i := 0 to |ps|
      invariant FirstHolding(ps, t) == FirstHolding(ps[i..], t)
    {
      if ps[i].Holds(t) { return Some(ps[i]); }
      assert ps[i..][1..] == ps[i+1..];
    }
    return None;
  }

  method NextOpen(s: Schedule, t: Time) returns (at: Option<Time>)
    ensures at == NextOpenSpec(s, t)
  {
    hide AroundSpec, CurrentSpec;
    var now := Current(s, t);
    if now.Some? { return Some(t); }
    var ps := PeriodsAround(s, t, LOOK_AHEAD);
    for i := 0 to |ps|
      invariant FirstAfter(ps, t) == FirstAfter(ps[i..], t)
    {
      if ps[i].start > t { return Some(ps[i].start); }
      assert ps[i..][1..] == ps[i+1..];
    }
    return None;
  }

  method ClosesAt(s: Schedule, t: Time) returns (at: Option<Time>)
    ensures at == ClosesAtSpec(s, t)
  {
    hide AroundSpec, CurrentSpec, HoursSet;
    var now := Current(s, t);
    if now.None? || !HoursSet(s) { return None; }
    var end := now.value.end;
    var ps := PeriodsAround(s, end, 1);
    for i := 0 to |ps|
      invariant end == Chained(ps[..i], now.value.end)
    {
      PrefixOfPrefix(ps, i);
      if ps[i].start <= end && ps[i].end > end { end := ps[i].end; }
    }
    assert ps[..|ps|] == ps;
    return Some(end);
  }

  // --- the definition the lookups are measured against ----------------------------------------

  /** Some period of some date holds t. */
  ghost predicate Open(s: Schedule, t: Time) {
    exists date :: OpenFrom(s, date, t)
  }

  ghost predicate OpenFrom(s: Schedule, date: int, t: Time) {
    exists p <- Stretches(s, date) :: p.Holds(t)
  }

  lemma StretchBounds(s: Schedule, date: int, p: Period)
    requires p in Stretches(s, date)
    ensures Midnight(date, s.zone) <= p.start < Midnight(date + 1, s.zone)
    ensures p.start < p.end < Midnight(date + 2, s.zone)
  {
    hide DayHours, AllDay;
  }

  lemma {:induction false} PeriodsFromMembers(s: Schedule, date: int, n: nat, p: Period)
    ensures p in PeriodsFrom(s, date, n) <==> exists d :: date <= d < date + n && p in Stretches(s, d)
    decreases n
  {
    hide Stretches, SortBy;
    if n > 0 {
      PeriodsFromMembers(s, date, n - 1, p);
      SortByMembers(Stretches(s, date + n - 1), StartOf);
    }
  }

  /** What the sorted list around an instant holds. */
  lemma AroundMembers(s: Schedule, t: Time, days: nat, p: Period)
    ensures p in AroundSpec(s, t, days)
       <==> exists d :: DateOf(t, s.zone) - 1 <= d <= DateOf(t, s.zone) + days && p in Stretches(s, d)
  {
    hide Stretches, SortBy, DateOf, PeriodsFrom;
    var day := DateOf(t, s.zone);
    PeriodsFromMembers(s, day - 1, days + 2, p);
    SortByMembers(PeriodsFrom(s, day - 1, days + 2), StartOf);
  }

  lemma {:induction false} FirstHoldingFinds(ps: seq<Period>, t: Time)
    ensures FirstHolding(ps, t).Some? <==> exists p <- ps :: p.Holds(t)
    ensures FirstHolding(ps, t).Some? ==> FirstHolding(ps, t).value in ps && FirstHolding(ps, t).value.Holds(t)
  {
    if ps != [] {
      FirstHoldingFinds(ps[1..], t);
      assert ps == [ps[0]] + ps[1..];
    }
  }

  lemma {:induction false} FirstAfterFinds(ps: seq<Period>, t: Time)
    requires SortedBy(ps, StartOf)
    ensures match FirstAfter(ps, t)
            case None => forall p <- ps :: p.start <= t
            case Some(u) => u > t && (exists p <- ps :: p.start == u) && forall p <- ps :: p.start > t ==> u <= p.start
  {
    if ps == [] {
    } else if ps[0].start > t {
      assert ps[0] in ps;
      forall p <- ps ensures ps[0].start <= p.start {
        var i :| 0 <= i < |ps| && ps[i] == p;
        assert StartOf(ps[0]) <= StartOf(ps[i]);
      }
    } else {
      FirstAfterFinds(ps[1..], t);
      assert ps == [ps[0]] + ps[1..];
    }
  }

  lemma OnlyTwoDatesHold(s: Schedule, date: int, t: Time)
    requires OpenFrom(s, date, t)
    ensures DateOf(t, s.zone) - 1 <= date <= DateOf(t, s.zone)
  {
    hide Stretches;
    var p :| p in Stretches(s, date) && p.Holds(t);
    StretchBounds(s, date, p);
  }

  /** Looking at two days is enough: OpenAt is the definition. */
  lemma OpenAtIsOpen(s: Schedule, t: Time)
    ensures OpenAt(s, t) <==> Open(s, t)
    ensures OpenAt(s, t) ==> CurrentSpec(s, t).value.Holds(t)
    ensures OpenAt(s, t) ==> exists d :: CurrentSpec(s, t).value in Stretches(s, d)
  {
    hide Stretches, AroundSpec, DateOf;
    var ps := AroundSpec(s, t, 0);
    FirstHoldingFinds(ps, t);
    if OpenAt(s, t) {
      var p := CurrentSpec(s, t).value;
      AroundMembers(s, t, 0, p);
      var d :| p in Stretches(s, d);
      assert OpenFrom(s, d, t);
    }
    if Open(s, t) {
      var d :| OpenFrom(s, d, t);
      var p :| p in Stretches(s, d) && p.Holds(t);
      OnlyTwoDatesHold(s, d, t);
      AroundMembers(s, t, 0, p);
    }
  }

  /** The two implementations agree without grace, where hours are set and no date is an exception. */
  lemma BothLookupsAgree(s: Schedule, t: Time)
    requires HoursSet(s) && s.exceptions == map[]
    ensures OpenAt(s, t) <==> IsOpenSpec(s.weekly, s.zone, t, 0)
  {
    hide HoursSet, DateOf, OpenAt, OpenFrom, WidelyOpenFrom, CurrentSpec, Stretches;
    var today := DateOf(t, s.zone);
    OpenAtIsOpen(s, t);
    SameOnADate(s, today, t);
    SameOnADate(s, today - 1, t);
    if Open(s, t) {
      var d :| OpenFrom(s, d, t);
      OnlyTwoDatesHold(s, d, t);
    }
  }

  lemma SameOnADate(s: Schedule, date: int, t: Time)
    requires HoursSet(s) && s.exceptions == map[]
    ensures OpenFrom(s, date, t) <==> WidelyOpenFrom(s.weekly, s.zone, date, t, 0)
  {
    hide HoursSet, RangesOn;
    var ranges := RangesOn(s.weekly, date);
    assert Stretches(s, date) == StretchesOf(date, ranges, s.zone);
    if WidelyOpenFrom(s.weekly, s.zone, date, t, 0) {
      var r :| r in ranges && HoldsWidened(Stretch(date, r, s.zone), t, 0);
      var i :| 0 <= i < |ranges| && ranges[i] == r;
      assert Stretches(s, date)[i].Holds(t);
    }
  }

  // --- the next opening ---------------------------------------------------------------------

  /** NextOpen is the first open instant from t on; when it finds none, nothing opens for the next two weeks. */
  lemma NextOpenIsTheFirst(s: Schedule, t: Time)
    ensures match NextOpenSpec(s, t)
            case Some(u) => t <= u && Open(s, u) && forall x :: t <= x < u ==> !Open(s, x)
            case None => forall x :: t <= x < Midnight(DateOf(t, s.zone) + LOOK_AHEAD + 1, s.zone) ==> !Open(s, x)
  {
    hide CurrentSpec, AroundSpec, Stretches, DateOf, Open, SortBy;
    OpenAtIsOpen(s, t);
    if !OpenAt(s, t) {
      var ps := AroundSpec(s, t, LOOK_AHEAD);
      AroundIsSorted(s, t, LOOK_AHEAD);
      FirstAfterFinds(ps, t);
      var limit := Midnight(DateOf(t, s.zone) + LOOK_AHEAD + 1, s.zone);
      forall x | t <= x < limit && Open(s, x)
        ensures exists p <- ps :: t < p.start <= x
      {
        OpensByAPeriod(s, t, x);
      }
      if NextOpenSpec(s, t).Some? {
        var u := NextOpenSpec(s, t).value;
        var p :| p in ps && p.start == u;
        AroundMembers(s, t, LOOK_AHEAD, p);
        var d :| DateOf(t, s.zone) - 1 <= d <= DateOf(t, s.zone) + LOOK_AHEAD && p in Stretches(s, d);
        StretchBounds(s, d, p);
        OpensAtItsStart(s, d, p);
      }
    }
  }

  lemma AroundIsSorted(s: Schedule, t: Time, days: nat)
    ensures SortedBy(AroundSpec(s, t, days), StartOf)
  {
    hide SortBy, PeriodsFrom, SortedBy, DateOf;
    SortByIsSorted(PeriodsFrom(s, DateOf(t, s.zone) - 1, days + 2), StartOf);
  }

  lemma OpensAtItsStart(s: Schedule, date: int, p: Period)
    requires p in Stretches(s, date)
    ensures Open(s, p.start)
  {
    hide Stretches;
    StretchBounds(s, date, p);
    assert OpenFrom(s, date, p.start);
  }

  /** What is open later, but not now, opens in between by one of the listed periods. */
  lemma OpensByAPeriod(s: Schedule, t: Time, x: Time)
    requires !Open(s, t) && Open(s, x)
    requires t <= x < Midnight(DateOf(t, s.zone) + LOOK_AHEAD + 1, s.zone)
    ensures exists p <- AroundSpec(s, t, LOOK_AHEAD) :: t < p.start <= x
  {
    hide AroundSpec, Stretches, DateOf;
    var d :| OpenFrom(s, d, x);
    var p :| p in Stretches(s, d) && p.Holds(x);
    StretchBounds(s, d, p);
    assert p.start <= t ==> p.Holds(t);
    assert p.start <= t ==> OpenFrom(s, d, t);
    AroundMembers(s, t, LOOK_AHEAD, p);
  }

  ghost predicate SomeDates(s: Schedule, p: Period) {
    exists date :: p in Stretches(s, date)
  }

  // --- the close ----------------------------------------------------------------------------

  lemma {:induction false} ChainedIsOpen(s: Schedule, ps: seq<Period>, t: Time, end: Time)
    requires forall p <- ps :: SomeDates(s, p)
    requires t <= end && forall x :: t <= x < end ==> Open(s, x)
    ensures end <= Chained(ps, end)
    ensures forall x :: t <= x < Chained(ps, end) ==> Open(s, x)
  {
    hide Stretches;
    if ps != [] {
      var init, last := ps[..|ps|-1], ps[|ps|-1];
      assert forall p <- init :: p in ps;
      ChainedIsOpen(s, init, t, end);
      assert last in ps;
      var d :| last in Stretches(s, d);
      forall x | t <= x < Chained(ps, end) ensures Open(s, x) {
        if x >= Chained(init, end) { assert OpenFrom(s, d, x); }
      }
    }
  }

  /** In a sorted list nothing that begins by the reached end outlasts it. */
  lemma {:induction false} ChainedIsMaximal(ps: seq<Period>, end: Time, p: Period)
    requires SortedBy(ps, StartOf) && p in ps
    ensures Chained(ps, end) >= end
    ensures p.start <= Chained(ps, end) ==> p.end <= Chained(ps, end)
  {
    var init, last := ps[..|ps|-1], ps[|ps|-1];
    ChainedGrows(init, end);
    if p in init {
      ChainedIsMaximal(init, end, p);
      var i :| 0 <= i < |init| && init[i] == p;
      assert StartOf(ps[i]) <= StartOf(last);
    } else {
      assert p == last;
    }
  }

  lemma {:induction false} ChainedGrows(ps: seq<Period>, end: Time)
    ensures Chained(ps, end) >= end
  {
    if ps != [] { ChainedGrows(ps[..|ps|-1], end); }
  }

  /** Everything is open from t up to the close reported for it, across chained and overlapping periods. */
  lemma OpenUntilItCloses(s: Schedule, t: Time)
    requires ClosesAtSpec(s, t).Some?
    ensures t < ClosesAtSpec(s, t).value
    ensures forall x :: t <= x < ClosesAtSpec(s, t).value ==> Open(s, x)
  {
    hide Stretches, AroundSpec, CurrentSpec, Chained, HoursSet;
    OpenAtIsOpen(s, t);
    var p := CurrentSpec(s, t).value;
    var d :| p in Stretches(s, d);
    var ps := AroundSpec(s, p.end, 1);
    forall q <- ps ensures SomeDates(s, q) { AroundMembers(s, p.end, 1, q); }
    forall x | t <= x < p.end ensures Open(s, x) { assert OpenFrom(s, d, x); }
    ChainedIsOpen(s, ps, t, p.end);
  }

  /** The latest of an end and the periods' own. */
  function LatestEnd(ps: seq<Period>, end: Time): Time {
    if ps == [] then end else Max(LatestEnd(ps[..|ps|-1], end), ps[|ps|-1].end)
  }

  lemma {:induction false} LatestEndCovers(ps: seq<Period>, end: Time)
    ensures LatestEnd(ps, end) >= end && forall p <- ps :: p.end <= LatestEnd(ps, end)
  {
    if ps != [] {
      LatestEndCovers(ps[..|ps|-1], end);
      assert ps == ps[..|ps|-1] + [ps[|ps|-1]];
    }
  }

  lemma {:induction false} LatestEndIsAnEnd(ps: seq<Period>, end: Time)
    ensures LatestEnd(ps, end) == end || exists p <- ps :: p.end == LatestEnd(ps, end)
  {
    if ps != [] {
      LatestEndIsAnEnd(ps[..|ps|-1], end);
      assert ps[|ps|-1] in ps;
    }
  }

  lemma {:induction false} ChainedIsAnEnd(ps: seq<Period>, end: Time)
    ensures Chained(ps, end) == end || exists p <- ps :: p.end == Chained(ps, end)
  {
    if ps != [] {
      ChainedIsAnEnd(ps[..|ps|-1], end);
      assert ps[|ps|-1] in ps;
    }
  }

  lemma TheChainStopsAfterTwoDates(s: Schedule, end: Time)
    ensures Chained(AroundSpec(s, end, 1), end) < Midnight(DateOf(end, s.zone) + 3, s.zone)
  {
    hide Stretches, AroundSpec, Chained, DateOf;
    var ps := AroundSpec(s, end, 1);
    ChainedIsAnEnd(ps, end);
    if Chained(ps, end) != end {
      var p :| p in ps && p.end == Chained(ps, end);
      AroundMembers(s, end, 1, p);
      var d :| DateOf(end, s.zone) - 1 <= d <= DateOf(end, s.zone) + 1 && p in Stretches(s, d);
      StretchBounds(s, d, p);
    }
  }

  /** What is open at the close reported is a period that begins two dates after the first stretch ended. */
  lemma OnlyTheThirdDateHoldsTheClose(s: Schedule, t: Time)
    requires ClosesAtSpec(s, t).Some?
    ensures var close, last := ClosesAtSpec(s, t).value, DateOf(CurrentSpec(s, t).value.end, s.zone) + 1;
            Open(s, close) <==> close >= Midnight(last + 1, s.zone) && OpenFrom(s, last + 1, close)
  {
    hide Stretches, AroundSpec, CurrentSpec, Chained, HoursSet, DateOf;
    var p := CurrentSpec(s, t).value;
    var close, last := ClosesAtSpec(s, t).value, DateOf(p.end, s.zone) + 1;
    var ps := AroundSpec(s, p.end, 1);
    AroundIsSorted(s, p.end, 1);
    if Open(s, close) {
      var d :| OpenFrom(s, d, close);
      var q :| q in Stretches(s, d) && q.Holds(close);
      StretchBounds(s, d, q);
      OnlyTwoDatesHold(s, d, close);
      ChainedGrows(ps, p.end);
      if q in ps { ChainedIsMaximal(ps, p.end, q); }
      AroundMembers(s, p.end, 1, q);
      TheChainStopsAfterTwoDates(s, p.end);
    }
  }

  /** A close on the third date is the latest end of all the periods looked at. */
  lemma AThirdDateCloseIsTheLatestEnd(s: Schedule, end: Time)
    requires Chained(AroundSpec(s, end, 1), end) >= Midnight(DateOf(end, s.zone) + 2, s.zone)
    ensures Chained(AroundSpec(s, end, 1), end) == LatestEnd(AroundSpec(s, end, 1), end)
  {
    hide Stretches, AroundSpec, Chained, LatestEnd, DateOf;
    var ps := AroundSpec(s, end, 1);
    CloseIsByTheLatestEnd(s, end);
    ChainedGrows(ps, end);
    LatestEndIsAnEnd(ps, end);
    if LatestEnd(ps, end) != end {
      var q :| q in ps && q.end == LatestEnd(ps, end);
      AroundMembers(s, end, 1, q);
      var d :| DateOf(end, s.zone) - 1 <= d <= DateOf(end, s.zone) + 1 && q in Stretches(s, d);
      StretchBounds(s, d, q);
      AroundIsSorted(s, end, 1);
      ChainedIsMaximal(ps, end, q);
    }
  }

  lemma CloseIsByTheLatestEnd(s: Schedule, end: Time)
    ensures end <= Chained(AroundSpec(s, end, 1), end) <= LatestEnd(AroundSpec(s, end, 1), end)
  {
    hide AroundSpec, Chained, LatestEnd;
    ChainedGrows(AroundSpec(s, end, 1), end);
    ChainedIsAnEnd(AroundSpec(s, end, 1), end);
    LatestEndCovers(AroundSpec(s, end, 1), end);
  }

  /**
   * The close reported is not the end exactly when the store stays open, from the end of the running period, up to the
   * latest end of the periods of the dates around it, and a period of the next date after those goes on from there:
   * the chain is followed no further.
   */
  lemma WhenTheCloseIsTheEnd(s: Schedule, t: Time)
    requires ClosesAtSpec(s, t).Some?
    ensures var end := CurrentSpec(s, t).value.end;
            var latest, third := LatestEnd(AroundSpec(s, end, 1), end), DateOf(end, s.zone) + 2;
            Open(s, ClosesAtSpec(s, t).value)
            <==> latest >= Midnight(third, s.zone) && OpenFrom(s, third, latest)
                 && forall x :: end <= x < latest ==> Open(s, x)
  {
    hide Stretches, AroundSpec, CurrentSpec, Chained, HoursSet, DateOf, OpenFrom, LatestEnd;
    var end := CurrentSpec(s, t).value.end;
    var close, latest := ClosesAtSpec(s, t).value, LatestEnd(AroundSpec(s, end, 1), end);
    CloseIsByTheLatestEnd(s, end);
    OnlyTheThirdDateHoldsTheClose(s, t);
    OpenUntilItCloses(s, t);
    OpenAtIsOpen(s, t);
    if Open(s, close) || close >= Midnight(DateOf(end, s.zone) + 2, s.zone) {
      AThirdDateCloseIsTheLatestEnd(s, end);
    }
  }

  /** Open from midnight to a minute before the next, and for that minute, every day. */
  const ROUND_THE_CLOCK := Schedule(seq(7, i => [Range(0, 1439), Range(1439, 0)]), map[], 0)

  lemma RoundTheClockIsAlwaysOpen(x: Time)
    ensures Open(ROUND_THE_CLOCK, x)
  {
    hide DateOf;
    var s := ROUND_THE_CLOCK;
    var date := DateOf(x, s.zone);
    var ps := Stretches(s, date);
    assert s.weekly[0] != [];
    assert ps[0].Holds(x) || ps[1].Holds(x);
    assert OpenFrom(s, date, x);
  }

  /** A store that never closes is given a close all the same. */
  lemma RoundTheClockIsGivenAClose(t: Time)
    ensures ClosesAtSpec(ROUND_THE_CLOCK, t).Some?
    ensures forall x :: Open(ROUND_THE_CLOCK, x)
  {
    hide AroundSpec, CurrentSpec, Chained, Open;
    var s := ROUND_THE_CLOCK;
    forall x ensures Open(s, x) { RoundTheClockIsAlwaysOpen(x); }
    OpenAtIsOpen(s, t);
    assert s.weekly[0] != [];
  }

  // --- what a date's hours are ----------------------------------------------------------------------

  /** The hours a date goes by: its exception's if it has one, and else its weekday's. */
  ghost predicate GoesBy(s: Schedule, date: int, r: Range) {
    if date in s.exceptions then !s.exceptions[date].closed && r in s.exceptions[date].hours
    else r in s.weekly[WeekdayOf(date)]
  }

  /**
   * A date's stretches are those of the hours it goes by; a store that has no weekly hours at all is open all of every date
   * without an exception.
   */
  lemma WhatADateIsOpen(s: Schedule, date: int, t: Time)
    ensures OpenFrom(s, date, t) <==>
      if date !in s.exceptions && forall day :: 0 <= day < 7 ==> s.weekly[day] == []
      then date * DAY - s.zone <= t < (date + 1) * DAY - s.zone
      else exists r :: GoesBy(s, date, r) && Stretch(date, r, s.zone).Holds(t)
  {
    var ranges := DayHours(s, date);
    if AllDay(s, date) {
      assert Stretches(s, date)[0] == WholeDay(s, date) && |Stretches(s, date)| == 1;
      assert OpenFrom(s, date, t) <==> WholeDay(s, date).Holds(t);
    } else {
      var ps := Stretches(s, date);
      assert forall r :: GoesBy(s, date, r) <==> r in ranges;
      hide Stretch, GoesBy, DayHours;
      if p :| p in ps && p.Holds(t) {
        var i :| 0 <= i < |ps| && ps[i] == p;
        assert GoesBy(s, date, ranges[i]) && Stretch(date, ranges[i], s.zone).Holds(t);
      }
      if r :| GoesBy(s, date, r) && Stretch(date, r, s.zone).Holds(t) {
        var i :| 0 <= i < |ranges| && ranges[i] == r;
        assert ps[i].Holds(t);
      }
    }
  }

  /** The next opening is looked for on the dates up to two weeks ahead, and every opening there is found. */
  lemma OpeningsAreFoundTwoWeeksAhead(s: Schedule, t: Time, x: Time)
    requires t <= x < Midnight(DateOf(t, s.zone) + 15, s.zone) && Open(s, x)
    ensures NextOpenSpec(s, t).Some? && t <= NextOpenSpec(s, t).value <= x
    ensures LOOK_AHEAD == 14
  {
    hide OpenAt, Open, NextOpenSpec;
    NextOpenIsTheFirst(s, t);
  }

  /** A close is reported exactly to a store that is open and has hours of some day of the week. */
  lemma WhenACloseIsKnown(s: Schedule, t: Time)
    ensures ClosesAtSpec(s, t).Some? <==> Open(s, t) && exists day :: 0 <= day < 7 && s.weekly[day] != []
  {
    hide CurrentSpec, Open, Chained, AroundSpec;
    OpenAtIsOpen(s, t);
  }
}
