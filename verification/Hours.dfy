/** Weekly opening hours on a local clock with a fixed offset, and the question whether they hold an instant. */
module Hours {
  import opened Options

  /** Instants and lengths of time count nanoseconds. */
  type Time = int

  const MINUTE := 60_000_000_000
  const DAY_MINUTES := 1440
  const DAY := 86_400_000_000_000

  /** A wall-clock time in minutes after midnight. */
  type Clock = m: int | 0 <= m < DAY_MINUTES

  datatype Range = Range(open: Clock, close: Clock)

  /** A week's hours, Monday first. A day without ranges is closed. */
  type Weekly = w: seq<seq<Range>> | |w| == 7 witness [[], [], [], [], [], [], []]

  datatype Period = Period(start: Time, end: Time)
  {
    predicate Holds(t: Time) {
      start <= t < end
    }
  }

  /** Midnight at the start of a local date; dates count days, and the zone is the clock's lead. */
  function Midnight(date: int, zone: int): Time {
    date * DAY - zone
  }

  function DateOf(t: Time, zone: int): (date: int)
    ensures Midnight(date, zone) <= t < Midnight(date + 1, zone)
  {
    (t + zone) / DAY
  }

  /** Day 0 is a Thursday. */
  function WeekdayOf(date: int): (i: nat)
    ensures i < 7
  {
    (date + 3) % 7
  }

  /** A range as a stretch of a date; when it does not close after it opens, it ends a day later. */
  function Stretch(date: int, r: Range, zone: int): (p: Period)
    ensures Midnight(date, zone) <= p.start < Midnight(date + 1, zone)
    ensures p.start < p.end < Midnight(date + 2, zone)
  {
    Period(Midnight(date, zone) + r.open * MINUTE,
           Midnight(if r.close <= r.open then date + 1 else date, zone) + r.close * MINUTE)
  }

  predicate HoldsWidened(p: Period, t: Time, grace: Time) {
    p.start - grace <= t < p.end + grace
  }

  function RangesOn(weekly: Weekly, date: int): seq<Range> {
    weekly[WeekdayOf(date)]
  }

  /** Does some stretch that starts on the date, widened by grace, hold t? */
  predicate WidelyOpenFrom(weekly: Weekly, zone: int, date: int, t: Time, grace: Time) {
    exists r <- RangesOn(weekly, date) :: HoldsWidened(Stretch(date, r, zone), t, grace)
  }

  /** The definition without a lookup: some date's stretch holds t. */
  ghost predicate WidelyOpen(weekly: Weekly, zone: int, t: Time, grace: Time) {
    exists date :: WidelyOpenFrom(weekly, zone, date, t, grace)
  }

  /** The lookup: today's stretches, then yesterday's. */
  predicate IsOpenSpec(weekly: Weekly, zone: int, at: Time, grace: Time) {
    || WidelyOpenFrom(weekly, zone, DateOf(at, zone), at, grace)
    || WidelyOpenFrom(weekly, zone, DateOf(at, zone) - 1, at, grace)
  }

  method IsOpen(weekly: Weekly, zone: int, at: Time, grace: Time) returns (open: bool)
    ensures open <==> IsOpenSpec(weekly, zone, at, grace)
  {
    hide HoldsWidened, DateOf, WeekdayOf;
    var today := DateOf(at, zone);
    for back := 0 to 2
      invariant forall date :: today - back < date <= today ==> !WidelyOpenFrom(weekly, zone, date, at, grace)
    {
      var ranges := RangesOn(weekly, today - back);
      for i := 0 to |ranges|
        invariant forall r <- ranges[..i] :: !HoldsWidened(Stretch(today - back, r, zone), at, grace)
      {
        if HoldsWidened(Stretch(today - back, ranges[i], zone), at, grace) {
          assert WidelyOpenFrom(weekly, zone, today - back, at, grace);
          return true;
        }
        assert ranges[..i+1] == ranges[..i] + [ranges[i]];
      }
      assert ranges[..|ranges|] == ranges;
    }
    return false;
  }

  /** Saved hours never open and close at the same minute. */
  ghost predicate Validated(weekly: Weekly) {
    forall day :: 0 <= day < 7 ==> forall r <- weekly[day] :: r.open != r.close
  }

  /** The two days looked at are enough exactly while the grace reaches no stretch of another date. */
  predicate GraceStaysWithinTwoDays(zone: int, at: Time, grace: Time) {
    var sinceMidnight := at - Midnight(DateOf(at, zone), zone);
    grace - 2 * MINUTE <= sinceMidnight < DAY - grace
  }

  lemma OnlyTwoDatesReach(weekly: Weekly, zone: int, at: Time, grace: Time, date: int)
    requires Validated(weekly) && GraceStaysWithinTwoDays(zone, at, grace)
    requires WidelyOpenFrom(weekly, zone, date, at, grace)
    ensures DateOf(at, zone) - 1 <= date <= DateOf(at, zone)
  {
    var r :| r in RangesOn(weekly, date) && HoldsWidened(Stretch(date, r, zone), at, grace);
    assert r.open != r.close;
    assert Stretch(date, r, zone).end <= Midnight(date + 2, zone) - 2 * MINUTE;
  }

  /** A week that opens for a minute after one day's midnight. */
  function OneMinute(day: nat): (w: Weekly)
    requires day < 7
    ensures Validated(w)
    ensures w[day] == [Range(0, 1)] && forall other :: 0 <= other < 7 && other != day ==> w[other] == []
  {
    var closed: seq<seq<Range>> := [[], [], [], [], [], [], []];
    closed[day := [Range(0, 1)]]
  }

  /** A week that opens once, for all but the minute before it closes again the next day. */
  function AllButAMinute(day: nat): (w: Weekly)
    requires day < 7
    ensures Validated(w)
    ensures w[day] == [Range(1439, 1438)] && forall other :: 0 <= other < 7 && other != day ==> w[other] == []
  {
    var closed: seq<seq<Range>> := [[], [], [], [], [], [], []];
    closed[day := [Range(1439, 1438)]]
  }

  /**
   * Widened by a grace, the lookup gives the right answer for every validated week exactly when the instant lies
   * far enough from midnight: otherwise tomorrow's first stretch, or the one from the day before yesterday, is missed.
   */
  lemma GraceNearMidnight(zone: int, at: Time, grace: Time)
    requires grace >= 0
    ensures (forall weekly: Weekly :: Validated(weekly) ==>
              (IsOpenSpec(weekly, zone, at, grace) <==> WidelyOpen(weekly, zone, at, grace)))
       <==> GraceStaysWithinTwoDays(zone, at, grace)
  {
    if GraceStaysWithinTwoDays(zone, at, grace) {
      forall weekly: Weekly | Validated(weekly)
        ensures IsOpenSpec(weekly, zone, at, grace) <==> WidelyOpen(weekly, zone, at, grace)
      {
        LookupFindsTheStretch(weekly, zone, at, grace);
      }
    } else {
      var weekly := TheMissedWeek(zone, at, grace);
      assert Validated(weekly);
    }
  }

  lemma LookupFindsTheStretch(weekly: Weekly, zone: int, at: Time, grace: Time)
    requires Validated(weekly) && GraceStaysWithinTwoDays(zone, at, grace)
    ensures IsOpenSpec(weekly, zone, at, grace) <==> WidelyOpen(weekly, zone, at, grace)
  {
    hide WidelyOpenFrom, Validated, GraceStaysWithinTwoDays, DateOf;
    if WidelyOpen(weekly, zone, at, grace) {
      var date :| WidelyOpenFrom(weekly, zone, date, at, grace);
      OnlyTwoDatesReach(weekly, zone, at, grace, date);
    }
  }

  lemma TheMissedWeek(zone: int, at: Time, grace: Time) returns (weekly: Weekly)
    requires grace >= 0 && !GraceStaysWithinTwoDays(zone, at, grace)
    ensures Validated(weekly)
    ensures !IsOpenSpec(weekly, zone, at, grace) && WidelyOpen(weekly, zone, at, grace)
  {
    var today := DateOf(at, zone);
    if at - Midnight(today, zone) >= DAY - grace {
      weekly := OneMinute(WeekdayOf(today + 1));
      assert Range(0, 1) in RangesOn(weekly, today + 1);
      assert WidelyOpenFrom(weekly, zone, today + 1, at, grace);
    } else {
      weekly := AllButAMinute(WeekdayOf(today - 2));
      assert Range(1439, 1438) in RangesOn(weekly, today - 2);
      assert WidelyOpenFrom(weekly, zone, today - 2, at, grace);
    }
  }

  // --- the clock and the calendar -----------------------------------------------------------------

  /** Dates go through the week in order, and 1 January 1970, date 0, was a Thursday. */
  lemma TheWeekGoesOn(date: int)
    ensures WeekdayOf(0) == 3 && WeekdayOf(date + 1) == (if WeekdayOf(date) == 6 then 0 else WeekdayOf(date) + 1)
  {
    hide DateOf;
    assert (date + 4) % 7 == ((date + 3) % 7 + 1) % 7;
  }

  /** A stretch begins at its opening time and lasts to the next closing time on the clock: a whole day if they are equal. */
  lemma AStretchLastsToTheNextClose(date: int, r: Range, zone: int)
    ensures var p := Stretch(date, r, zone);
      && p.start == date * DAY - zone + r.open * MINUTE
      && p.end == p.start + (if r.close > r.open then r.close - r.open else r.close + 1440 - r.open) * MINUTE
  {
  }
}
