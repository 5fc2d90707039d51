/** What the repository keeps of a live order: stale results are not written back, and what that costs convergence. */
module StoredOrders {
  import opened Options
  import opened Orders
  import opened OrderLife

  /** The order as the repository keeps it: a stale result is not written back. */
  function Stored(l: Life, u: FloorUpdate, now: Time): Life {
    var (next, result) := FloorUpdated(l, u, now);
    if result == Applied then next else l
  }

  /** Storing differs from the live order exactly when a newer report changed nothing that shows: its time is forgotten. */
  lemma StoringForgetsOnlyTheTime(l: Life, u: FloorUpdate, now: Time)
    ensures var next := FloorUpdated(l, u, now).0;
      && Stored(l, u, now) == next.(floorAt := Stored(l, u, now).floorAt)
      && (Stored(l, u, now) != next <==>
            && u.status != Cancelled && FloorRank(l.status).Some?
            && (l.floorAt == None || At(u.at, now) > l.floorAt.value)
            && Rank(u.status) <= Rank(l.status)
            && (u.kitchen.None? || u.kitchen == l.kitchen) && (u.readyAt.None? || u.readyAt == l.readyAt)
            && (u.driver == NO_ID || u.driver == l.driver))
  {
  }

  function StoredRun(l: Life, us: seq<FloorUpdate>, now: Time): Life {
    if us == [] then l else Stored(StoredRun(l, us[..|us|-1], now), us[|us|-1], now)
  }

  const FIRST := FloorUpdate(Accepted, Some(1), Some(50), 7, Some(10), false)
  const OLDER := FloorUpdate(Accepted, Some(1), Some(60), 7, Some(20), false)
  const NEWEST := FloorUpdate(Accepted, Some(1), Some(50), 7, Some(30), false)

  /** So the stored order need not converge: a newest report that repeats what is known does not shield it from an older one. */
  lemma StoredOrdersNeedNotConverge(now: Time)
    ensures (forall u :: u in [FIRST, OLDER, NEWEST] ==> Full(u)) && OneAtATime([FIRST, OLDER, NEWEST])
    ensures StoredRun(NewLife(now), [FIRST, OLDER, NEWEST], now).readyAt == Some(50)
    ensures StoredRun(NewLife(now), [FIRST, NEWEST, OLDER], now).readyAt == Some(60)
  {
    var start := NewLife(now);
    var one := Stored(start, FIRST, now);
    assert one.status == Accepted && one.readyAt == Some(50) && one.floorAt == Some(10) && one.driver == 7
           && one.kitchen == Some(1);
    NewestRepeats(one, now);
    OlderChanges(one, now);
    var two := Stored(one, OLDER, now);
    assert Stored(two, NEWEST, now).readyAt == Some(50);
    StoredThree(start, FIRST, OLDER, NEWEST, now);
    StoredThree(start, FIRST, NEWEST, OLDER, now);
  }

  lemma NewestRepeats(l: Life, now: Time)
    requires l.status == Accepted && l.readyAt == Some(50) && l.floorAt == Some(10) && l.driver == 7 && l.kitchen == Some(1)
    ensures Stored(l, NEWEST, now) == l
  {
  }

  lemma OlderChanges(l: Life, now: Time)
    requires l.status == Accepted && l.readyAt == Some(50) && l.floorAt == Some(10) && l.driver == 7 && l.kitchen == Some(1)
    ensures var r := Stored(l, OLDER, now); r.readyAt == Some(60) && r.status == Accepted && r.floorAt == Some(20)
  {
  }

  lemma StoredThree(l: Life, a: FloorUpdate, b: FloorUpdate, c: FloorUpdate, now: Time)
    ensures StoredRun(l, [a, b, c], now) == Stored(Stored(Stored(l, a, now), b, now), c, now)
  {
    hide Stored;
    assert [a, b, c][..2] == [a, b];
    assert [a, b][..1] == [a];
    assert StoredRun(l, [a], now) == Stored(l, a, now) by { assert [a][..0] == []; }
    assert StoredRun(l, [a, b], now) == Stored(Stored(l, a, now), b, now);
  }

  // --- when stored orders converge --------------------------------------------------------------

  datatype Fields = Fields(kitchen: Option<int>, readyAt: Option<Time>, driver: Id)

  function FieldsOf(l: Life): Fields {
    Fields(l.kitchen, l.readyAt, l.driver)
  }

  function Sent(u: FloorUpdate): Fields {
    Fields(u.kitchen, u.readyAt, u.driver)
  }

  /** An order the floor has not reported on yet. */
  predicate Untouched(l: Life) {
    l.floorAt == None && l.driver == NO_ID && FloorRank(l.status).Some?
  }

  /** Only the floor names drivers, so an order without a floor time has none. */
  lemma {:induction false} NoFloorTimeNoDriver(now: Time, steps: seq<Step>)
    ensures var r := Run(NewLife(now), steps); r.floorAt == None ==> r.driver == NO_ID
  {
    hide Transitioned;
    if steps != [] {
      var before, last := steps[..|steps|-1], steps[|steps|-1];
      NoFloorTimeNoDriver(now, before);
      StepNamesNoDriver(Run(NewLife(now), before), last);
    }
  }

  lemma StepNamesNoDriver(l: Life, s: Step)
    requires l.floorAt == None ==> l.driver == NO_ID
    ensures var next := StepResult(l, s).0; next.floorAt == None ==> next.driver == NO_ID
  {
  }

  /** The reports that may come, full and sent at different times, and the newest of them. */
  ghost predicate Reports(all: seq<FloorUpdate>, n: FloorUpdate) {
    (forall u :: u in all ==> Full(u)) && OneAtATime(all) && IsNewest(n, all)
  }

  /** What has come so far of a delivery in any order, with any repeats, the newest report included. */
  ghost predicate Drawn(us: seq<FloorUpdate>, all: seq<FloorUpdate>, n: FloorUpdate) {
    n in us && forall u :: u in us ==> u in all
  }

  /** By time t, the order or some report is as far along as the newest report. */
  ghost predicate AlongBy(l: Life, all: seq<FloorUpdate>, n: FloorUpdate, t: Option<Time>) {
    || Rank(n.status) <= Rank(l.status)
    || exists c :: c in all && c.at.Some? && t.Some? && c.at.value <= t.value && Rank(n.status) <= Rank(c.status)
  }

  /** A report that leaves the newest one nothing new to say, so that it is not written back. */
  ghost predicate Twin(l: Life, all: seq<FloorUpdate>, n: FloorUpdate, a: FloorUpdate) {
    a in all && a != n && Sent(a) == Sent(n) && AlongBy(l, all, n, a.at)
  }

  /** A twin, and another report after it that says something else. */
  ghost predicate Overtaken(l: Life, all: seq<FloorUpdate>, n: FloorUpdate) {
    exists a, b :: Twin(l, all, n, a) && b in all && a.at.Some? && b.at.Some? && a.at.value < b.at.value
                   && Sent(b) != Sent(n)
  }

  /** The stored fields are those of the report the stored time is from. */
  ghost predicate InStep(l: Life, r: Life, us: seq<FloorUpdate>, from: FloorUpdate) {
    && from in us && from.at.Some? && r.floorAt == from.at && FieldsOf(r) == Sent(from)
    && (r.status == l.status || exists c :: c in us && c.status == r.status && c.at.Some? && c.at.value <= from.at.value)
  }

  /** What is stored after one more full report. */
  lemma StoredStep(l: Life, u: FloorUpdate, now: Time)
    requires Full(u) && FloorRank(l.status).Some?
    ensures var r := Stored(l, u, now);
      && r.status == (if Rank(u.status) > Rank(l.status) then u.status else l.status)
      && (if l.floorAt.Some? && u.at.value < l.floorAt.value then FieldsOf(r) == FieldsOf(l) && r.floorAt == l.floorAt
          else if Rank(u.status) <= Rank(l.status) && Sent(u) == FieldsOf(l)
               then r == l
               else FieldsOf(r) == Sent(u) && r.floorAt == u.at)
  {
  }

  /** Whatever is stored or not, the status is the furthest that came. */
  lemma {:induction false} StoredStatusIsTheFurthest(l: Life, us: seq<FloorUpdate>, now: Time)
    requires FloorRank(l.status).Some? && forall u :: u in us ==> Full(u)
    ensures IsFurthest(StoredRun(l, us, now).status, l.status, us) && FloorRank(StoredRun(l, us, now).status).Some?
  {
    hide Stored, IsFurthest;
    if us == [] {
      assert IsFurthest(l.status, l.status, us) by { NothingIsFurther(l.status); }
    } else {
      var before, u := us[..|us|-1], us[|us|-1];
      assert us == before + [u];
      StoredStatusIsTheFurthest(l, before, now);
      StoredStep(StoredRun(l, before, now), u, now);
      FurthestOneMore(StoredRun(l, before, now).status, l.status, before, u);
      FurthestRanks(StoredRun(l, us, now).status, l.status, us);
    }
  }

  lemma NothingIsFurther(s: Status)
    ensures IsFurthest(s, s, [])
  {
  }

  lemma {:induction false} StoredStaysInStep(l: Life, us: seq<FloorUpdate>, now: Time) returns (from: FloorUpdate)
    requires Untouched(l) && us != [] && forall u :: u in us ==> Full(u)
    ensures InStep(l, StoredRun(l, us, now), us, from)
  {
    hide Stored, Rank;
    var before, u := us[..|us|-1], us[|us|-1];
    assert us == before + [u];
    StoredStatusIsTheFurthest(l, before, now);
    var r := StoredRun(l, before, now);
    StoredStep(r, u, now);
    if before == [] {
      from := u;
    } else {
      from := StoredStaysInStep(l, before, now);
      if r.floorAt.value <= u.at.value && Stored(r, u, now) != r { from := u; }
    }
  }

  /** From here on every report that can still change the fields says what the newest does. */
  ghost predicate Safe(r: Life, all: seq<FloorUpdate>, n: FloorUpdate) {
    && FieldsOf(r) == Sent(n) && r.floorAt.Some?
    && forall b :: b in all && b.at.Some? && b.at.value >= r.floorAt.value ==> Sent(b) == Sent(n)
  }

  lemma SafeOneMore(r: Life, all: seq<FloorUpdate>, n: FloorUpdate, u: FloorUpdate, now: Time)
    requires Safe(r, all, n) && u in all && Full(u) && FloorRank(r.status).Some?
    ensures Safe(Stored(r, u, now), all, n)
  {
    hide Stored, Rank, Full;
    assert u.at.Some? by { FullHasATime(u); }
    StoredStep(r, u, now);
  }

  lemma FullHasATime(u: FloorUpdate)
    requires Full(u)
    ensures u.at.Some?
  {
  }

  lemma NewestIsSafe(l: Life, all: seq<FloorUpdate>, n: FloorUpdate, before: seq<FloorUpdate>, now: Time)
    requires Untouched(l) && Reports(all, n) && !Overtaken(l, all, n) && forall u :: u in before ==> u in all
    ensures Safe(Stored(StoredRun(l, before, now), n, now), all, n)
  {
    hide Stored, Rank;
    StoredStatusIsTheFurthest(l, before, now);
    var r := StoredRun(l, before, now);
    StoredStep(r, n, now);
    if before != [] {
      var from := StoredStaysInStep(l, before, now);
      if Rank(n.status) <= Rank(r.status) && Sent(n) == FieldsOf(r) && from != n {
        assert AlongBy(l, all, n, from.at);
        assert Twin(l, all, n, from);
      }
    }
  }

  lemma {:induction false} SafeFromTheNewestOn(l: Life, all: seq<FloorUpdate>, n: FloorUpdate, us: seq<FloorUpdate>, now: Time)
    requires Untouched(l) && Reports(all, n) && !Overtaken(l, all, n) && Drawn(us, all, n)
    ensures Safe(StoredRun(l, us, now), all, n)
  {
    hide Stored, Rank, Safe, Overtaken;
    var before, u := us[..|us|-1], us[|us|-1];
    assert us == before + [u];
    if u == n {
      NewestIsSafe(l, all, n, before, now);
    } else {
      SafeFromTheNewestOn(l, all, n, before, now);
      StoredStatusIsTheFurthest(l, before, now);
      SafeOneMore(StoredRun(l, before, now), all, n, u, now);
    }
  }

  /** A twin's fields stay, and the newest report is not stored. */
  lemma TwinThenNewest(r: Life, a: FloorUpdate, n: FloorUpdate, now: Time)
    requires FloorRank(r.status).Some? && Full(a) && Full(n) && Sent(a) == Sent(n) && a.at.value < n.at.value
    requires Rank(n.status) <= Rank(r.status)
    requires if r.floorAt.Some? then r.floorAt.value <= a.at.value else r.driver == NO_ID
    ensures var s := Stored(Stored(r, a, now), n, now);
      && FloorRank(s.status).Some? && FieldsOf(s) == Sent(n) && s.floorAt.Some? && s.floorAt.value <= a.at.value
  {
    hide Stored;
    StoredStep(r, a, now);
    StoredStep(Stored(r, a, now), n, now);
  }

  /** A delivery that a twin makes forget the newest report: the twin's time is stored, its fields are. */
  lemma ForgottenDelivery(l: Life, all: seq<FloorUpdate>, n: FloorUpdate, a: FloorUpdate, now: Time) returns (us: seq<FloorUpdate>)
    requires Untouched(l) && Reports(all, n) && Twin(l, all, n, a)
    ensures Drawn(us, all, n)
    ensures var r := StoredRun(l, us, now);
      && FloorRank(r.status).Some? && FieldsOf(r) == Sent(n)
      && r.floorAt.Some? && r.floorAt.value <= a.at.value < n.at.value
  {
    hide Stored, Rank, StoredRun;
    if Rank(n.status) <= Rank(l.status) {
      us := [a, n];
      StoredTwo(l, a, n, now);
      TwinThenNewest(l, a, n, now);
    } else {
      var c :| c in all && c.at.value <= a.at.value && Rank(n.status) <= Rank(c.status);
      us := [c, a, n];
      StoredThree(l, c, a, n, now);
      StoredStep(l, c, now);
      StoredOne(l, c, now);
      StoredStatusIsTheFurthest(l, [c], now);
      TwinThenNewest(Stored(l, c, now), a, n, now);
    }
  }

  lemma StoredOne(l: Life, a: FloorUpdate, now: Time)
    ensures StoredRun(l, [a], now) == Stored(l, a, now)
  {
    hide Stored;
    assert [a][..0] == [];
  }

  lemma StoredTwo(l: Life, a: FloorUpdate, b: FloorUpdate, now: Time)
    ensures StoredRun(l, [a, b], now) == Stored(Stored(l, a, now), b, now)
  {
    hide Stored;
    StoredOne(l, a, now);
    assert [a, b][..1] == [a];
  }

  /**
   * From when the newest report has come, the stored fields are its own, in every delivery and at every moment of it,
   * exactly when no report that makes the newest one say nothing new is followed by one that says something else.
   */
  lemma StoredFieldsConverge(l: Life, all: seq<FloorUpdate>, n: FloorUpdate, now: Time)
    requires Untouched(l) && Reports(all, n)
    ensures (forall us :: Drawn(us, all, n) ==> FieldsOf(StoredRun(l, us, now)) == Sent(n)) <==> !Overtaken(l, all, n)
  {
    hide Stored, Rank, StoredRun;
    if Overtaken(l, all, n) {
      var a, b :| Twin(l, all, n, a) && b in all && a.at.value < b.at.value && Sent(b) != Sent(n);
      var us := ForgottenDelivery(l, all, n, a, now);
      StoredStep(StoredRun(l, us, now), b, now);
      StoredOneMore(l, us, b, now);
      assert Drawn(us + [b], all, n);
    } else {
      forall us | Drawn(us, all, n) ensures FieldsOf(StoredRun(l, us, now)) == Sent(n) {
        SafeFromTheNewestOn(l, all, n, us, now);
      }
    }
  }

  lemma StoredOneMore(l: Life, us: seq<FloorUpdate>, u: FloorUpdate, now: Time)
    ensures StoredRun(l, us + [u], now) == Stored(StoredRun(l, us, now), u, now)
  {
    hide Stored;
    assert (us + [u])[..|us|] == us;
  }

  /** The stored time is the newest report's too exactly when no report leaves the newest one nothing new to say. */
  lemma StoredTimeConverges(l: Life, all: seq<FloorUpdate>, n: FloorUpdate, now: Time)
    requires Untouched(l) && Reports(all, n)
    ensures (forall us :: Drawn(us, all, n) ==> StoredRun(l, us, now).floorAt == n.at) <==> forall a :: !Twin(l, all, n, a)
  {
    hide Stored, Rank, StoredRun, Twin;
    if a :| Twin(l, all, n, a) {
      var us := ForgottenDelivery(l, all, n, a, now);
      assert StoredRun(l, us, now).floorAt != n.at;
    } else {
      forall us | Drawn(us, all, n) ensures StoredRun(l, us, now).floorAt == n.at {
        NewestTimeIsStored(l, all, n, us, now);
      }
    }
  }

  lemma {:induction false} NewestTimeIsStored(l: Life, all: seq<FloorUpdate>, n: FloorUpdate, us: seq<FloorUpdate>, now: Time)
    requires Untouched(l) && Reports(all, n) && Drawn(us, all, n) && forall a :: !Twin(l, all, n, a)
    ensures StoredRun(l, us, now).floorAt == n.at && FieldsOf(StoredRun(l, us, now)) == Sent(n)
  {
    hide Stored, Rank;
    var before, u := us[..|us|-1], us[|us|-1];
    assert us == before + [u];
    StoredStatusIsTheFurthest(l, before, now);
    var r := StoredRun(l, before, now);
    StoredStep(r, u, now);
    if n in before {
      NewestTimeIsStored(l, all, n, before, now);
    } else if before != [] {
      var from := StoredStaysInStep(l, before, now);
      assert !Twin(l, all, n, from);
      assert Rank(n.status) <= Rank(r.status) ==> AlongBy(l, all, n, from.at);
    }
  }
}
