/** What holds over every run of an order: its history, its terminal statuses, and what the floor can and cannot move. */
module OrderLife {
  import opened Options
  import opened Sequences
  import opened Orders

  datatype Step =
    | Transit(to: Status, actor: Actor, reason: Reason, now: Time)
    | Reported(update: FloorUpdate, now: Time)
    | Undelivered(event: NotDelivered, now: Time)

  function StepResult(l: Life, s: Step): (Life, FloorResult) {
    match s
    case Transit(to, actor, reason, now) =>
      var (next, error) := Transitioned(l, to, actor, reason, now);
      (next, if error == None then Applied else Invalid)
    case Reported(u, now) => FloorUpdated(l, u, now)
    case Undelivered(u, now) => NotDeliveredApplied(l, u, now)
  }

  function Run(l: Life, steps: seq<Step>): Life {
    if steps == [] then l else StepResult(Run(l, steps[..|steps|-1]), steps[|steps|-1]).0
  }

  // --- the history is a chain ------------------------------------------------------------

  /** From received to the current status, each step starting where the last one ended and going somewhere else. */
  ghost predicate Chained(l: Life) {
    && l.history != []
    && l.history[0].from == None && l.history[0].to == Received
    && (forall i :: 0 < i < |l.history| ==>
          l.history[i].from == Some(l.history[i-1].to) && l.history[i].to != l.history[i-1].to)
    && l.history[|l.history|-1].to == l.status
  }

  /** Nothing leaves these; the floor cannot revive them. */
  predicate Dead(s: Status) {
    s == Rejected || s == Cancelled
  }

  /** The history gains at most the step to the current status. */
  ghost predicate HistoryGrows(l: Life, next: Life) {
    || (next.history == l.history && next.status == l.status)
    || (exists e: StatusEvent :: next.history == l.history + [e] && e.from == Some(l.status) && e.to == next.status
                                 && e.to != l.status)
  }

  ghost predicate TimeGrows(l: Life, next: Life) {
    l.floorAt.Some? ==> next.floorAt.Some? && l.floorAt.value <= next.floorAt.value
  }

  /** An applied change is announced once, with the order as it then is. */
  ghost predicate Announced(l: Life, next: Life) {
    exists actor: Actor, reason: Reason ::
      next.events == l.events + [StatusChanged(l.status, next.status, actor, reason, SnapshotOf(next))]
  }

  /** How one step may change an order. */
  ghost predicate Lawful(l: Life, s: Step) {
    var (next, result) := StepResult(l, s);
    && HistoryGrows(l, next)
    && (Dead(l.status) ==> result != Applied)
    && (Rank(next.status) < Rank(l.status) ==>
          match s
          case Transit(to, _, _, _) => Dead(to) && next.status == to
          case Reported(u, _) => u.status == Cancelled && next.status == Cancelled
          case Undelivered(u, _) =>
            (u.action == Retry && next.status == Ready) || (u.action == Cancel && next.status == Cancelled))
    && TimeGrows(l, next)
    && (if result == Applied then Announced(l, next) else next == l.(floorAt := next.floorAt))
  }

  lemma Moves(l: Life, next: Life, at: Time, actor: Actor, reason: Reason)
    requires next.history == l.history + [StatusEvent(Some(l.status), next.status, at, actor, reason)]
    requires next.status != l.status
    ensures HistoryGrows(l, next)
  {
  }

  lemma Announces(l: Life, next: Life, actor: Actor, reason: Reason)
    requires next.events == l.events + [StatusChanged(l.status, next.status, actor, reason, SnapshotOf(next))]
    ensures Announced(l, next)
  {
  }

  lemma TransitIsLawful(l: Life, to: Status, actor: Actor, reason: Reason, now: Time)
    ensures Lawful(l, Transit(to, actor, reason, now))
  {
    hide HistoryGrows, Announced;
    var (next, error) := Transitioned(l, to, actor, reason, now);
    if error == None {
      Moves(l, next, now, actor, reason);
      Announces(l, next, actor, reason);
    } else {
      Unmoved(l, next);
    }
  }

  lemma Unmoved(l: Life, next: Life)
    requires next.history == l.history && next.status == l.status
    ensures HistoryGrows(l, next)
  {
  }

  lemma FloorIsLawful(l: Life, u: FloorUpdate, now: Time)
    ensures Lawful(l, Reported(u, now))
  {
    hide HistoryGrows, Announced;
    var at := At(u.at, now);
    var (next, result) := FloorUpdated(l, u, now);
    if u.status == Cancelled {
      if result == Applied {
        Moves(l, next, at, Agent, NotAccepted);
        Announces(l, next, Agent, NotAccepted);
      } else {
        Unmoved(l, next);
      }
    } else if FloorRank(l.status) == None {
      Unmoved(l, next);
    } else {
      if Rank(u.status) > Rank(l.status) {
        Moves(l, next, at, Agent, if u.auto then AutoFinished else Floor);
      } else {
        Unmoved(l, next);
      }
      if result == Applied { Announces(l, next, Agent, NoReason); }
    }
  }

  lemma UndeliveredIsLawful(l: Life, u: NotDelivered, now: Time)
    ensures Lawful(l, Undelivered(u, now))
  {
    hide HistoryGrows, Announced;
    var at := At(u.at, now);
    var (next, result) := NotDeliveredApplied(l, u, now);
    if result == Applied {
      var (to, reason) := ReturnTo(l, u).value;
      if to != l.status { Moves(l, next, at, Agent, reason); } else { Unmoved(l, next); }
      Announces(l, next, Agent, reason);
    } else {
      Unmoved(l, next);
    }
  }

  /** Every step of every method is lawful. */
  lemma EveryStepIsLawful(l: Life, s: Step)
    ensures Lawful(l, s)
  {
    match s
    case Transit(to, actor, reason, now) => TransitIsLawful(l, to, actor, reason, now);
    case Reported(u, now) => FloorIsLawful(l, u, now);
    case Undelivered(u, now) => UndeliveredIsLawful(l, u, now);
  }

  /** Over every run from a new order, the history is a chain from received to the current status. */
  lemma {:induction false} EveryRunIsChained(now: Time, steps: seq<Step>)
    ensures Chained(Run(NewLife(now), steps))
  {
    if steps != [] {
      var l := Run(NewLife(now), steps[..|steps|-1]);
      EveryRunIsChained(now, steps[..|steps|-1]);
      EveryStepIsLawful(l, steps[|steps|-1]);
      GrowingKeepsTheChain(l, StepResult(l, steps[|steps|-1]).0);
    }
  }

  lemma GrowingKeepsTheChain(l: Life, next: Life)
    requires Chained(l) && HistoryGrows(l, next)
    ensures Chained(next)
  {
  }

  /** The events tell the order: first as it came in, then each change from where the last left it, up to the order as it is. */
  ghost predicate Told(l: Life) {
    && l.events != [] && l.events[0] == ReceivedEvent(Snapshot(Received, None, None, NO_ID))
    && (forall i :: 0 < i < |l.events| ==>
          && l.events[i].StatusChanged? && l.events[i].from == l.events[i-1].snapshot.status
          && l.events[i].to == l.events[i].snapshot.status)
    && l.events[|l.events|-1].snapshot == SnapshotOf(l)
  }

  /** Over every run from a new order, whoever follows its events knows the order as it is. */
  lemma {:induction false} TheEventsTellTheOrder(now: Time, steps: seq<Step>)
    ensures Told(Run(NewLife(now), steps))
  {
    hide StepResult;
    if steps != [] {
      var l := Run(NewLife(now), steps[..|steps|-1]);
      TheEventsTellTheOrder(now, steps[..|steps|-1]);
      AStepIsTold(l, steps[|steps|-1]);
    }
  }

  lemma AStepIsTold(l: Life, s: Step)
    requires Told(l)
    ensures Told(StepResult(l, s).0)
  {
    hide StepResult;
    EveryStepIsLawful(l, s);
  }

  /** Once rejected or cancelled, an order stays as it is for good: no status, field, time, history entry or event changes. */
  lemma {:induction false} DeadStaysDead(l: Life, steps: seq<Step>)
    requires Dead(l.status)
    ensures Run(l, steps) == l
  {
    hide StepResult;
    if steps != [] {
      DeadStaysDead(l, steps[..|steps|-1]);
      DeadTakesNoStep(l, steps[|steps|-1]);
    }
  }

  lemma DeadTakesNoStep(l: Life, s: Step)
    requires Dead(l.status)
    ensures StepResult(l, s).0 == l
  {
    hide Record, MoveTo, Mirrored;
  }

  /** The floor time never goes back over a run, and the history and events only grow. */
  lemma {:induction false} RunsOnlyGrow(l: Life, steps: seq<Step>)
    ensures var r := Run(l, steps); TimeGrows(l, r) && l.history <= r.history && l.events <= r.events
  {
    hide StepResult;
    if steps != [] {
      RunsOnlyGrow(l, steps[..|steps|-1]);
      EveryStepIsLawful(Run(l, steps[..|steps|-1]), steps[|steps|-1]);
    }
  }

  // --- the mirror converges ----------------------------------------------------------------

  /** A floor report with everything on it. */
  predicate Full(u: FloorUpdate) {
    u.status != Cancelled && u.kitchen.Some? && u.readyAt.Some? && u.driver != NO_ID && u.at.Some?
  }

  function Mirror(l: Life, us: seq<FloorUpdate>, now: Time): Life {
    if us == [] then l else FloorUpdated(Mirror(l, us[..|us|-1], now), us[|us|-1], now).0
  }

  /** Updates sent at one time are one update. */
  ghost predicate OneAtATime(us: seq<FloorUpdate>) {
    forall u, v :: u in us && v in us && u.at == v.at ==> u == v
  }

  /** u is the newest of us. */
  ghost predicate IsNewest(u: FloorUpdate, us: seq<FloorUpdate>) {
    u in us && forall v :: v in us ==> v.at.Some? && u.at.Some? && v.at.value <= u.at.value
  }

  /** s is the furthest along of a status and some reports. */
  ghost predicate IsFurthest(s: Status, start: Status, us: seq<FloorUpdate>) {
    && (s == start || exists u :: u in us && u.status == s)
    && Rank(start) <= Rank(s)
    && forall u :: u in us ==> Rank(u.status) <= Rank(s)
  }

  /** What a fresh live order looks like after reports us, whatever their order. */
  ghost predicate Settled(l: Life, start: Status, us: seq<FloorUpdate>) {
    && IsFurthest(l.status, start, us)
    && (us == [] <==> l.floorAt == None)
    && forall u :: IsNewest(u, us) ==>
         l.floorAt == u.at && l.kitchen == u.kitchen && l.readyAt == u.readyAt && l.driver == u.driver
  }

  lemma NewestExists(us: seq<FloorUpdate>) returns (u: FloorUpdate)
    requires us != [] && forall v :: v in us ==> v.at.Some?
    ensures IsNewest(u, us)
  {
    var n := |us| - 1;
    u := us[n];
    if n > 0 {
      var before := NewestExists(us[..n]);
      assert us == us[..n] + [us[n]];
      if before.at.value > u.at.value { u := before; }
    }
  }

  /** One more report settles an order that reports have settled. */
  lemma SettleOneMore(l: Life, start: Status, us: seq<FloorUpdate>, u: FloorUpdate, now: Time)
    requires Settled(l, start, us) && FloorRank(start).Some?
    requires (forall v :: v in us ==> Full(v)) && Full(u) && OneAtATime(us + [u])
    ensures Settled(FloorUpdated(l, u, now).0, start, us + [u])
  {
    hide Record, IsFurthest, OneAtATime;
    var next := FloorUpdated(l, u, now).0;
    assert FloorRank(l.status).Some? by { FurthestRanks(l.status, start, us); }
    FurthestOneMore(l.status, start, us, u);
    Recording(l, u, now);
    if us == [] {
      assert forall v :: v in us + [u] ==> v == u;
    } else {
      var n := NewestExists(us);
      forall v | IsNewest(v, us + [u]) ensures v == if u.at.value < n.at.value then n else u {
        OnlyNewest(us, u, n, v);
      }
    }
  }

  lemma FurthestRanks(s: Status, start: Status, us: seq<FloorUpdate>)
    requires IsFurthest(s, start, us) && FloorRank(start).Some?
    ensures FloorRank(s).Some?
  {
  }

  lemma Recording(l: Life, u: FloorUpdate, now: Time)
    requires Full(u) && FloorRank(l.status).Some?
    ensures var at := u.at.value; var next := FloorUpdated(l, u, now).0;
      var plain := if OlderThan(at, l.floorAt) then Advanced(l, u, at) else Mirrored(Advanced(l, u, at), u, at);
      SnapshotOf(next) == SnapshotOf(plain) && next.floorAt == plain.floorAt
  {
  }

  lemma OnlyNewest(us: seq<FloorUpdate>, u: FloorUpdate, n: FloorUpdate, v: FloorUpdate)
    requires IsNewest(n, us) && IsNewest(v, us + [u]) && OneAtATime(us + [u]) && u.at.Some?
    ensures v == if u.at.value < n.at.value then n else u
  {
    assert n in us + [u] && u in us + [u];
    assert v in us || v == u;
  }

  lemma FurthestOneMore(s: Status, start: Status, us: seq<FloorUpdate>, u: FloorUpdate)
    requires IsFurthest(s, start, us)
    ensures IsFurthest(if Rank(u.status) > Rank(s) then u.status else s, start, us + [u])
  {
    var all := us + [u];
    assert forall v :: v in all <==> v in us || v == u;
    assert u in all;
    if s != start {
      var v :| v in us && v.status == s;
      assert v in all;
    }
  }

  /**
   * The floor mirror converges: reports with distinct times and every field on them, applied to a fresh live order in any
   * order and with any repeats, leave it at the furthest status with the newest report's fields and time.
   */
  lemma {:induction false} MirrorConverges(l: Life, us: seq<FloorUpdate>, now: Time)
    requires l.floorAt == None && FloorRank(l.status).Some?
    requires (forall u :: u in us ==> Full(u)) && OneAtATime(us)
    ensures Settled(Mirror(l, us, now), l.status, us)
  {
    if us == [] {
    } else {
      var before, u := us[..|us|-1], us[|us|-1];
      assert us == before + [u];
      MirrorConverges(l, before, now);
      SettleOneMore(Mirror(l, before, now), l.status, before, u, now);
    }
  }

  lemma RankIsInjective(a: Status, b: Status)
    requires Rank(a) == Rank(b) && Rank(a) >= 0
    ensures a == b
  {
  }

  /** So two deliveries of the same reports, in whatever order and however often repeated, end in the same picture. */
  lemma DeliveryOrderDoesNotMatter(l: Life, us: seq<FloorUpdate>, vs: seq<FloorUpdate>, now: Time)
    requires l.floorAt == None && FloorRank(l.status).Some?
    requires (forall u :: u in us ==> Full(u)) && OneAtATime(us) && us != []
    requires forall u :: u in us <==> u in vs
    ensures SnapshotOf(Mirror(l, us, now)) == SnapshotOf(Mirror(l, vs, now))
    ensures Mirror(l, us, now).floorAt == Mirror(l, vs, now).floorAt
  {
    MirrorConverges(l, us, now);
    MirrorConverges(l, vs, now);
    var u := NewestExists(us);
    assert IsNewest(u, vs);
    var a, b := Mirror(l, us, now).status, Mirror(l, vs, now).status;
    SameFurthest(a, b, l.status, us, vs);
    RankIsInjective(a, b);
  }

  lemma SameFurthest(a: Status, b: Status, start: Status, us: seq<FloorUpdate>, vs: seq<FloorUpdate>)
    requires IsFurthest(a, start, us) && IsFurthest(b, start, vs) && forall u :: u in us <==> u in vs
    ensures Rank(a) == Rank(b)
  {
    if a != start { var u :| u in us && u.status == a; assert u in vs; }
    if b != start { var v :| v in vs && v.status == b; assert v in us; }
  }
}
