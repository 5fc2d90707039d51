/** A sliding-window counter by key: what it keeps, what it answers, and that its housekeeping never shows. */
module RateLimit {
  import opened Options
  import opened Sequences

  type Time = int

  /** The number of keys above which adding sweeps them. */
  const MAX_KEYS := 10_000

  type Hits<K> = map<K, seq<Time>>

  function HitsAt<K(==)>(hits: Hits<K>, key: K): seq<Time> {
    if key in hits then hits[key] else []
  }

  predicate Fresh(t: Time, now: Time, span: int) {
    now - t < span
  }

  /** The hits still inside the window. */
  function Live(ts: seq<Time>, now: Time, span: int): seq<Time> {
    if ts == [] then []
    else
      Live(ts[..|ts|-1], now, span) + if Fresh(ts[|ts|-1], now, span) then [ts[|ts|-1]] else []
  }

  function Pruned<K(==)>(hits: Hits<K>, key: K, now: Time, span: int): Hits<K> {
    var live := Live(HitsAt(hits, key), now, span);
    if live == [] then hits - {key} else hits[key := live]
  }

  function Swept<K(==)>(hits: Hits<K>, now: Time, span: int): Hits<K> {
    map k | k in hits && Live(hits[k], now, span) != [] :: Live(hits[k], now, span)
  }

  function Added<K(==)>(hits: Hits<K>, key: K, now: Time, span: int): Hits<K> {
    var kept := if |hits| > MAX_KEYS then Swept(hits, now, span) else hits;
    kept[key := Live(HitsAt(kept, key), now, span) + [now]]
  }

  /** How long until there is room for one more, given the live hits. */
  function WaitFor(live: seq<Time>, now: Time, span: int, max: int): int
    requires max >= 1
  {
    if |live| < max then 0 else live[|live| - max] + span - now
  }

  class Window<K(==)> {
    const max: int
    const span: int
    var hits: Hits<K>

    constructor (max: int, span: int)
      ensures hits == map[] && this.max == max && this.span == span
    {
      this.max, this.span, hits := max, span, map[];
    }

    method Prune(key: K, now: Time) returns (keep: seq<Time>)
      modifies this
      ensures hits == Pruned(old(hits), key, now, span)
      ensures keep == Live(HitsAt(old(hits), key), now, span)
    {
      keep := [];
      var ts := HitsAt(hits, key);
      for i := 0 to |ts|
        invariant keep == Live(ts[..i], now, span) && hits == old(hits)
      {
        PrefixOfPrefix(ts, i);
        if now - ts[i] < span { keep := keep + [ts[i]]; }
      }
      assert ts[..|ts|] == ts;
      if |keep| == 0 { hits := hits - {key}; } else { hits := hits[key := keep]; }
    }

    method AllowN(key: K, ceiling: int, now: Time) returns (ok: bool)
      modifies this
      ensures hits == Pruned(old(hits), key, now, span)
      ensures ok <==> |Live(HitsAt(old(hits), key), now, span)| < ceiling
    {
      var live := Prune(key, now);
      return |live| < ceiling;
    }

    method RetryAfterN(key: K, ceiling: int, now: Time) returns (wait: int)
      requires ceiling >= 1
      modifies this
      ensures hits == Pruned(old(hits), key, now, span)
      ensures wait == WaitFor(Live(HitsAt(old(hits), key), now, span), now, span, ceiling)
    {
      var live := Prune(key, now);
      if |live| < ceiling { return 0; }
      // Room comes when this hit leaves the window.
      return live[|live| - ceiling] + span - now;
    }

    method Add(key: K, now: Time)
      modifies this
      ensures hits == Added(old(hits), key, now, span)
    {
      if |hits| > MAX_KEYS { Sweep(now); }
      ghost var kept := hits;
      var live := Prune(key, now);
      hits := hits[key := live + [now]];
      assert hits == kept[key := live + [now]];
    }

    method Sweep(now: Time)
      modifies this
      ensures hits == Swept(old(hits), now, span)
    {
      var keys := hits.Keys;
      while keys != {}
        invariant keys <= hits.Keys
        invariant forall k :: k in keys ==> k in old(hits) && hits[k] == old(hits)[k]
        invariant forall k :: k in hits && k !in keys ==>
          k in old(hits) && hits[k] == Live(old(hits)[k], now, span) && hits[k] != []
        invariant forall k :: k in old(hits) && k !in hits ==> Live(old(hits)[k], now, span) == []
        decreases keys
      {
        var k :| k in keys;
        var live := Prune(k, now);
        keys := keys - {k};
      }
    }

    method Reset(key: K)
      modifies this
      ensures hits == old(hits) - {key}
    {
      hits := hits - {key};
    }
  }

  // --- housekeeping never shows -------------------------------------------------------------

  lemma {:induction false} LiveOfLive(ts: seq<Time>, now: Time, later: Time, span: int)
    requires now <= later
    ensures Live(Live(ts, now, span), later, span) == Live(ts, later, span)
  {
    if ts != [] {
      var init, last := ts[..|ts|-1], ts[|ts|-1];
      LiveOfLive(init, now, later, span);
      if Fresh(last, now, span) {
        LiveAppend(Live(init, now, span), [last], later, span);
        LiveOne(last, later, span);
      } else {
        assert Live(ts, now, span) == Live(init, now, span);
        assert Live(ts, later, span) == Live(init, later, span);
      }
    }
  }

  lemma LiveOne(t: Time, now: Time, span: int)
    ensures Live([t], now, span) == if Fresh(t, now, span) then [t] else []
  {
    assert [t][..0] == [];
  }

  lemma {:induction false} LiveAppend(a: seq<Time>, b: seq<Time>, now: Time, span: int)
    ensures Live(a + b, now, span) == Live(a, now, span) + Live(b, now, span)
  {
    if b == [] {
      assert a + b == a;
    } else {
      assert (a + b)[..|a + b|-1] == a + b[..|b|-1];
      LiveAppend(a, b[..|b|-1], now, span);
    }
  }

  /** Two counters no later question can tell apart. */
  ghost predicate LookAlike<K(!new)>(a: Hits<K>, b: Hits<K>, now: Time, span: int) {
    forall k, later :: now <= later ==> Live(HitsAt(a, k), later, span) == Live(HitsAt(b, k), later, span)
  }

  /** Pruning a key, and sweeping them all, changes no answer now or later. */
  lemma HousekeepingDoesNotShow<K(!new)>(hits: Hits<K>, key: K, now: Time, span: int)
    ensures LookAlike(Pruned(hits, key, now, span), hits, now, span)
    ensures LookAlike(Swept(hits, now, span), hits, now, span)
  {
    forall k, later | now <= later
      ensures Live(HitsAt(Pruned(hits, key, now, span), k), later, span) == Live(HitsAt(hits, k), later, span)
      ensures Live(HitsAt(Swept(hits, now, span), k), later, span) == Live(HitsAt(hits, k), later, span)
    {
      LiveOfLive(HitsAt(hits, k), now, later, span);
    }
  }

  /** Adding a hit shows as that hit and nothing else, whether or not the counter was swept on the way. */
  lemma AddingShowsOneHit<K(!new)>(hits: Hits<K>, key: K, now: Time, span: int, k: K, later: Time)
    requires now <= later
    ensures Live(HitsAt(Added(hits, key, now, span), k), later, span)
         == Live(HitsAt(hits, k), later, span) + if k == key then Live([now], later, span) else []
  {
    hide Live;
    var kept := if |hits| > MAX_KEYS then Swept(hits, now, span) else hits;
    HousekeepingDoesNotShow(hits, key, now, span);
    assert Live(HitsAt(kept, k), later, span) == Live(HitsAt(hits, k), later, span);
    if k == key {
      LiveAppend(Live(HitsAt(kept, key), now, span), [now], later, span);
      LiveOfLive(HitsAt(kept, key), now, later, span);
    }
  }

  // --- room ---------------------------------------------------------------------------------

  ghost predicate Ordered(ts: seq<Time>) {
    forall i, j :: 0 <= i <= j < |ts| ==> ts[i] <= ts[j]
  }

  lemma LaterKeepsOrder(ts: seq<Time>, t: Time)
    requires Ordered(ts) && forall u :: u in ts ==> u <= t
    ensures Ordered(ts + [t])
    ensures forall u :: u in ts + [t] ==> u <= t
  {
    assert forall i :: 0 <= i < |ts| ==> ts[i] in ts;
  }

  lemma {:induction false} NoneLive(ts: seq<Time>, now: Time, span: int)
    requires forall t :: t in ts ==> !Fresh(t, now, span)
    ensures Live(ts, now, span) == []
  {
    if ts != [] {
      NoneLive(ts[..|ts|-1], now, span);
      assert ts[|ts|-1] in ts;
    }
  }

  /** There is room exactly when the max-th hit from the end has aged out. */
  lemma {:induction false} RoomWhenTheOldestAgesOut(ts: seq<Time>, now: Time, span: int, max: int)
    requires Ordered(ts) && max >= 1
    ensures |Live(ts, now, span)| < max <==> |ts| < max || !Fresh(ts[|ts|-max], now, span)
    decreases |ts|
  {
    if ts != [] {
      var init, last := ts[..|ts|-1], ts[|ts|-1];
      if !Fresh(last, now, span) {
        NoneLive(ts, now, span);
      } else if max > 1 {
        RoomWhenTheOldestAgesOut(init, now, span, max - 1);
      }
    }
  }

  lemma {:induction false} LiveIsOrdered(ts: seq<Time>, now: Time, span: int)
    requires Ordered(ts)
    ensures Ordered(Live(ts, now, span))
    ensures forall t :: t in Live(ts, now, span) ==> t in ts && Fresh(t, now, span)
  {
    if ts != [] {
      var init, last := ts[..|ts|-1], ts[|ts|-1];
      LiveIsOrdered(init, now, span);
      var live := Live(init, now, span);
      forall i | 0 <= i < |live| ensures live[i] <= last { assert live[i] in live; }
      assert last in ts;
    }
  }

  /** The wait is the least: asked again d later, with nothing booked in between, there is room exactly when d reaches it. */
  lemma WaitIsTheLeast(ts: seq<Time>, now: Time, span: int, max: int, d: int)
    requires Ordered(ts) && max >= 1 && d >= 0
    ensures WaitFor(Live(ts, now, span), now, span, max) >= 0
    ensures WaitFor(Live(ts, now + d, span), now + d, span, max) == 0 <==> d >= WaitFor(Live(ts, now, span), now, span, max)
    ensures |Live(ts, now, span)| >= max ==> WaitFor(Live(ts, now, span), now, span, max) > 0
  {
    hide Live;
    var live := Live(ts, now, span);
    LiveIsOrdered(ts, now, span);
    LiveOfLive(ts, now, now + d, span);
    LiveIsOrdered(ts, now + d, span);
    RoomWhenTheOldestAgesOut(live, now + d, span, max);
    var rest := Live(ts, now + d, span);
    if |live| >= max {
      assert live[|live|-max] in live;
    }
    if |rest| >= max {
      assert rest[|rest|-max] in rest;
    }
  }

  // --- never more than max in any window ------------------------------------------------------

  /** How many of ts fall in [from, to). */
  function CountIn(ts: seq<Time>, from: Time, to: Time): nat {
    if ts == [] then 0
    else CountIn(ts[..|ts|-1], from, to) + if from <= ts[|ts|-1] < to then 1 else 0
  }

  function CountFrom(ts: seq<Time>, from: Time, span: int): nat {
    CountIn(ts, from, from + span)
  }

  /** No half-open interval of the span's length, wherever it starts, holds more than max. */
  ghost predicate Limited(ts: seq<Time>, max: int, span: int) {
    forall from :: CountFrom(ts, from, span) <= max
  }

  lemma {:induction false} CountIsLive(ts: seq<Time>, from: Time, now: Time, span: int)
    requires from <= now < from + span
    ensures CountIn(ts, from, from + span) <= |Live(ts, now, span)|
  {
    if ts != [] {
      CountIsLive(ts[..|ts|-1], from, now, span);
    }
  }

  lemma CountWithLast(ts: seq<Time>, t: Time, from: Time, to: Time)
    ensures CountIn(ts + [t], from, to) == CountIn(ts, from, to) + if from <= t < to then 1 else 0
  {
    assert (ts + [t])[..|ts|] == ts;
  }

  /** A hit booked while there was room leaves every window of the span within the limit. */
  lemma BookingKeepsTheLimit(ts: seq<Time>, now: Time, span: int, max: int)
    requires Limited(ts, max, span) && |Live(ts, now, span)| < max
    ensures Limited(ts + [now], max, span)
  {
    forall from ensures CountFrom(ts + [now], from, span) <= max {
      CountWithLast(ts, now, from, from + span);
      if from <= now < from + span {
        CountIsLive(ts, from, now, span);
      }
      assert CountFrom(ts, from, span) <= max;
    }
  }

  /** Keys are only dropped above the bound: then each key but the one added still has a live hit. */
  lemma WhenKeysAreDropped<K(!new)>(hits: Hits<K>, key: K, now: Time, span: int)
    ensures |hits| <= 10_000 ==> hits.Keys <= Added(hits, key, now, span).Keys
    ensures |hits| > 10_000 ==>
      forall k <- Added(hits, key, now, span) :: k != key ==> k in hits && Live(hits[k], now, span) != []
  {
  }

  /** Pruning a key leaves its live hits, forgets it when there are none, and touches no other key. */
  lemma WhatPruningLeaves<K(!new)>(hits: Hits<K>, key: K, now: Time, span: int)
    ensures var next, live := Pruned(hits, key, now, span), Live(HitsAt(hits, key), now, span);
      && (key in next <==> live != []) && (key in next ==> next[key] == live)
      && forall k :: k != key ==> (k in next <==> k in hits) && (k in next ==> next[k] == hits[k])
  {
    hide Live;
  }
}
