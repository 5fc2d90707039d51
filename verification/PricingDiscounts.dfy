/** Which discounts a cart gets and how much each takes, said of the quote's own discounts. */
module PricingDiscounts {
  import opened Options
  import opened Sequences
  import opened PricingTypes
  import opened PricingItem
  import opened PricingCart
  import opened PricingMoney

  // --- the one discount that counts ------------------------------------------------------------

  /** Place i has the largest of the amounts, and no earlier one is as large. */
  ghost predicate FirstLargest(autos: seq<Discount>, i: int) {
    && 0 <= i < |autos|
    && (forall j :: 0 <= j < |autos| ==> autos[j].amountCents <= autos[i].amountCents)
    && forall j :: 0 <= j < i ==> autos[j].amountCents < autos[i].amountCents
  }

  lemma {:induction false} BestIsTheFirstLargest(autos: seq<Discount>) returns (i: int)
    requires autos != []
    ensures FirstLargest(autos, i) && BestOf(autos) == Some(autos[i])
  {
    var n := |autos| - 1;
    if n == 0 {
      i := 0;
    } else {
      i := BestIsTheFirstLargest(autos[..n]);
      if autos[n].amountCents > autos[i].amountCents { i := n; }
    }
  }

  lemma ClampOfOne(d: Discount, food: int)
    ensures Clamp([d], food) == [d.(amountCents := Min(d.amountCents, food))]
    ensures Sum(Amounts(Clamp([d], food))) == Min(d.amountCents, food)
  {
    assert [d][..0] == [];
    var r := d.(amountCents := Min(d.amountCents, food));
    assert Amounts([r]) == [r.amountCents];
    SingleSum(r.amountCents);
  }

  /** A discount cut down to what the food comes to. */
  function CutTo(d: Discount, food: int): Discount {
    if d.amountCents > food then d.(amountCents := food) else d
  }

  /** What the one discount is: the code when it takes as much as any deal, or else the first deal that takes most. */
  ghost predicate TheBest(ds: seq<Discount>, autos: seq<Discount>, code: CodeOutcome, food: int) {
    if code.Granted? && forall a <- autos :: a.amountCents <= code.discount.amountCents then
      ds == [CutTo(code.discount, food)]
    else if autos != [] then exists i :: FirstLargest(autos, i) && ds == [CutTo(autos[i], food)]
    else ds == []
  }

  lemma ThePickIsTheBest(autos: seq<Discount>, code: CodeOutcome, food: int)
    ensures TheBest(Clamp(PickOne(autos, code), food), autos, code, food)
  {
    hide BestOf, Clamp;
    NothingToClamp(food);
    if code.Granted? { ClampOfOne(code.discount, food); }
    if autos != [] {
      var i := BestIsTheFirstLargest(autos);
      ClampOfOne(autos[i], food);
      assert autos[i] in autos;
      assert FirstLargest(autos, i);
    }
  }

  /** Unless every discount is stacked, one at most counts: the best on offer. */
  lemma TheBestOneCounts(ctx: Context, clock: Clock, terms: Terms, sub: int, units: seq<Unit>, hasBundle: bool)
    requires ctx.settings.stacking == Best || (ctx.settings.stacking == Single && !hasBundle)
    ensures TheBest(FoodDiscounts(ctx, clock, terms, sub, units, hasBundle),
                    Autos(ctx.deals, clock, terms.orderType, units, sub), CodeOf(ctx, clock, terms, sub), sub)
  {
    hide Autos, CodeOf, Clamp, TheBest, PickOne;
    ThePickIsTheBest(Autos(ctx.deals, clock, terms.orderType, units, sub), CodeOf(ctx, clock, terms, sub), sub);
  }

  lemma NothingToClamp(food: int)
    ensures Clamp([], food) == []
  {
  }

  /** So no discount on offer, a deal or the code, would have taken more off the food. */
  lemma NothingOnOfferTakesMore(ctx: Context, clock: Clock, terms: Terms, t: Tally)
    requires ctx.settings.stacking == Best || (ctx.settings.stacking == Single && !t.hasBundle)
    ensures var sub := Sum(Totals(t.lines));
      var food := FoodToPay(ctx, clock, terms, t);
      && (forall a <- Autos(ctx.deals, clock, terms.orderType, t.units, sub) :: food <= sub - Min(a.amountCents, sub))
      && var code := CodeOf(ctx, clock, terms, sub);
         code.Granted? ==> food <= sub - Min(code.discount.amountCents, sub)
  {
    hide Autos, CodeOf, FoodDiscounts, Sum;
    var sub := Sum(Totals(t.lines));
    TheBestOneCounts(ctx, clock, terms, sub, t.units, t.hasBundle);
    var ds := FoodDiscounts(ctx, clock, terms, sub, t.units, t.hasBundle);
    if ds != [] {
      assert Amounts(ds) == [ds[0].amountCents];
      SingleSum(ds[0].amountCents);
    }
  }

  /** Stacked, every deal and then the code is taken; a bundle under "single" leaves no other discount. */
  lemma WhatElseCounts(ctx: Context, clock: Clock, terms: Terms, sub: int, units: seq<Unit>, hasBundle: bool)
    requires sub >= 0 && forall d :: d in ctx.deals ==> ValidDeal(d)
    ensures var ds := FoodDiscounts(ctx, clock, terms, sub, units, hasBundle);
      var autos, code := Autos(ctx.deals, clock, terms.orderType, units, sub), CodeOf(ctx, clock, terms, sub);
      && (ctx.settings.stacking == Single && hasBundle ==> ds == [])
      && (ctx.settings.stacking == Stack ==>
            && |ds| == |autos| + (if code.Granted? then 1 else 0)
            && Sum(Amounts(ds)) == Min(sub, Sum(Amounts(autos)) + if code.Granted? then code.discount.amountCents else 0)
            && forall i :: 0 <= i < |ds| ==>
                 ds[i].dealId == (if i < |autos| then autos[i] else code.discount).dealId)
  {
    hide Autos, CodeOf, Sum, ValidDeal, BestOf;
    var autos, code := Autos(ctx.deals, clock, terms.orderType, units, sub), CodeOf(ctx, clock, terms, sub);
    AppliedAreNonNegative(ctx, clock, terms, sub, units, hasBundle);
    var all := autos + if code.Granted? then [code.discount] else [];
    if ctx.settings.stacking == Stack {
      ClampTakesWhatFits(all, sub);
      ClampKeepsTheDeals(all, sub);
      hide Clamp;
      if code.Granted? {
        assert Amounts(all) == Amounts(autos) + [code.discount.amountCents];
        SumWithLast(Amounts(autos), code.discount.amountCents);
      } else {
        assert all == autos;
      }
    }
  }

  lemma {:induction false} ClampKeepsTheDeals(ds: seq<Discount>, food: int)
    ensures forall i :: 0 <= i < |ds| ==> Clamp(ds, food)[i].dealId == ds[i].dealId
  {
    if ds != [] { ClampKeepsTheDeals(ds[..|ds|-1], food); }
  }

  // --- what a deal takes ------------------------------------------------------------------------

  /** A percentage is rounded to the nearest cent, halves away from nothing. */
  lemma PctIsNearest(amount: int, bps: int)
    requires amount >= 0 && bps >= 0
    ensures 10000 * Pct(amount, bps) - 5000 <= amount * bps < 10000 * Pct(amount, bps) + 5000
    ensures Pct(-amount, bps) == -Pct(amount, bps)
  {
    assert amount * bps >= 0;
  }

  function CappedAt(prices: seq<int>, each: int): seq<int> {
    seq(|prices|, i requires 0 <= i < |prices| => Min(prices[i], each))
  }

  /** After a mix deal every unit costs the deal's price at most, and cheaper ones what they did. */
  lemma {:induction false} AMixCapsEachPrice(prices: seq<int>, each: int)
    ensures Sum(prices) - MixOff(prices, each) == Sum(CappedAt(prices, each))
  {
    if prices == [] {
      EmptySum();
      assert CappedAt(prices, each) == [];
    } else {
      var n := |prices| - 1;
      AMixCapsEachPrice(prices[..n], each);
      SumLast(prices);
      var capped := CappedAt(prices, each);
      assert capped[..n] == CappedAt(prices[..n], each);
      SumLast(capped);
    }
  }

  /** The share an nth deal takes of every n-th price. */
  function EveryNth(prices: seq<int>, n: int, pct: int): (r: seq<int>)
    requires n >= 1
    ensures |r| == |prices| / n
  {
    seq(|prices| / n, k requires 0 <= k < |prices| / n => NthShare(prices, n, pct, k))
  }

  function NthShare(prices: seq<int>, n: int, pct: int, k: nat): int
    requires n >= 1 && k < |prices| / n
  {
    NthPlace(|prices|, n, k);
    Pct(prices[n * (k + 1) - 1], pct * 100)
  }

  lemma NthPlace(size: nat, n: int, k: nat)
    requires n >= 1 && k < size / n
    ensures 0 <= n * (k + 1) - 1 < size
  {
    MulMonotone(k + 1, size / n, n);
    MulMonotone(1, k + 1, n);
  }

  lemma GroupsOfN(size: nat, n: int)
    requires 1 <= n <= size
    ensures (size - n) / n == size / n - 1
  {
    var q, p := size / n, (size - n) / n;
    DivBounds(size, n);
    DivBounds(size - n, n);
    Distribute(n, q, -1);
    Distribute(n, p, 1);
    MulCancelStrict(q - 1, p + 1, n);
    MulCancelStrict(p, q, n);
  }

  lemma SkippingAGroup(prices: seq<int>, n: int, pct: int)
    requires 1 <= n <= |prices|
    ensures EveryNth(prices, n, pct) == [Pct(prices[n-1], pct * 100)] + EveryNth(prices[n..], n, pct)
  {
    hide Pct;
    var all, rest := EveryNth(prices, n, pct), prices[n..];
    GroupsOfN(|prices|, n);
    forall k | 0 <= k < |rest| / n ensures all[k+1] == EveryNth(rest, n, pct)[k] {
      NthPlace(|rest|, n, k);
      Distribute(n, k + 1, 1);
      assert rest[n * (k + 1) - 1] == prices[n * (k + 2) - 1];
    }
    assert n * 1 - 1 == n - 1;
  }

  /** One unit of every n is discounted: the n-th, the 2n-th and so on of the sorted prices. */
  lemma {:induction false} AnNthDealTakesEveryNth(prices: seq<int>, n: int, pct: int)
    requires n >= 1
    ensures NthOff(prices, n, pct) == Sum(EveryNth(prices, n, pct))
    decreases |prices|
  {
    hide Pct, EveryNth;
    if |prices| < n {
      NoGroups(prices, n, pct);
    } else {
      AnNthDealTakesEveryNth(prices[n..], n, pct);
      SkippingAGroup(prices, n, pct);
      assert EveryNth(prices, n, pct)[1..] == EveryNth(prices[n..], n, pct);
    }
  }

  lemma NoGroups(prices: seq<int>, n: int, pct: int)
    requires |prices| < n
    ensures EveryNth(prices, n, pct) == [] && Sum([]) == 0
  {
    assert |prices| / n == 0;
  }

  // --- when a deal runs -------------------------------------------------------------------------

  const MINUTES := 1440

  /** Within the window from one minute of the day to another, past midnight if need be; a window of nothing is a day. */
  predicate InWindow(minute: nat, start: nat, end: nat) {
    start == end || (minute - start) % MINUTES < (end - start) % MINUTES
  }

  /** A window, its complement and midnight: the clock is read round the day. */
  lemma AWindowGoesRoundTheDay(s: Schedule, clock: Clock, start: nat, end: nat)
    requires s.days == [] && s.start == Some(start) && s.end == Some(end)
    requires clock.minute < MINUTES && start < MINUTES && end < MINUTES
    ensures OnSchedule(s, clock) <==> InWindow(clock.minute, start, end)
    ensures start != end ==> (OnSchedule(s, clock) <==> !OnSchedule(s.(start := s.end, end := s.start), clock))
  {
    RoundTheDay(clock.minute - start);
    RoundTheDay(end - start);
  }

  lemma RoundTheDay(d: int)
    requires -MINUTES < d < MINUTES
    ensures d % MINUTES == if d < 0 then d + MINUTES else d
  {
    if d < 0 { assert (d + MINUTES) % MINUTES == d + MINUTES; }
  }

  /** A deal runs while it is on, for its order type (or any, when none is chosen yet), on its days and in its window. */
  lemma WhenADealRuns(d: Deal, clock: Clock, orderType: OrderType)
    requires clock.minute < MINUTES
    ensures Live(d, clock, orderType) <==>
      && d.active
      && (d.fulfil == Both || orderType == NoType || d.fulfil == Only(orderType))
      && (d.schedule.Some? ==>
            var s := d.schedule.value;
            && (s.days != [] ==> clock.weekday in s.days)
            && OnSchedule(s.(days := []), clock))
    ensures d.schedule.Some? && d.schedule.value.days == [] ==>
      && (d.schedule.value.start == None && d.schedule.value.end == None ==> OnSchedule(d.schedule.value, clock))
      && (d.schedule.value.end == None && d.schedule.value.start.Some? ==>
            (OnSchedule(d.schedule.value, clock) <==> clock.minute >= d.schedule.value.start.value))
      && (d.schedule.value.start == None && d.schedule.value.end.Some? ==>
            (OnSchedule(d.schedule.value, clock) <==> clock.minute < d.schedule.value.end.value))
  {
  }

  // --- the automatic deals ----------------------------------------------------------------------

  /** A unit of one of the items or categories, and of one of the sizes if any are named; what is no item earns nothing. */
  predicate Fits(el: Eligible, u: Unit) {
    if u.item == NO_ID then false
    else if el.sizes != [] && (u.size == NO_ID || u.size !in el.sizes) then false
    else u.item in el.items || (u.category in el.categories && u.category != NO_ID)
  }

  /** The prices of the units a deal is for, in their order. */
  function PricesFor(units: seq<Unit>, el: Eligible): seq<int> {
    if units == [] then []
    else if Fits(el, units[0]) then [units[0].price] + PricesFor(units[1..], el)
    else PricesFor(units[1..], el)
  }

  lemma {:induction false} PricesAppend(units: seq<Unit>, u: Unit, el: Eligible)
    ensures PricesFor(units + [u], el) == PricesFor(units, el) + if Fits(el, u) then [u.price] else []
  {
    if units == [] {
      assert [u][1..] == [] && [] + [u] == [u];
    } else {
      assert (units + [u])[1..] == units[1..] + [u];
      PricesAppend(units[1..], u, el);
    }
  }

  lemma {:induction false} EligibleUnitsAreThoseThatFit(units: seq<Unit>, el: Eligible)
    ensures Keys(EligibleUnits(units, el), UnitPrice) == PricesFor(units, el)
  {
    if units != [] {
      var init, u := units[..|units|-1], units[|units|-1];
      EligibleUnitsAreThoseThatFit(init, el);
      PricesAppend(init, u, el);
      assert units == init + [u];
      var more := if Matches(el, u) then [u] else [];
      assert EligibleUnits(units, el) == EligibleUnits(init, el) + more;
      assert Keys(EligibleUnits(init, el) + more, UnitPrice) == Keys(EligibleUnits(init, el), UnitPrice) + Keys(more, UnitPrice);
    }
  }

  /** Is the amount what the deal takes of the prices of the units it is for? */
  ghost predicate Takes(d: Deal, prices: seq<int>, sub: int, amount: int) {
    match d.kind
    case Mix =>
      if d.qty > 0 && |prices| >= d.qty then Sum(prices) - amount == Sum(CappedAt(prices, d.eachCents)) else amount == 0
    case Nth =>
      if d.n >= 1 then
        exists sorted: seq<int> ::
          && multiset(sorted) == multiset(prices)
          && (forall i, j :: 0 <= i <= j < |sorted| ==> sorted[i] >= sorted[j])
          && amount == Sum(EveryNth(sorted, d.n, d.pct))
      else amount == 0
    case FreeItem =>
      if prices != [] && sub >= d.minSubtotalCents then amount in prices && forall p <- prices :: amount <= p
      else amount == 0
    case _ => amount == 0
  }

  lemma DealsTakeWhatTheySay(d: Deal, prices: seq<int>, sub: int)
    ensures Takes(d, prices, sub, DealAmount(d, prices, sub))
  {
    hide Sum, NthOff, EveryNth, MixOff, SortBy;
    match d.kind
    case Mix => AMixCapsEachPrice(prices, d.eachCents);
    case Nth =>
      if d.n >= 1 {
        var sorted := SortBy(prices, Down);
        SortByIsSorted(prices, Down);
        AnNthDealTakesEveryNth(sorted, d.n, d.pct);
        forall i, j | 0 <= i <= j < |sorted| ensures sorted[i] >= sorted[j] { assert Down(sorted[i]) <= Down(sorted[j]); }
      }
    case FreeItem => if prices != [] { CheapestIsLeast(prices); }
    case _ =>
  }

  /** The discount a deal on offer gives: the deal runs, is for some units, and takes something of their prices. */
  ghost predicate Gives(d: Deal, clock: Clock, orderType: OrderType, units: seq<Unit>, sub: int, a: Discount) {
    && Live(d, clock, orderType) && d.eligible.Some?
    && a.kind == DealDiscount && a.dealId == d.id && a.title == d.name && a.amountCents > 0
    && Takes(d, PricesFor(units, d.eligible.value), sub, a.amountCents)
  }

  lemma AnAutoIsGiven(d: Deal, clock: Clock, orderType: OrderType, units: seq<Unit>, sub: int)
    requires AutoAmount(d, clock, orderType, units, sub) > 0
    ensures Gives(d, clock, orderType, units, sub,
                  Discount(DealDiscount, d.id, d.name, AutoAmount(d, clock, orderType, units, sub)))
  {
    hide Takes, DealAmount, Live, EligibleUnits;
    EligibleUnitsAreThoseThatFit(units, d.eligible.value);
    DealsTakeWhatTheySay(d, PricesFor(units, d.eligible.value), sub);
  }

  /** The automatic discounts are what the deals give, in the order of the deals, and none that gives anything is missed. */
  lemma {:induction false} AutosAreWhatDealsGive(deals: seq<Deal>, clock: Clock, orderType: OrderType, units: seq<Unit>,
                                                 sub: int)
    ensures var autos := Autos(deals, clock, orderType, units, sub);
      && (forall a <- autos :: exists d <- deals :: Gives(d, clock, orderType, units, sub, a))
      && (forall d <- deals :: AutoAmount(d, clock, orderType, units, sub) > 0 ==>
            exists a <- autos :: Gives(d, clock, orderType, units, sub, a))
      && |autos| <= |deals|
  {
    hide Gives, AutoAmount;
    if deals != [] {
      var init, d := deals[..|deals|-1], deals[|deals|-1];
      AutosAreWhatDealsGive(init, clock, orderType, units, sub);
      assert deals == init + [d];
      if AutoAmount(d, clock, orderType, units, sub) > 0 { AnAutoIsGiven(d, clock, orderType, units, sub); }
    }
  }

  /** The deals that give something, in their order. */
  function Giving(deals: seq<Deal>, clock: Clock, orderType: OrderType, units: seq<Unit>, sub: int): seq<Id> {
    if deals == [] then []
    else
      (if AutoAmount(deals[0], clock, orderType, units, sub) > 0 then [deals[0].id] else [])
      + Giving(deals[1..], clock, orderType, units, sub)
  }

  function DealIds(ds: seq<Discount>): seq<Id> {
    seq(|ds|, i requires 0 <= i < |ds| => ds[i].dealId)
  }

  lemma {:induction false} OneDealMore(deals: seq<Deal>, d: Deal, clock: Clock, orderType: OrderType, units: seq<Unit>,
                                       sub: int)
    ensures Giving(deals + [d], clock, orderType, units, sub)
         == Giving(deals, clock, orderType, units, sub)
            + if AutoAmount(d, clock, orderType, units, sub) > 0 then [d.id] else []
  {
    hide AutoAmount;
    if deals == [] {
      assert [d][1..] == [] && [] + [d] == [d];
    } else {
      assert (deals + [d])[1..] == deals[1..] + [d];
      OneDealMore(deals[1..], d, clock, orderType, units, sub);
    }
  }

  lemma {:induction false} AutosKeepTheOrder(deals: seq<Deal>, clock: Clock, orderType: OrderType, units: seq<Unit>, sub: int)
    ensures DealIds(Autos(deals, clock, orderType, units, sub)) == Giving(deals, clock, orderType, units, sub)
  {
    hide AutoAmount;
    if deals != [] {
      var init, d := deals[..|deals|-1], deals[|deals|-1];
      AutosKeepTheOrder(init, clock, orderType, units, sub);
      OneDealMore(init, d, clock, orderType, units, sub);
      assert deals == init + [d];
      var amount := AutoAmount(d, clock, orderType, units, sub);
      var more := if amount > 0 then [Discount(DealDiscount, d.id, d.name, amount)] else [];
      var before := Autos(init, clock, orderType, units, sub);
      assert DealIds(before + more) == DealIds(before) + DealIds(more);
    }
  }

  /** When a deal gives nothing: it does not run, is for no units, or takes nothing of the ones it is for. */
  lemma WhenADealGivesNothing(d: Deal, clock: Clock, orderType: OrderType, units: seq<Unit>, sub: int)
    ensures AutoAmount(d, clock, orderType, units, sub) <= 0 ==>
      || !Live(d, clock, orderType) || d.eligible == None
      || exists amount :: amount <= 0 && Takes(d, PricesFor(units, d.eligible.value), sub, amount)
  {
    hide Takes, DealAmount, Live, EligibleUnits;
    if d.eligible.Some? {
      EligibleUnitsAreThoseThatFit(units, d.eligible.value);
      DealsTakeWhatTheySay(d, PricesFor(units, d.eligible.value), sub);
    }
  }

  // --- the promo code -----------------------------------------------------------------------------

  /** The deal a code names: the last one kept under it. */
  predicate Names(deals: seq<Deal>, i: int, code: string) {
    && 0 <= i < |deals| && deals[i].kind == Code && deals[i].code == code
    && forall j :: i < j < |deals| ==> deals[j].kind != Code || deals[j].code != code
  }

  lemma {:induction false} TheCodeNamed(deals: seq<Deal>, code: string)
    ensures FindCode(deals, code).Some? ==> exists i :: Names(deals, i, code) && FindCode(deals, code) == Some(deals[i])
    ensures FindCode(deals, code).None? ==> forall i :: !Names(deals, i, code)
  {
    if deals != [] {
      var n := |deals| - 1;
      var init := deals[..n];
      TheCodeNamed(init, code);
      if deals[n].kind == Code && deals[n].code == code {
        assert Names(deals, n, code);
      } else if FindCode(init, code).Some? {
        var i :| Names(init, i, code) && FindCode(init, code) == Some(init[i]);
        assert Names(deals, i, code);
      } else {
        forall i ensures !Names(deals, i, code) { assert Names(deals, i, code) ==> Names(init, i, code); }
      }
    }
  }

  lemma OneIsNamed(deals: seq<Deal>, code: string, i: int, j: int)
    requires Names(deals, i, code) && Names(deals, j, code)
    ensures i == j
  {
  }

  /**
   * A code is granted exactly when it names a running deal whose minimum the food meets, for a first order where it asks
   * for one; it takes its percentage or its amount, and no more than the food.
   */
  lemma WhatACodeGives(ctx: Context, clock: Clock, terms: Terms, sub: int, i: int)
    requires Names(ctx.deals, i, terms.code) && terms.code != ""
    ensures var d, outcome := ctx.deals[i], CodeOf(ctx, clock, terms, sub);
      var barred := d.firstOrderOnly && terms.firstOrder.Some? && !terms.firstOrder.value;
      && (outcome.Granted? <==> Live(d, clock, terms.orderType) && sub >= d.minSubtotalCents && !barred)
      && (outcome == Refused(CodeInvalid) <==> !Live(d, clock, terms.orderType))
      && (outcome == Refused(CodeMinimum) <==> Live(d, clock, terms.orderType) && sub < d.minSubtotalCents)
      && (outcome == Refused(CodeFirst) <==> Live(d, clock, terms.orderType) && sub >= d.minSubtotalCents && barred)
      && (outcome.Granted? ==>
            && outcome.discount.kind == CodeDiscount && outcome.discount.dealId == d.id
            && outcome.discount.title == terms.code
            && outcome.discount.amountCents <= sub
            && (d.pct > 0 ==> outcome.discount.amountCents == Min(sub, Pct(sub, d.pct * 100)))
            && (d.pct <= 0 ==> outcome.discount.amountCents == Min(sub, d.amountCents)))
  {
    hide Live, Pct;
    TheCodeNamed(ctx.deals, terms.code);
    var k :| Names(ctx.deals, k, terms.code) && FindCode(ctx.deals, terms.code) == Some(ctx.deals[k]);
    OneIsNamed(ctx.deals, terms.code, i, k);
  }

  /** No code asked for gives nothing, and one that names no deal is invalid. */
  lemma ACodeThatNamesNothing(ctx: Context, clock: Clock, terms: Terms, sub: int)
    requires terms.code == "" || forall i :: !Names(ctx.deals, i, terms.code)
    ensures CodeOf(ctx, clock, terms, sub) == if terms.code == "" then NoCode else Refused(CodeInvalid)
  {
    TheCodeNamed(ctx.deals, terms.code);
  }
}
