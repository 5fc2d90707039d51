/** What holds of every quote: its money is conserved, and the discounts, fees and taxed food stay in range. */
module PricingQuote {
  import opened Options
  import opened Sequences
  import opened MenuBuild
  import opened PricingTypes
  import opened PricingItem
  import opened PricingCart
  import opened PricingMoney

  // --- prices never fall below nothing ---------------------------------------------------

  lemma ChargeBeyondIsNonNegative(extras: seq<int>, free: int)
    requires NonNegative(extras)
    ensures ChargeBeyond(extras, free) >= 0
  {
    hide Sum, SortBy;
    var sorted := SortBy(extras, Down);
    SortByMembers(extras, Down);
    forall i | 0 <= i < |sorted| ensures sorted[i] >= 0 {
      assert sorted[i] in extras;
    }
    SumNonNegative(Drop(sorted, free));
  }

  lemma {:induction false} PicksAddNoNegative(g: BuildGroup, size: Id, c: Chosen, picks: seq<Pick>)
    requires NonNegative(c.extras)
    ensures NonNegative(TakePicks(g, size, c, picks).extras)
  {
    if picks != [] {
      PicksAddNoNegative(g, size, c, picks[..|picks|-1]);
    }
  }

  lemma {:induction false} GroupsAddNoNegative(m: Menu, size: Id, picks: seq<Pick>, c: Chosen, gids: seq<Id>)
    requires NonNegative(c.extras)
    ensures NonNegative(TakeGroups(m, size, picks, c, gids).extras)
  {
    if gids != [] {
      GroupsAddNoNegative(m, size, picks, c, gids[..|gids|-1]);
      match FindGroup(m.groups, gids[|gids|-1])
      case None =>
      case Some(g) =>
        PicksAddNoNegative(g, size, TakeGroups(m, size, picks, c, gids[..|gids|-1]),
                           PicksIn(picks, gids[|gids|-1]));
    }
  }

  lemma ItemPriceIsNonNegative(m: Menu, sel: Selection, free: int)
    requires NonNegativeMenu(m)
    ensures var p := PriceItem(m, sel, free); p.base >= 0 && p.extras >= 0 && p.unit >= 0
  {
    hide ChargeBeyond, WithIncluded, TakeGroups;
    match FindItem(AllItems(m.categories), sel.itemId)
    case None =>
    case Some(it) =>
      match OfferOf(it, sel.choiceId)
      case None =>
      case Some(offer) =>
        var start := Chosen([], [], if offer.soldOut then [SoldOut] else []);
        var size := if offer.sizes == [] then NO_ID else
          match PickSize(offer.sizes, sel.sizeId) case None => NO_ID case Some(sz) => sz.sizeId;
        GroupsAddNoNegative(m, size, sel.options, start, it.groupIds);
        ChargeBeyondIsNonNegative(TakeGroups(m, size, sel.options, start, it.groupIds).extras, free);
        assert NonNegativeItem(it);
        assert NonNegativeSizes(offer.sizes) && offer.base >= 0;
  }

  lemma {:induction false} StepsAreNonNegative(ctx: Context, slots: seq<Slot>, picks: seq<Selection>)
    requires NonNegativeMenu(ctx.menu)
    ensures StepsOf(ctx, slots, picks).extras >= 0
  {
    hide PriceItem, NonNegativeMenu;
    if slots != [] {
      var k := |slots| - 1;
      StepsAreNonNegative(ctx, slots[..k], picks);
      if k < |picks| {
        ItemPriceIsNonNegative(ctx.menu, picks[k], slots[k].includedOptions);
      }
    }
  }

  /** A tally of priced lines: no negative amounts, and every cent of the lines is taxed at some rate. */
  ghost predicate Sound(t: Tally) {
    && (forall l :: l in t.lines ==> l.totalCents >= 0)
    && (forall x :: x in t.taxed ==> x.total >= 0)
    && NonNegativeUnits(t.units)
    && Sum(Totals(t.lines)) == Sum(TaxedTotals(t.taxed))
  }

  function TaxedTotals(taxed: seq<Taxed>): seq<int> {
    seq(|taxed|, i requires 0 <= i < |taxed| => taxed[i].total)
  }

  lemma TaxedTotalsAppend(a: seq<Taxed>, b: seq<Taxed>)
    ensures Sum(TaxedTotals(a + b)) == Sum(TaxedTotals(a)) + Sum(TaxedTotals(b))
  {
    assert TaxedTotals(a + b) == TaxedTotals(a) + TaxedTotals(b);
    SumAppend(TaxedTotals(a), TaxedTotals(b));
  }

  lemma CombineIsSound(a: Tally, b: Tally)
    requires Sound(a) && Sound(b)
    ensures Sound(Combine(a, b))
  {
    hide Sum;
    assert Totals(a.lines + b.lines) == Totals(a.lines) + Totals(b.lines);
    SumAppend(Totals(a.lines), Totals(b.lines));
    TaxedTotalsAppend(a.taxed, b.taxed);
  }

  lemma OneLineIsSound(line: QuoteLine, units: seq<Unit>, taxed: seq<Taxed>, saved: int, hasBundle: bool, issues: seq<Issue>)
    requires line.totalCents >= 0 && NonNegativeUnits(units)
    requires |taxed| <= 1 && line.totalCents == (if taxed == [] then 0 else taxed[0].total)
    ensures Sound(Tally([line], units, taxed, saved, hasBundle, issues))
  {
    assert Totals([line]) == [line.totalCents];
    assert TaxedTotals(taxed) == if taxed == [] then [] else [taxed[0].total];
  }

  lemma PriceLineIsSound(ctx: Context, clock: Clock, ot: OrderType, line: Line)
    requires ValidContext(ctx)
    ensures Sound(PriceLine(ctx, clock, ot, line))
  {
    hide PriceItem, StepsOf, Sound, NonNegativeMenu;
    var t := PriceLine(ctx, clock, ot, line);
    var n := ClampQty(line.qty);
    if line.dealId == NO_ID {
      ItemPriceIsNonNegative(ctx.menu, line.selection, 0);
      MulMonotone(0, PriceItem(ctx.menu, line.selection, 0).unit, n);
      OneLineIsSound(t.lines[0], t.units, t.taxed, t.saved, t.hasBundle, t.issues);
    } else {
      match FindBundle(ctx.deals, line.dealId)
      case None => OneLineIsSound(t.lines[0], [], [], 0, true, t.issues);
      case Some(d) =>
        assert ValidDeal(d);
        StepsAreNonNegative(ctx, d.slots, line.picks);
        MulMonotone(0, d.priceCents + StepsOf(ctx, d.slots, line.picks).extras, n);
        OneLineIsSound(t.lines[0], t.units, t.taxed, t.saved, t.hasBundle, t.issues);
    }
  }

  lemma {:induction false} TallyIsSound(ctx: Context, clock: Clock, ot: OrderType, lines: seq<Line>)
    requires ValidContext(ctx)
    ensures Sound(TallyLines(ctx, clock, ot, lines))
  {
    hide PriceLine, ValidContext;
    if lines != [] {
      TallyIsSound(ctx, clock, ot, lines[..|lines|-1]);
      PriceLineIsSound(ctx, clock, ot, lines[|lines|-1]);
      hide Sound;
      CombineIsSound(TallyLines(ctx, clock, ot, lines[..|lines|-1]), PriceLine(ctx, clock, ot, lines[|lines|-1]));
    }
  }

  lemma CartIsSound(ctx: Context, clock: Clock, cart: Cart)
    requires ValidContext(ctx)
    ensures Sound(TallyOf(ctx, clock, cart))
  {
    TallyIsSound(ctx, clock, cart.terms.orderType, cart.lines);
  }

  // --- the food at each rate is the food ---------------------------------------------------

  lemma {:induction false} GrossIsNonNegative(taxed: seq<Taxed>, rate: int)
    requires forall x :: x in taxed ==> x.total >= 0
    ensures GrossAt(taxed, rate) >= 0
    ensures rate !in RatesOf(taxed) ==> GrossAt(taxed, rate) == 0
  {
    if taxed != [] {
      GrossIsNonNegative(taxed[..|taxed|-1], rate);
      assert taxed[|taxed|-1] in taxed;
    }
  }

  ghost predicate Distinct(s: seq<int>) {
    forall i, j :: 0 <= i < j < |s| ==> s[i] != s[j]
  }

  lemma {:induction false} RatesAreDistinct(taxed: seq<Taxed>)
    ensures Distinct(RatesOf(taxed))
  {
    if taxed != [] {
      RatesAreDistinct(taxed[..|taxed|-1]);
      OneMoreRate(RatesOf(taxed[..|taxed|-1]), taxed[|taxed|-1].rate);
    }
  }

  lemma OneMoreRate(rates: seq<int>, rate: int)
    requires Distinct(rates)
    ensures rate !in rates ==> Distinct(rates + [rate])
  {
  }

  lemma RatesAndGrossesOfOneMore(taxed: seq<Taxed>, x: Taxed)
    ensures RatesOf(taxed + [x]) == if x.rate in RatesOf(taxed) then RatesOf(taxed) else RatesOf(taxed) + [x.rate]
    ensures forall r :: GrossAt(taxed + [x], r) == GrossAt(taxed, r) + if x.rate == r then x.total else 0
  {
    assert (taxed + [x])[..|taxed|] == taxed;
  }

  lemma OneMoreTaxed(taxed: seq<Taxed>, x: Taxed)
    requires forall t :: t in taxed ==> t.total >= 0
    requires Sum(Grosses(taxed, RatesOf(taxed))) == Sum(TaxedTotals(taxed))
    ensures Sum(Grosses(taxed + [x], RatesOf(taxed + [x]))) == Sum(TaxedTotals(taxed + [x]))
  {
    hide Sum, GrossAt, RatesOf;
    var all, rates := taxed + [x], RatesOf(taxed);
    RatesAndGrossesOfOneMore(taxed, x);
    TaxedTotalsAppend(taxed, [x]);
    assert TaxedTotals([x]) == [x.total];
    SingleSum(x.total);
    RatesAreDistinct(taxed);
    if x.rate in rates {
      var i :| 0 <= i < |rates| && rates[i] == x.rate;
      assert RatesOf(all) == rates;
      assert Grosses(all, rates) == Grosses(taxed, rates)[i := GrossAt(taxed, x.rate) + x.total];
      SumUpdate(Grosses(taxed, rates), i, GrossAt(taxed, x.rate) + x.total);
    } else {
      GrossIsNonNegative(taxed, x.rate);
      assert RatesOf(all) == rates + [x.rate];
      assert Grosses(all, RatesOf(all)) == Grosses(taxed, rates) + [x.total];
      SumWithLast(Grosses(taxed, rates), x.total);
    }
  }

  lemma {:induction false} GrossesAddUp(taxed: seq<Taxed>)
    requires forall x :: x in taxed ==> x.total >= 0
    ensures Sum(Grosses(taxed, RatesOf(taxed))) == Sum(TaxedTotals(taxed))
  {
    if taxed == [] {
      assert Grosses([], []) == [] && TaxedTotals([]) == [];
    } else {
      var before, x := taxed[..|taxed|-1], taxed[|taxed|-1];
      GrossesAddUp(before);
      OneMoreTaxed(before, x);
      assert taxed == before + [x];
    }
  }

  lemma {:induction false} GrossesOfPermutation(taxed: seq<Taxed>, a: seq<int>, b: seq<int>)
    requires multiset(a) == multiset(b)
    ensures multiset(Grosses(taxed, a)) == multiset(Grosses(taxed, b))
  {
    hide GrossAt;
    assert |a| == |multiset(a)| == |multiset(b)| == |b|;
    if a == [] {
      assert a == b;
    } else {
      var i := Extract(a, b);
      GrossesOfPermutation(taxed, a[1..], b[..i] + b[i+1..]);
      assert Grosses(taxed, a) == [GrossAt(taxed, a[0])] + Grosses(taxed, a[1..]);
      assert Grosses(taxed, b) == Grosses(taxed, b[..i]) + [GrossAt(taxed, b[i])] + Grosses(taxed, b[i+1..]);
      assert Grosses(taxed, b[..i] + b[i+1..]) == Grosses(taxed, b[..i]) + Grosses(taxed, b[i+1..]);
    }
  }

  /** The tax loop's groups meet TaxSpread's terms: no negative food, and together all of it. */
  lemma RatesCarryTheFood(taxed: seq<Taxed>)
    requires forall x :: x in taxed ==> x.total >= 0
    ensures var g := Grosses(taxed, SortedRates(taxed));
      NonNegative(g) && Sum(g) == Sum(TaxedTotals(taxed)) && |g| == |RatesOf(taxed)|
  {
    hide Sum, SortBy;
    GrossesAddUp(taxed);
    SortByIsSorted(RatesOf(taxed), Same);
    GrossesOfPermutation(taxed, SortedRates(taxed), RatesOf(taxed));
    SumOfPermutation(Grosses(taxed, SortedRates(taxed)), Grosses(taxed, RatesOf(taxed)));
    forall r ensures GrossAt(taxed, r) >= 0 { GrossIsNonNegative(taxed, r); }
  }

  // --- the quote ---------------------------------------------------------------------------

  lemma CashIsBounded(st: Settings, terms: Terms, ds: seq<Discount>, sub: int)
    requires ValidSettings(st) && NonNegativeDiscounts(ds) && 0 <= Sum(Amounts(ds)) <= sub
    ensures var food := sub - Sum(Amounts(ds));
      var after := AfterDiscounts(st, terms, food);
      && 0 <= after <= food
      && NonNegativeDiscounts(WithCash(st, terms, ds, food))
      && Sum(Amounts(WithCash(st, terms, ds, food))) == sub - after
  {
    hide Sum;
    var food := sub - Sum(Amounts(ds));
    match CashOff(st, terms, food)
    case None =>
    case Some(cash) =>
      PctBounds(food, st.cardFee.bps);
      assert Amounts(WithCash(st, terms, ds, food)) == Amounts(ds) + [cash];
      SumWithLast(Amounts(ds), cash);
  }

  /** The food left once every discount is taken, by a quote's own figures. */
  function FoodAfter(q: Quote): int {
    q.subtotalCents - Sum(Amounts(q.discounts))
  }

  /**
   * A quote conserves money: the total is the subtotal less every discount, plus the fees, tax and tip; the discounts
   * take between nothing and all of the food; the fees and the tip are never negative.
   */
  lemma QuoteConservesMoney(ctx: Context, clock: Clock, cart: Cart)
    requires ValidContext(ctx)
    ensures var q := QuoteOf(ctx, clock, cart);
      && q.totalCents == q.subtotalCents - Sum(Amounts(q.discounts)) + q.deliveryFeeCents + q.serviceFeeCents
                         + q.taxCents + q.tipCents + q.cardFeeCents
      && q.lines == TallyOf(ctx, clock, cart).lines
      && q.subtotalCents == Sum(Totals(q.lines))
      && 0 <= FoodAfter(q) <= q.subtotalCents
      && NonNegativeDiscounts(q.discounts)
      && q.deliveryFeeCents >= 0 && q.serviceFeeCents >= 0 && q.tipCents >= 0
  {
    hide TallyLines, FoodDiscounts, FoodTax, Sum, NonNegativeMenu, WithCash;
    var t := TallyOf(ctx, clock, cart);
    CartIsSound(ctx, clock, cart);
    SumNonNegative(Totals(t.lines));
    var sub := Sum(Totals(t.lines));
    FoodIsInRange(ctx, clock, cart.terms, sub, t.units, t.hasBundle);
    var ds := FoodDiscounts(ctx, clock, cart.terms, sub, t.units, t.hasBundle);
    CashIsBounded(ctx.settings, cart.terms, ds, sub);
    var after := AfterDiscounts(ctx.settings, cart.terms, sub - Sum(Amounts(ds)));
    PctNonNegative(after, ctx.settings.serviceFeeBps);
    TipIsNonNegative(ctx.settings, cart.terms, after);
  }

  lemma TipIsNonNegative(st: Settings, terms: Terms, after: int)
    requires ValidSettings(st) && after >= 0
    ensures TipOf(st, terms, after) >= 0
  {
    var pct := if terms.tipPct.Some? && 0 <= terms.tipPct.value <= 100 then terms.tipPct.value else st.tips.defaultPct;
    PctNonNegative(after, pct * 100);
  }

  lemma TaxIsOnTheBases(ctx: Context, clock: Clock, cart: Cart)
    requires ValidContext(ctx)
    ensures var q := QuoteOf(ctx, clock, cart);
      q.taxCents == FoodTax(TallyOf(ctx, clock, cart).taxed, q.subtotalCents, q.subtotalCents - FoodAfter(q))
                    + Pct(q.serviceFeeCents, ctx.settings.taxBps)
  {
    hide TallyLines, FoodDiscounts, FoodTax, Sum, NonNegativeMenu, WithCash;
    var t := TallyOf(ctx, clock, cart);
    CartIsSound(ctx, clock, cart);
    SumNonNegative(Totals(t.lines));
    var sub := Sum(Totals(t.lines));
    FoodIsInRange(ctx, clock, cart.terms, sub, t.units, t.hasBundle);
    CashIsBounded(ctx.settings, cart.terms, FoodDiscounts(ctx, clock, cart.terms, sub, t.units, t.hasBundle), sub);
  }

  /** What each of a cart's rates (ascending) is charged on. */
  function TaxBases(taxed: seq<Taxed>, sub: int, off: int): seq<int> {
    Bases(Grosses(taxed, SortedRates(taxed)), sub, off)
  }

  lemma SpreadOfTally(t: Tally, off: int)
    requires Sound(t) && 0 <= off <= Sum(Totals(t.lines))
    ensures var sub := Sum(Totals(t.lines)); var bases := TaxBases(t.taxed, sub, off);
      && Sum(bases) == sub - off
      && |bases| == |RatesOf(t.taxed)|
      && (forall k :: 0 <= k < |bases| - 1 ==> bases[k] >= 0)
      && forall k :: 0 <= k < |bases| ==> bases[k] >= -Max(0, |bases| - 2)
  {
    hide Sum, Bases, SortBy;
    var sub := Sum(Totals(t.lines));
    RatesCarryTheFood(t.taxed);
    var g := Grosses(t.taxed, SortedRates(t.taxed));
    if g == [] {
      NoFood(sub, off);
      assert Sum(g) == Sum(TaxedTotals(t.taxed)) == sub;
    } else {
      TaxSpread(g, sub, off);
    }
  }

  lemma NoFood(sub: int, off: int)
    ensures Sum(Bases([], sub, off)) == 0 && Sum([]) == 0
  {
    assert Bases([], sub, off) == [];
  }

  lemma TaxOverBases(taxed: seq<Taxed>, sub: int, off: int)
    ensures |TaxBases(taxed, sub, off)| == |SortedRates(taxed)|
    ensures FoodTax(taxed, sub, off) == Sum(FoodTaxes(TaxBases(taxed, sub, off), SortedRates(taxed)))
  {
  }

  /** Each rate is charged on its share: together the taxed bases are exactly the food after discounts. */
  lemma TaxedFoodIsTheFoodAfterDiscounts(ctx: Context, clock: Clock, cart: Cart)
    requires ValidContext(ctx)
    ensures var q := QuoteOf(ctx, clock, cart);
      var taxed := TallyOf(ctx, clock, cart).taxed;
      var bases := TaxBases(taxed, q.subtotalCents, q.subtotalCents - FoodAfter(q));
      && |bases| == |RatesOf(taxed)| == |SortedRates(taxed)|
      && q.taxCents == Sum(FoodTaxes(bases, SortedRates(taxed))) + Pct(q.serviceFeeCents, ctx.settings.taxBps)
      && Sum(bases) == FoodAfter(q)
      && (forall k :: 0 <= k < |bases| - 1 ==> bases[k] >= 0)
      && forall k :: 0 <= k < |bases| ==> bases[k] >= -Max(0, |bases| - 2)
  {
    hide *;
    QuoteConservesMoney(ctx, clock, cart);
    CartIsSound(ctx, clock, cart);
    TaxIsOnTheBases(ctx, clock, cart);
    var q := QuoteOf(ctx, clock, cart);
    TaxOverBases(TallyOf(ctx, clock, cart).taxed, q.subtotalCents, q.subtotalCents - FoodAfter(q));
    SpreadOfTally(TallyOf(ctx, clock, cart), q.subtotalCents - FoodAfter(q));
  }

  lemma {:induction false} TalliedRatesAreNonNegative(ctx: Context, clock: Clock, ot: OrderType, lines: seq<Line>)
    requires ValidSettings(ctx.settings)
    ensures forall x :: x in TallyLines(ctx, clock, ot, lines).taxed ==> x.rate >= 0
  {
    hide PriceItem, StepsOf, FindBundle;
    if lines != [] {
      TalliedRatesAreNonNegative(ctx, clock, ot, lines[..|lines|-1]);
      assert forall x :: x in PriceLine(ctx, clock, ot, lines[|lines|-1]).taxed ==> x.rate >= 0;
    }
  }

  lemma {:induction false} RatesComeFromTaxed(taxed: seq<Taxed>)
    ensures forall r :: r in RatesOf(taxed) ==> exists x :: x in taxed && x.rate == r
  {
    if taxed != [] {
      RatesComeFromTaxed(taxed[..|taxed|-1]);
      assert taxed[|taxed|-1] in taxed;
      assert forall x :: x in taxed[..|taxed|-1] ==> x in taxed;
    }
  }

  lemma TaxesAreNonNegative(bases: seq<int>, rates: seq<int>)
    requires |bases| == |rates| && NonNegative(bases) && NonNegative(rates)
    ensures Sum(FoodTaxes(bases, rates)) >= 0
  {
    hide Sum, Pct;
    forall k | 0 <= k < |bases| ensures Pct(bases[k], rates[k]) >= 0 {
      PctNonNegative(bases[k], rates[k]);
    }
    SumNonNegative(FoodTaxes(bases, rates));
  }

  lemma SortedRatesAreNonNegative(taxed: seq<Taxed>)
    requires forall x :: x in taxed ==> x.rate >= 0
    ensures NonNegative(SortedRates(taxed))
  {
    hide SortBy, RatesOf;
    RatesComeFromTaxed(taxed);
    SortByMembers(RatesOf(taxed), Same);
    var rates := SortedRates(taxed);
    forall i | 0 <= i < |rates| ensures rates[i] >= 0 {
      assert rates[i] in RatesOf(taxed);
    }
  }

  /** With at most two tax rates no base is negative, so neither is the tax nor a card surcharge. */
  lemma TwoRatesKeepTheCardFeeNonNegative(ctx: Context, clock: Clock, cart: Cart)
    requires ValidContext(ctx)
    requires |RatesOf(TallyOf(ctx, clock, cart).taxed)| <= 2
    ensures QuoteOf(ctx, clock, cart).taxCents >= 0 && QuoteOf(ctx, clock, cart).cardFeeCents >= 0
  {
    hide QuoteOf, TallyLines, TaxBases, SortedRates, FoodTaxes, NonNegativeMenu, NonNegativeDiscounts, Totals,
         Amounts, Sum, Pct, RatesOf, FoodAfter;
    var q := QuoteOf(ctx, clock, cart);
    var taxed := TallyOf(ctx, clock, cart).taxed;
    QuoteConservesMoney(ctx, clock, cart);
    TaxedFoodIsTheFoodAfterDiscounts(ctx, clock, cart);
    TalliedRatesAreNonNegative(ctx, clock, cart.terms.orderType, cart.lines);
    SortedRatesAreNonNegative(taxed);
    CardFeeFollowsTheTax(ctx, clock, cart);
    TaxesAreNonNegative(TaxBases(taxed, q.subtotalCents, q.subtotalCents - FoodAfter(q)), SortedRates(taxed));
    PctNonNegative(q.serviceFeeCents, ctx.settings.taxBps);
    PctNonNegative(FoodAfter(q) + q.deliveryFeeCents + q.serviceFeeCents + q.taxCents, ctx.settings.cardFee.bps);
  }

  /** The card fee is a share of the food after discounts, the fees and the tax (nothing without a surcharge). */
  lemma CardFeeFollowsTheTax(ctx: Context, clock: Clock, cart: Cart)
    requires ValidContext(ctx)
    ensures var q := QuoteOf(ctx, clock, cart);
      q.cardFeeCents == if ctx.settings.cardFee.mode == Surcharge && !cart.terms.cash
                        then Pct(FoodAfter(q) + q.deliveryFeeCents + q.serviceFeeCents + q.taxCents,
                                 ctx.settings.cardFee.bps) else 0
  {
    hide TallyLines, FoodDiscounts, FoodTax, Sum, NonNegativeMenu, WithCash, Pct;
    var t := TallyOf(ctx, clock, cart);
    CartIsSound(ctx, clock, cart);
    SumNonNegative(Totals(t.lines));
    var sub := Sum(Totals(t.lines));
    FoodIsInRange(ctx, clock, cart.terms, sub, t.units, t.hasBundle);
    CashIsBounded(ctx.settings, cart.terms, FoodDiscounts(ctx, clock, cart.terms, sub, t.units, t.hasBundle), sub);
  }

  /** The card fee is below nothing exactly when the amount it is taken on is far enough below it to round there. */
  lemma WhenTheCardFeeIsNegative(ctx: Context, clock: Clock, cart: Cart)
    requires ValidContext(ctx)
    ensures var q := QuoteOf(ctx, clock, cart);
      q.cardFeeCents < 0 <==>
        ctx.settings.cardFee.mode == Surcharge && !cart.terms.cash
        && (FoodAfter(q) + q.deliveryFeeCents + q.serviceFeeCents + q.taxCents) * ctx.settings.cardFee.bps <= -5000
  {
    hide QuoteOf, Pct, NonNegativeMenu, FoodAfter;
    var q := QuoteOf(ctx, clock, cart);
    CardFeeFollowsTheTax(ctx, clock, cart);
    WhenAPctIsNegative(FoodAfter(q) + q.deliveryFeeCents + q.serviceFeeCents + q.taxCents, ctx.settings.cardFee.bps);
  }

  lemma WhenAPctIsNegative(amount: int, bps: int)
    requires bps >= 0
    ensures Pct(amount, bps) < 0 <==> amount * bps <= -5000
  {
    if amount < 0 {
      assert (-amount) * bps == -(amount * bps) && (-amount) * bps >= 0;
    } else {
      assert amount * bps >= 0;
    }
  }

  lemma PctIsMonotone(a: int, b: int, r: int, s: int)
    requires 0 <= a <= b && 0 <= r <= s
    ensures 0 <= Pct(a, r) <= Pct(b, s)
  {
    MulMonotone(a, b, r);
    MulMonotone(r, s, b);
    assert a * r >= 0;
  }

  /** Only the last base can be below nothing, so the taxes fall below nothing by at most its rate's part. */
  lemma TaxesAreBarelyNegative(bases: seq<int>, rates: seq<int>, top: int)
    requires |bases| == |rates| && NonNegative(rates) && top >= 0 && forall k :: 0 <= k < |rates| ==> rates[k] <= top
    requires forall k :: 0 <= k < |bases| - 1 ==> bases[k] >= 0
    requires forall k :: 0 <= k < |bases| ==> bases[k] >= -Max(0, |bases| - 2)
    ensures Sum(FoodTaxes(bases, rates)) >= -Pct(Max(0, |bases| - 2), top)
  {
    hide Sum, Pct;
    var taxes, n := FoodTaxes(bases, rates), |bases|;
    PctNonNegative(Max(0, n - 2), top);
    if n == 0 {
      EmptySum();
    } else {
      forall k | 0 <= k < n - 1 ensures taxes[k] >= 0 { PctNonNegative(bases[k], rates[k]); }
      SumNonNegative(taxes[..n-1]);
      SumLast(taxes);
      if bases[n-1] >= 0 {
        PctNonNegative(bases[n-1], rates[n-1]);
      } else {
        PctOfNegative(-bases[n-1], rates[n-1]);
        PctIsMonotone(-bases[n-1], n - 2, rates[n-1], top);
      }
    }
  }

  lemma PctOfNegative(amount: int, bps: int)
    requires amount > 0
    ensures Pct(-amount, bps) == -Pct(amount, bps)
  {
  }

  /** With few rates or low ones the tax stays above -15 cents, and so a card fee of at most a tenth above -2. */
  lemma LowRatesKeepTheCardFeeUp(ctx: Context, clock: Clock, cart: Cart, top: int)
    requires ValidContext(ctx) && top >= 0
    requires var rates := RatesOf(TallyOf(ctx, clock, cart).taxed);
      (forall r :: r in rates ==> r <= top) && (|rates| - 2) * top < 145000
    ensures QuoteOf(ctx, clock, cart).cardFeeCents >= -1
  {
    hide QuoteOf, TallyLines, TaxBases, FoodTaxes, NonNegativeMenu, NonNegativeDiscounts, Totals, Amounts, Sum, Pct,
         RatesOf, FoodAfter, SortBy;
    var q := QuoteOf(ctx, clock, cart);
    var taxed := TallyOf(ctx, clock, cart).taxed;
    QuoteConservesMoney(ctx, clock, cart);
    TaxedFoodIsTheFoodAfterDiscounts(ctx, clock, cart);
    TalliedRatesAreNonNegative(ctx, clock, cart.terms.orderType, cart.lines);
    SortedRatesAreNonNegative(taxed);
    SortByMembers(RatesOf(taxed), Same);
    CardFeeFollowsTheTax(ctx, clock, cart);
    var bases, rates := TaxBases(taxed, q.subtotalCents, q.subtotalCents - FoodAfter(q)), SortedRates(taxed);
    forall k | 0 <= k < |rates| ensures rates[k] <= top { assert rates[k] in RatesOf(taxed); }
    TaxesAreBarelyNegative(bases, rates, top);
    PctNonNegative(q.serviceFeeCents, ctx.settings.taxBps);
    FewCentsOfTax(|bases|, top);
    ATenthOfFewCents(FoodAfter(q) + q.deliveryFeeCents + q.serviceFeeCents + q.taxCents, ctx.settings.cardFee.bps);
  }

  lemma FewCentsOfTax(n: nat, top: int)
    requires top >= 0 && (n - 2) * top < 145000
    ensures Pct(Max(0, n - 2), top) <= 14
  {
    var m := Max(0, n - 2);
    assert 0 <= m * top < 145000;
  }

  lemma ATenthOfFewCents(amount: int, bps: int)
    requires amount >= -14 && 0 <= bps <= 1000
    ensures Pct(amount, bps) >= -1
  {
    hide Pct;
    if amount < 0 {
      PctOfNegative(-amount, bps);
      PctIsMonotone(-amount, 14, bps, 1000);
      assert Pct(14, 1000) == 1 by { FourteenCents(); }
    } else {
      PctNonNegative(amount, bps);
    }
  }

  lemma FourteenCents()
    ensures Pct(14, 1000) == 1
  {
  }

  /** No automatic deal takes more than the units it may touch cost; an nth deal at most an n-th of that. */
  lemma DealsTakeAtMostTheirUnits(ctx: Context, clock: Clock, cart: Cart, d: Deal)
    requires ValidContext(ctx) && d in ctx.deals && d.eligible.Some?
    ensures var t := TallyOf(ctx, clock, cart);
      var amount := AutoAmount(d, clock, cart.terms.orderType, t.units, Sum(Totals(t.lines)));
      var eligible := Sum(Keys(EligibleUnits(t.units, d.eligible.value), UnitPrice));
      0 <= amount <= eligible && (d.kind == Nth ==> amount * d.n <= eligible)
  {
    hide TallyLines, DealAmount, NonNegativeMenu, Sum;
    var t := TallyOf(ctx, clock, cart);
    CartIsSound(ctx, clock, cart);
    EligibleUnitsAreUnits(t.units, d.eligible.value);
    hide EligibleUnits;
    var prices := Keys(EligibleUnits(t.units, d.eligible.value), UnitPrice);
    DealAmountBounds(d, prices, Sum(Totals(t.lines)));
    SumNonNegative(prices);
  }
}
