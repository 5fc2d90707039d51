/** What a quote charges beside the food, what it says was saved, and why a cart cannot be ordered. */
module PricingFees {
  import opened Options
  import opened Sequences
  import opened MenuBuild
  import opened PricingTypes
  import opened PricingItem
  import opened PricingCart
  import opened PricingMoney
  import opened PricingQuote

  // --- fees and tip -----------------------------------------------------------------------------

  /** The delivery fee depends on the food before any cash discount, every other charge on the food after it. */
  lemma WhatIsCharged(ctx: Context, clock: Clock, cart: Cart)
    requires ValidContext(ctx)
    ensures var q, st, terms := QuoteOf(ctx, clock, cart), ctx.settings, cart.terms;
      var food := FoodToPay(ctx, clock, terms, TallyOf(ctx, clock, cart));
      var free := st.freeDeliveryOverCents.Some? && food >= st.freeDeliveryOverCents.value;
      && q.deliveryFeeCents == (if terms.orderType != Delivery || !ctx.types.delivery || free then 0 else st.deliveryFeeCents)
      && q.serviceFeeCents == (if cart.lines == [] then 0 else st.serviceFeeCents + Pct(FoodAfter(q), st.serviceFeeBps))
      && FoodAfter(q) == food - (if st.cardFee.mode == CashDiscount && terms.cash && food > 0
                                 then Pct(food, st.cardFee.bps) else 0)
  {
    hide TallyLines, FoodDiscounts, FoodTax, Sum, NonNegativeMenu, WithCash, Pct;
    var t := TallyOf(ctx, clock, cart);
    CartIsSound(ctx, clock, cart);
    SumNonNegative(Totals(t.lines));
    var sub := Sum(Totals(t.lines));
    FoodIsInRange(ctx, clock, cart.terms, sub, t.units, t.hasBundle);
    CashIsBounded(ctx.settings, cart.terms, FoodDiscounts(ctx, clock, cart.terms, sub, t.units, t.hasBundle), sub);
  }

  /** A tip is the amount asked for, or else the asked share of the food after discounts, or else the store's share. */
  lemma WhatIsTipped(ctx: Context, clock: Clock, cart: Cart)
    requires ValidContext(ctx)
    ensures var q, tips, terms := QuoteOf(ctx, clock, cart), ctx.settings.tips, cart.terms;
      && (!tips.enabled ==> q.tipCents == 0)
      && (tips.enabled && terms.tipCents.Some? && terms.tipCents.value >= 0 ==> q.tipCents == terms.tipCents.value)
      && (tips.enabled && (terms.tipCents.None? || terms.tipCents.value < 0) ==>
            && (terms.tipPct.Some? && 0 <= terms.tipPct.value <= 100 ==>
                  q.tipCents == Pct(FoodAfter(q), 100 * terms.tipPct.value))
            && (terms.tipPct.None? || terms.tipPct.value < 0 || terms.tipPct.value > 100 ==>
                  q.tipCents == Pct(FoodAfter(q), 100 * tips.defaultPct)))
  {
    hide TallyLines, FoodDiscounts, FoodTax, Sum, NonNegativeMenu, WithCash, Pct;
    var t := TallyOf(ctx, clock, cart);
    CartIsSound(ctx, clock, cart);
    SumNonNegative(Totals(t.lines));
    var sub := Sum(Totals(t.lines));
    FoodIsInRange(ctx, clock, cart.terms, sub, t.units, t.hasBundle);
    CashIsBounded(ctx.settings, cart.terms, FoodDiscounts(ctx, clock, cart.terms, sub, t.units, t.hasBundle), sub);
  }

  /** The discounts are those on the food, and after them the one for paying cash. */
  lemma WhereTheCashDiscountStands(ctx: Context, clock: Clock, cart: Cart)
    ensures var q, t := QuoteOf(ctx, clock, cart), TallyOf(ctx, clock, cart);
      var food := FoodToPay(ctx, clock, cart.terms, t);
      var ds := FoodDiscounts(ctx, clock, cart.terms, Sum(Totals(t.lines)), t.units, t.hasBundle);
      if ctx.settings.cardFee.mode == CashDiscount && cart.terms.cash && food > 0
      then exists d :: q.discounts == ds + [d] && d.kind == CashDiscountKind
                       && d.amountCents == Pct(food, ctx.settings.cardFee.bps)
      else q.discounts == ds
  {
    hide TallyLines, FoodDiscounts, FoodTax, Sum, Pct;
    var q, t := QuoteOf(ctx, clock, cart), TallyOf(ctx, clock, cart);
    var food := FoodToPay(ctx, clock, cart.terms, t);
    var ds := FoodDiscounts(ctx, clock, cart.terms, Sum(Totals(t.lines)), t.units, t.hasBundle);
    var cash := CashOff(ctx.settings, cart.terms, food);
    if cash.Some? { assert q.discounts == ds + [Discount(CashDiscountKind, NO_ID, "Cash discount", cash.value)]; }
  }

  // --- the lines ----------------------------------------------------------------------------------

  /** An item's line: so many units at the item's price, taxed at its own rate or the store's, and seen by deals if clean. */
  lemma WhatAnItemComesTo(ctx: Context, clock: Clock, orderType: OrderType, line: Line)
    requires line.dealId == NO_ID
    ensures var t, p := PriceLine(ctx, clock, orderType, line), PriceItem(ctx.menu, line.selection, 0);
      var qty := Max(1, Min(50, line.qty));
      var own := if p.rateItem in ctx.items then ctx.items[p.rateItem].taxBps else 0;
      && t.lines == [QuoteLine(p.name, qty, p.unit, p.unit * qty, NO_ID)]
      && t.taxed == [Taxed(p.unit * qty, if own > 0 then own else ctx.settings.taxBps)]
      && t.issues == p.issues && !t.hasBundle && t.saved == 0
      && |t.units| == (if p.issues == [] && p.bankItem != NO_ID then qty else 0)
      && forall u <- t.units ::
           && u.price == p.unit && u.item == p.bankItem && u.size == p.sizeId
           && u.category == if p.bankItem in ctx.items then ctx.items[p.bankItem].categoryId else NO_ID
  {
    hide PriceItem;
    assert ClampQty(line.qty) == Max(1, Min(50, line.qty));
  }

  /** What a bundle's picks come to at the menu's prices, and what their options cost beyond the free ones. */
  function Regular(ctx: Context, slots: seq<Slot>, picks: seq<Selection>): int {
    if slots == [] || picks == [] then 0
    else PriceItem(ctx.menu, picks[0], 0).unit + Regular(ctx, slots[1..], picks[1..])
  }

  function Extras(ctx: Context, slots: seq<Slot>, picks: seq<Selection>): int {
    if slots == [] || picks == [] then 0
    else PriceItem(ctx.menu, picks[0], slots[0].includedOptions).extras + Extras(ctx, slots[1..], picks[1..])
  }

  /** The item whose tax a bundle takes: that of the first pick that has one. */
  function TaxedAs(ctx: Context, slots: seq<Slot>, picks: seq<Selection>): Id {
    if slots == [] || picks == [] then NO_ID
    else
      var item := PriceItem(ctx.menu, picks[0], slots[0].includedOptions).rateItem;
      if item != NO_ID then item else TaxedAs(ctx, slots[1..], picks[1..])
  }

  lemma {:induction false} OneStepMore(ctx: Context, slots: seq<Slot>, slot: Slot, picks: seq<Selection>)
    ensures var p := if |slots| < |picks| then PriceItem(ctx.menu, picks[|slots|], slot.includedOptions)
                     else Priced("", "", NO_ID, NO_ID, NO_ID, "", 0, 0, 0, [], []);
      && Regular(ctx, slots + [slot], picks)
         == Regular(ctx, slots, picks) + (if |slots| < |picks| then PriceItem(ctx.menu, picks[|slots|], 0).unit else 0)
      && Extras(ctx, slots + [slot], picks) == Extras(ctx, slots, picks) + p.extras
      && TaxedAs(ctx, slots + [slot], picks)
         == if TaxedAs(ctx, slots, picks) != NO_ID then TaxedAs(ctx, slots, picks) else p.rateItem
  {
    hide PriceItem;
    if slots == [] {
      assert [slot][1..] == [] && [] + [slot] == [slot];
    } else if picks != [] {
      assert (slots + [slot])[1..] == slots[1..] + [slot];
      OneStepMore(ctx, slots[1..], slot, picks[1..]);
    }
  }

  lemma {:induction false} StepsAddUp(ctx: Context, slots: seq<Slot>, picks: seq<Selection>)
    ensures var s := StepsOf(ctx, slots, picks);
      && s.extras == Extras(ctx, slots, picks) && s.regular == Regular(ctx, slots, picks)
      && s.rateItem == TaxedAs(ctx, slots, picks)
  {
    hide PriceItem, Matches;
    if slots != [] {
      var init := slots[..|slots|-1];
      StepsAddUp(ctx, init, picks);
      OneStepMore(ctx, init, slots[|slots|-1], picks);
      assert slots == init + [slots[|slots|-1]];
    }
  }

  /** A bundle's line: its own price and the extras, and as saved what its picks would have cost beyond that. */
  lemma WhatABundleComesTo(ctx: Context, clock: Clock, orderType: OrderType, line: Line, d: Deal)
    requires line.dealId != NO_ID && FindBundle(ctx.deals, line.dealId) == Some(d) && d.active
    ensures var t, qty := PriceLine(ctx, clock, orderType, line), Max(1, Min(50, line.qty));
      var unit := d.priceCents + Extras(ctx, d.slots, line.picks);
      var item := TaxedAs(ctx, d.slots, line.picks);
      var own := if item in ctx.items then ctx.items[item].taxBps else 0;
      && t.lines == [QuoteLine(d.name, qty, unit, unit * qty, d.id)] && t.hasBundle && t.units == []
      && t.taxed == [Taxed(unit * qty, if own > 0 then own else ctx.settings.taxBps)]
      && t.saved == (if Regular(ctx, d.slots, line.picks) > unit
                     then (Regular(ctx, d.slots, line.picks) - unit) * qty else 0)
  {
    hide StepsOf, FindBundle, Live, Regular, Extras, TaxedAs;
    StepsAddUp(ctx, d.slots, line.picks);
    var qty := ClampQty(line.qty);
    assert qty == Max(1, Min(50, line.qty));
    hide ClampQty, Max, Min;
  }

  /** The bundle meant by an id is the last of the store's bundles with that id, and none only when there is no such bundle. */
  lemma {:induction false} WhichBundleIsMeant(deals: seq<Deal>, id: Id)
    ensures var r := FindBundle(deals, id);
      && (r.None? ==> forall d <- deals :: d.id != id || d.kind != Bundle)
      && (r.Some? ==> exists i :: 0 <= i < |deals| && r.value == deals[i] && deals[i].id == id && deals[i].kind == Bundle
                                  && forall j :: i < j < |deals| ==> deals[j].id != id || deals[j].kind != Bundle)
  {
    if deals != [] {
      var init, d := deals[..|deals|-1], deals[|deals|-1];
      WhichBundleIsMeant(init, id);
      assert deals == init + [d];
      if d.id != id || d.kind != Bundle {
        if FindBundle(init, id).Some? {
          var i :| 0 <= i < |init| && FindBundle(init, id).value == init[i] && init[i].id == id && init[i].kind == Bundle
                   && forall j :: i < j < |init| ==> init[j].id != id || init[j].kind != Bundle;
          assert deals[i] == init[i];
        }
      }
    }
  }

  /** A bundle that is gone or off is not charged for, and cannot be ordered. */
  lemma WhatAnEndedDealComesTo(ctx: Context, clock: Clock, orderType: OrderType, line: Line)
    requires line.dealId != NO_ID
    requires FindBundle(ctx.deals, line.dealId).Some? ==> !FindBundle(ctx.deals, line.dealId).value.active
    ensures var t := PriceLine(ctx, clock, orderType, line);
      t.issues == [DealEnded] && t.hasBundle && t.taxed == [] && t.units == [] && t.saved == 0
      && t.lines == [QuoteLine("Ended deal", Max(1, Min(50, line.qty)), 0, 0, line.dealId)]
  {
  }

  /** What was saved: every discount, and each bundle against the menu's prices. */
  lemma WhatWasSaved(ctx: Context, clock: Clock, cart: Cart)
    ensures var q := QuoteOf(ctx, clock, cart);
      q.savedCents == TallyOf(ctx, clock, cart).saved + Sum(Amounts(q.discounts))
  {
    hide TallyLines, FoodDiscounts, FoodTax, Sum;
  }

  /** Line by line: a cart's tally is its lines' tallies, one after the other. */
  lemma TheTallyIsLineByLine(ctx: Context, clock: Clock, orderType: OrderType, lines: seq<Line>, line: Line)
    ensures var before, t := TallyLines(ctx, clock, orderType, lines), PriceLine(ctx, clock, orderType, line);
      var after := TallyLines(ctx, clock, orderType, lines + [line]);
      && after.lines == before.lines + t.lines && after.units == before.units + t.units
      && after.taxed == before.taxed + t.taxed && after.issues == before.issues + t.issues
      && after.saved == before.saved + t.saved && (after.hasBundle <==> before.hasBundle || t.hasBundle)
  {
    hide PriceLine;
    assert (lines + [line])[..|lines|] == lines;
  }

  // --- why a cart cannot be ordered ------------------------------------------------------------------

  /** The issues a line can have. */
  predicate OfALine(i: Issue) {
    i in {UnknownItem, UnknownSize, UnknownOption, OptionRules, SoldOut, DealEnded, DealNotNow, DealSlot}
  }

  lemma {:induction false} PicksHaveLineIssues(g: BuildGroup, size: Id, c: Chosen, picks: seq<Pick>)
    requires forall i <- c.issues :: OfALine(i)
    ensures forall i <- TakePicks(g, size, c, picks).issues :: OfALine(i)
    decreases |picks|
  {
    if picks != [] { PicksHaveLineIssues(g, size, c, picks[..|picks|-1]); }
  }

  lemma {:induction false} GroupsHaveLineIssues(m: Menu, size: Id, picks: seq<Pick>, c: Chosen, gids: seq<Id>)
    requires forall i <- c.issues :: OfALine(i)
    ensures forall i <- TakeGroups(m, size, picks, c, gids).issues :: OfALine(i)
    decreases |gids|
  {
    hide TakePicks, PicksIn;
    if gids != [] {
      var init, gid := gids[..|gids|-1], gids[|gids|-1];
      GroupsHaveLineIssues(m, size, picks, c, init);
      var g := FindGroup(m.groups, gid);
      if g.Some? { PicksHaveLineIssues(g.value, size, TakeGroups(m, size, picks, c, init), PicksIn(picks, gid)); }
    }
  }

  lemma ItemsHaveLineIssues(m: Menu, sel: Selection, free: int)
    ensures forall i <- PriceItem(m, sel, free).issues :: OfALine(i)
  {
    hide ChargeBeyond, WithIncluded, TakeGroups, AllItems, StrayPick;
    match FindItem(AllItems(m.categories), sel.itemId)
    case None =>
    case Some(it) =>
      match OfferOf(it, sel.choiceId)
      case None =>
      case Some(offer) =>
        var start := Chosen([], [], if offer.soldOut then [SoldOut] else []);
        GroupsHaveLineIssues(m, PriceItem(m, sel, free).sizeId, sel.options, start, it.groupIds);
  }

  lemma {:induction false} StepsHaveLineIssues(ctx: Context, slots: seq<Slot>, picks: seq<Selection>)
    ensures forall i <- StepsOf(ctx, slots, picks).issues :: OfALine(i)
    decreases |slots|
  {
    hide PriceItem, Matches;
    if slots != [] {
      var k := |slots| - 1;
      StepsHaveLineIssues(ctx, slots[..k], picks);
      if k < |picks| { ItemsHaveLineIssues(ctx.menu, picks[k], slots[k].includedOptions); }
    }
  }

  lemma LineHasLineIssues(ctx: Context, clock: Clock, orderType: OrderType, line: Line)
    ensures forall i <- PriceLine(ctx, clock, orderType, line).issues :: OfALine(i)
  {
    hide PriceItem, StepsOf, FindBundle;
    if line.dealId == NO_ID {
      ItemsHaveLineIssues(ctx.menu, line.selection, 0);
    } else {
      var d := FindBundle(ctx.deals, line.dealId);
      if d.Some? { StepsHaveLineIssues(ctx, d.value.slots, line.picks); }
    }
  }

  lemma {:induction false} LinesHaveLineIssues(ctx: Context, clock: Clock, orderType: OrderType, lines: seq<Line>)
    ensures var t := TallyLines(ctx, clock, orderType, lines);
      && (forall i <- t.issues :: OfALine(i))
      && (t.hasBundle <==> exists l <- lines :: l.dealId != NO_ID)
    decreases |lines|
  {
    hide PriceItem, StepsOf, FindBundle;
    if lines != [] {
      var init, line := lines[..|lines|-1], lines[|lines|-1];
      LinesHaveLineIssues(ctx, clock, orderType, init);
      LineHasLineIssues(ctx, clock, orderType, line);
      assert lines == init + [line];
    }
  }

  /**
   * Why a cart cannot be ordered, apart from its lines: it is empty; its code was refused, or stands beside a bundle where
   * only one deal may; the store does not take its order type, or it has none; or its food is below the delivery minimum.
   */
  lemma WhyItCannotBeOrdered(ctx: Context, clock: Clock, cart: Cart, i: Issue)
    ensures var q, terms := QuoteOf(ctx, clock, cart), cart.terms;
      var t, ot := TallyOf(ctx, clock, cart), terms.orderType;
      var code := CodeOf(ctx, clock, terms, q.subtotalCents);
      i in q.errors <==>
        match i
        case Empty => cart.lines == []
        case CodeInvalid => code == Refused(CodeInvalid)
        case CodeMinimum => code == Refused(CodeMinimum)
        case CodeFirst => code == Refused(CodeFirst)
        case CodeAlone => ctx.settings.stacking == Single && code.Granted? && exists l <- cart.lines :: l.dealId != NO_ID
        case TypeOff => (ot == Pickup && !ctx.types.pickup) || (ot == Delivery && !ctx.types.delivery)
        case BadType => ot != Pickup && ot != Delivery
        case DeliveryMin => TooLittle(ctx, clock, terms, t)
        case _ => i in t.issues
  {
    hide TallyLines, FoodToPay, MoneyOf, OrderIssues, CodeOf, Sum, Totals;
    var t := TallyOf(ctx, clock, cart);
    LinesHaveLineIssues(ctx, clock, cart.terms.orderType, cart.lines);
    SubtotalOf(ctx, clock, cart);
    WhyAnOrderIsNot(ctx, clock, cart.terms, t, i);
    CodesRefuse(ctx, clock, cart.terms, Sum(Totals(t.lines)));
  }

  lemma InOneOf<T>(a: seq<T>, b: seq<T>, c: seq<T>, d: seq<T>, e: seq<T>, i: T)
    ensures i in a + b + c + d + e <==> i in a || i in b || i in c || i in d || i in e
  {
  }

  function When(b: bool, i: Issue): seq<Issue> {
    if b then [i] else []
  }

  function OfCode(code: CodeOutcome): seq<Issue> {
    if code.Refused? then [code.issue] else []
  }

  function OfType(ctx: Context, ot: OrderType): seq<Issue> {
    match ot
    case Pickup => When(!ctx.types.pickup, TypeOff)
    case Delivery => When(!ctx.types.delivery, TypeOff)
    case _ => [BadType]
  }

  predicate TooLittle(ctx: Context, clock: Clock, terms: Terms, t: Tally) {
    && terms.orderType == Delivery && ctx.types.delivery && t.lines != []
    && FoodToPay(ctx, clock, terms, t) < ctx.settings.deliveryMinCents
  }

  lemma TheIssuesInTurn(ctx: Context, clock: Clock, terms: Terms, t: Tally)
    ensures var code := CodeOf(ctx, clock, terms, Sum(Totals(t.lines)));
      OrderIssues(ctx, clock, terms, t)
      == When(t.lines == [], Empty) + OfCode(code)
         + When(ctx.settings.stacking == Single && t.hasBundle && code.Granted?, CodeAlone)
         + OfType(ctx, terms.orderType) + When(TooLittle(ctx, clock, terms, t), DeliveryMin)
  {
    hide FoodToPay, Sum, Totals, CodeOf;
  }

  lemma EachIssue(b: bool, x: Issue, i: Issue, ctx: Context, ot: OrderType)
    ensures i in When(b, x) <==> b && i == x
    ensures i in OfType(ctx, ot) <==>
      || (i == TypeOff && ((ot == Pickup && !ctx.types.pickup) || (ot == Delivery && !ctx.types.delivery)))
      || (i == BadType && ot != Pickup && ot != Delivery)
  {
  }

  lemma WhyAnOrderIsNot(ctx: Context, clock: Clock, terms: Terms, t: Tally, i: Issue)
    ensures var code, ot := CodeOf(ctx, clock, terms, Sum(Totals(t.lines))), terms.orderType;
      i in OrderIssues(ctx, clock, terms, t) <==>
        match i
        case Empty => t.lines == []
        case CodeAlone => ctx.settings.stacking == Single && code.Granted? && t.hasBundle
        case TypeOff => (ot == Pickup && !ctx.types.pickup) || (ot == Delivery && !ctx.types.delivery)
        case BadType => ot != Pickup && ot != Delivery
        case DeliveryMin => TooLittle(ctx, clock, terms, t)
        case _ => code == Refused(i)
  {
    hide OrderIssues, FoodToPay, Sum, Totals, TooLittle, When, OfType;
    var code, ot := CodeOf(ctx, clock, terms, Sum(Totals(t.lines))), terms.orderType;
    CodesRefuse(ctx, clock, terms, Sum(Totals(t.lines)));
    hide CodeOf;
    var alone, short := ctx.settings.stacking == Single && t.hasBundle && code.Granted?, TooLittle(ctx, clock, terms, t);
    TheIssuesInTurn(ctx, clock, terms, t);
    InOneOf(When(t.lines == [], Empty), OfCode(code), When(alone, CodeAlone), OfType(ctx, ot), When(short, DeliveryMin), i);
    EachIssue(t.lines == [], Empty, i, ctx, ot);
    EachIssue(alone, CodeAlone, i, ctx, ot);
    EachIssue(short, DeliveryMin, i, ctx, ot);
  }

  lemma SubtotalOf(ctx: Context, clock: Clock, cart: Cart)
    ensures QuoteOf(ctx, clock, cart).subtotalCents == Sum(Totals(TallyOf(ctx, clock, cart).lines))
  {
    hide TallyLines, FoodDiscounts, FoodTax, Sum;
  }

  lemma CodesRefuse(ctx: Context, clock: Clock, terms: Terms, sub: int)
    ensures var code := CodeOf(ctx, clock, terms, sub);
      code.Refused? ==> code.issue in {CodeInvalid, CodeMinimum, CodeFirst}
  {
  }

}
