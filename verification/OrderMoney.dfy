/** Two ways to one amount: the money an order is built with against the quote it was built from. */
module OrderMoney {
  import opened Options
  import opened Sequences
  import opened MenuBuild
  import opened PricingTypes
  import opened PricingItem
  import opened PricingCart
  import opened PricingMoney
  import opened PricingQuote
  import opened OrderPort
  import O = Orders

  /** What the built lines come to once the combos are set right. */
  function NetOf(b: Built): int {
    Sum(LineTotals(b.items)) - Sum(O.CutAmounts(b.comboOff)) + Sum(O.FeeAmounts(b.comboFee))
  }

  lemma LineTotalsAppend(a: seq<O.LineItem>, b: seq<O.LineItem>)
    ensures Sum(LineTotals(a + b)) == Sum(LineTotals(a)) + Sum(LineTotals(b))
  {
    assert LineTotals(a + b) == LineTotals(a) + LineTotals(b);
    SumAppend(LineTotals(a), LineTotals(b));
  }

  lemma CutsAppend(a: seq<O.PriceCut>, b: seq<O.PriceCut>)
    ensures Sum(O.CutAmounts(a + b)) == Sum(O.CutAmounts(a)) + Sum(O.CutAmounts(b))
  {
    assert O.CutAmounts(a + b) == O.CutAmounts(a) + O.CutAmounts(b);
    SumAppend(O.CutAmounts(a), O.CutAmounts(b));
  }

  lemma FeesAppend(a: seq<O.Fee>, b: seq<O.Fee>)
    ensures Sum(O.FeeAmounts(a + b)) == Sum(O.FeeAmounts(a)) + Sum(O.FeeAmounts(b))
  {
    assert O.FeeAmounts(a + b) == O.FeeAmounts(a) + O.FeeAmounts(b);
    SumAppend(O.FeeAmounts(a), O.FeeAmounts(b));
  }

  /** A combo adds exactly its quoted price, whatever its picks cost. */
  lemma ComboAddsItsPrice(b: Built, d: Deal, lines: seq<O.LineItem>, quoted: int)
    ensures NetOf(AddCombo(b, d, lines, quoted)) == NetOf(b) + quoted
  {
    hide Sum;
    var diff := Sum(LineTotals(lines)) - quoted;
    EmptySum();
    SingleSum(diff);
    SingleSum(-diff);
    var off := if diff > 0 then [O.PriceCut("deal", "", ComboTitle(d), diff)] else [];
    var fee := if diff < 0 then [O.Fee("other", ComboTitle(d), -diff)] else [];
    LineTotalsAppend(b.items, lines);
    CutsAppend(b.comboOff, off);
    FeesAppend(b.comboFee, fee);
    assert O.CutAmounts(off) == if diff > 0 then [diff] else [];
    assert O.FeeAmounts(fee) == if diff < 0 then [-diff] else [];
  }

  lemma ItemAddsItsPrice(b: Built, item: O.LineItem)
    ensures NetOf(b.(items := b.items + [item])) == NetOf(b) + item.lineTotal
  {
    LineTotalsAppend(b.items, [item]);
    assert LineTotals([item]) == [item.lineTotal];
    SingleSum(item.lineTotal);
  }

  /** Each line is built to what it was quoted at. */
  lemma AddLineAddsTheQuote(ctx: Context, names: map<Id, string>, clock: Clock, ot: OrderType, b: Built, line: Line,
                            notes: string)
    requires NonNegativeMenu(ctx.menu)
    ensures var quoted := PriceLine(ctx, clock, ot, line).lines[0].totalCents;
      var next := AddLine(ctx, names, b, line, notes, quoted);
      next.Some? ==> NetOf(next.value) == NetOf(b) + quoted
  {
    hide LineOf, PriceItem, ComboLines, NetOf;
    var qty := ClampQty(line.qty);
    var quoted := PriceLine(ctx, clock, ot, line).lines[0].totalCents;
    if line.dealId == NO_ID {
      LineCostsWhatWasQuoted(names, ctx.menu, line.selection, 0, qty, notes, |b.items|);
      ItemAddsItsPrice(b, LineOf(names, PriceItem(ctx.menu, line.selection, 0), qty, notes, |b.items|));
    } else {
      match FindDeal(ctx.deals, line.dealId)
      case None =>
      case Some(d) =>
        ComboAddsItsPrice(b, d, ComboLines(ctx.menu, names, d.slots, line.picks, qty, ComboTitle(d), |b.items|), quoted);
    }
  }

  lemma TallyLast(ctx: Context, clock: Clock, ot: OrderType, lines: seq<Line>)
    requires lines != []
    ensures var n := |lines| - 1; var all := TallyLines(ctx, clock, ot, lines).lines;
      all == TallyLines(ctx, clock, ot, lines[..n]).lines + PriceLine(ctx, clock, ot, lines[n]).lines
  {
  }

  /** Line by line, the order's lines with the combos set right come to the quote's subtotal. */
  lemma {:induction false} LinesComeToTheSubtotal(ctx: Context, names: map<Id, string>, clock: Clock, ot: OrderType,
                                                  lines: seq<Line>, notes: seq<string>)
    requires NonNegativeMenu(ctx.menu) && |notes| == |lines|
    ensures var quote := TallyLines(ctx, clock, ot, lines).lines;
      var built := BuildLines(ctx, names, lines, notes, quote);
      built.Some? ==> NetOf(built.value) == Sum(Totals(quote))
  {
    hide AddLine, PriceLine, NetOf, NonNegativeMenu, Sum, TallyLines;
    var quote := TallyLines(ctx, clock, ot, lines).lines;
    if lines == [] {
      NothingBuilt(ctx, clock, ot);
    } else {
      var n := |lines| - 1;
      LinesComeToTheSubtotal(ctx, names, clock, ot, lines[..n], notes[..n]);
      TallyLast(ctx, clock, ot, lines);
      var last := PriceLine(ctx, clock, ot, lines[n]).lines[0];
      assert quote[..n] == TallyLines(ctx, clock, ot, lines[..n]).lines && quote[n] == last;
      assert Totals(quote) == Totals(quote[..n]) + [last.totalCents];
      SumWithLast(Totals(quote[..n]), last.totalCents);
      match BuildLines(ctx, names, lines[..n], notes[..n], quote[..n])
      case None =>
      case Some(b) => AddLineAddsTheQuote(ctx, names, clock, ot, b, lines[n], notes[n]);
    }
  }

  lemma NothingBuilt(ctx: Context, clock: Clock, ot: OrderType)
    ensures NetOf(Built([], [], [])) == Sum(Totals(TallyLines(ctx, clock, ot, []).lines)) == 0
  {
  }

  // --- the breakdown --------------------------------------------------------------------------

  lemma CutsCarryTheDiscounts(ds: seq<Discount>)
    ensures O.CutAmounts(CutsOf(ds)) == Amounts(ds)
  {
  }

  lemma FeesCarryTheFees(q: Quote)
    ensures Sum(O.FeeAmounts(QuoteFees(q))) == Max(0, q.deliveryFeeCents) + Max(0, q.serviceFeeCents) + Max(0, q.cardFeeCents)
  {
    var a := if q.deliveryFeeCents > 0 then [O.Fee("delivery", "Delivery fee", q.deliveryFeeCents)] else [];
    var b := if q.serviceFeeCents > 0 then [O.Fee("service", "Online fee", q.serviceFeeCents)] else [];
    var c := if q.cardFeeCents > 0 then [O.Fee("card", "Card fee", q.cardFeeCents)] else [];
    OneFee(a, q.deliveryFeeCents);
    OneFee(b, q.serviceFeeCents);
    OneFee(c, q.cardFeeCents);
    FeesAppend(a, b);
    FeesAppend(a + b, c);
  }

  lemma OneFee(fees: seq<O.Fee>, amount: int)
    requires (fees == [] && amount <= 0) || (|fees| == 1 && fees[0].amount == amount > 0)
    ensures Sum(O.FeeAmounts(fees)) == Max(0, amount)
  {
    assert O.FeeAmounts(fees) == if fees == [] then [] else [amount];
  }

  /** How far an order's total is from what its breakdown comes to. */
  function Difference(m: O.MoneyBreakdown): int {
    m.total - O.Expected(m)
  }

  lemma ExpectedOfBuilt(b: Built, q: Quote)
    ensures O.Expected(MoneyOfBuilt(b, q))
         == NetOf(b) + q.taxCents + q.tipCents - Sum(Amounts(q.discounts))
            + Max(0, q.deliveryFeeCents) + Max(0, q.serviceFeeCents) + Max(0, q.cardFeeCents)
  {
    hide Sum, QuoteFees;
    CutsAppend(b.comboOff, CutsOf(q.discounts));
    CutsCarryTheDiscounts(q.discounts);
    FeesAppend(b.comboFee, QuoteFees(q));
    FeesCarryTheFees(q);
  }

  /**
   * The breakdown an order is built with misses its quoted total by a negative card fee and by nothing else: with a card
   * fee of nothing or more the two agree to the cent, and the order is refused for its money exactly when the card fee is
   * below minus one cent.
   */
  lemma BreakdownMeetsTheQuote(ctx: Context, clock: Clock, cart: Cart, names: map<Id, string>, notes: seq<string>)
    requires ValidContext(ctx) && |notes| == |cart.lines|
    ensures var q := QuoteOf(ctx, clock, cart);
      |q.lines| == |cart.lines|
      && var built := BuildLines(ctx, names, cart.lines, notes, q.lines);
      built.Some? ==>
        var m := MoneyOfBuilt(built.value, q);
        && Difference(m) == Min(0, q.cardFeeCents)
        && (Difference(m) == 0 <==> q.cardFeeCents >= 0)
        && (O.Reconciles(m) <==> q.cardFeeCents >= -1)
  {
    hide QuoteOf, TallyLines, BuildLines, MoneyOfBuilt, O.Expected, Sum, Amounts, Totals, NetOf;
    var q := QuoteOf(ctx, clock, cart);
    QuoteConservesMoney(ctx, clock, cart);
    LinesComeToTheSubtotal(ctx, names, clock, cart.terms.orderType, cart.lines, notes);
    var built := BuildLines(ctx, names, cart.lines, notes, q.lines);
    if built.Some? {
      ExpectedOfBuilt(built.value, q);
      TotalCarriesOver(built.value, q);
    }
  }

  lemma TotalCarriesOver(b: Built, q: Quote)
    ensures MoneyOfBuilt(b, q).total == q.totalCents
  {
  }

  /** An order's money may be out by a cent, either way, and no more. */
  lemma MoneyMayBeACentOut(m: O.MoneyBreakdown)
    ensures O.Reconciles(m) <==> Difference(m) == 0 || Difference(m) == 1 || Difference(m) == -1
    ensures O.Expected(m) + Sum(O.CutAmounts(m.discounts)) == m.subtotal + m.tax + m.tip + Sum(O.FeeAmounts(m.fees))
  {
  }

  // --- an orderable cart makes an order --------------------------------------------------------

  /** Deals are kept under distinct ids. */
  ghost predicate DistinctDeals(deals: seq<Deal>) {
    forall i, j :: 0 <= i < j < |deals| ==> deals[i].id != deals[j].id
  }

  lemma {:induction false} BundleIsTheDeal(deals: seq<Deal>, id: Id)
    requires DistinctDeals(deals) && FindBundle(deals, id).Some?
    ensures FindDeal(deals, id) == FindBundle(deals, id)
  {
    var last := deals[|deals|-1];
    if last.id != id {
      BundleIsTheDeal(deals[..|deals|-1], id);
    } else {
      assert last.kind == Bundle by { OnlyOneWithItsId(deals, id); }
    }
  }

  lemma OnlyOneWithItsId(deals: seq<Deal>, id: Id)
    requires DistinctDeals(deals) && FindBundle(deals, id).Some? && deals[|deals|-1].id == id
    ensures deals[|deals|-1].kind == Bundle
  {
    var d := FindBundle(deals, id).value;
    var i :| 0 <= i < |deals| && deals[i] == d;
    assert i == |deals| - 1;
  }

  /** A line priced without issues: an item, or a live bundle with a fitting pick for every step. */
  lemma {:induction false} StepsWithoutIssues(ctx: Context, slots: seq<Slot>, picks: seq<Selection>)
    requires StepsOf(ctx, slots, picks).issues == []
    ensures |slots| <= |picks|
    ensures forall k :: 0 <= k < |slots| ==> PriceItem(ctx.menu, picks[k], slots[k].includedOptions).issues == []
  {
    hide PriceItem, Matches;
    if slots != [] {
      StepsWithoutIssues(ctx, slots[..|slots|-1], picks);
    }
  }

  lemma CleanLineBuilds(ctx: Context, names: map<Id, string>, clock: Clock, ot: OrderType, b: Built, line: Line,
                        notes: string, quoted: int)
    requires DistinctDeals(ctx.deals) && forall d :: d in ctx.deals ==> ValidDeal(d)
    requires PriceLine(ctx, clock, ot, line).issues == []
    ensures var next := AddLine(ctx, names, b, line, notes, quoted); next.Some? && |next.value.items| > |b.items|
  {
    hide LineOf, PriceItem, ComboLines, DistinctDeals, StepsOf, FindDeal, FindBundle;
    if line.dealId != NO_ID {
      var d := FindBundle(ctx.deals, line.dealId).value;
      BundleIsTheDeal(ctx.deals, line.dealId);
      StepsWithoutIssues(ctx, d.slots, line.picks);
    }
  }

  lemma {:induction false} CleanCartBuilds(ctx: Context, names: map<Id, string>, clock: Clock, ot: OrderType,
                                           lines: seq<Line>, notes: seq<string>)
    requires DistinctDeals(ctx.deals) && |notes| == |lines| && forall d :: d in ctx.deals ==> ValidDeal(d)
    requires TallyLines(ctx, clock, ot, lines).issues == []
    ensures var built := BuildLines(ctx, names, lines, notes, TallyLines(ctx, clock, ot, lines).lines);
      built.Some? && (lines != [] ==> built.value.items != [])
  {
    hide AddLine, PriceLine, DistinctDeals, ValidDeal;
    if lines != [] {
      var n := |lines| - 1;
      var quote := TallyLines(ctx, clock, ot, lines).lines;
      CleanCartBuilds(ctx, names, clock, ot, lines[..n], notes[..n]);
      TallyLast(ctx, clock, ot, lines);
      assert quote[..n] == TallyLines(ctx, clock, ot, lines[..n]).lines;
      var b := BuildLines(ctx, names, lines[..n], notes[..n], quote[..n]).value;
      CleanLineBuilds(ctx, names, clock, ot, b, lines[n], notes[n], quote[n].totalCents);
    }
  }

  predicate Addressed(e: Envelope) {
    e.tenant != NO_ID && e.location != NO_ID && e.source != "" && e.sourceEventId != "" && e.placedAt.Some?
  }

  /** A cart that prices without issues becomes an order, unless its card fee is below minus one cent. */
  lemma OrderableCartBecomesAnOrder(ctx: Context, clock: Clock, cart: Cart, names: map<Id, string>, notes: seq<string>,
                                    e: Envelope)
    requires ValidContext(ctx) && DistinctDeals(ctx.deals) && |notes| == |cart.lines| && Addressed(e)
    requires QuoteOf(ctx, clock, cart).errors == []
    ensures var q := QuoteOf(ctx, clock, cart);
      |q.lines| == |cart.lines|
      && var built := BuildLines(ctx, names, cart.lines, notes, q.lines);
      && built.Some?
      && O.Refusal(InputOf(e, built.value, q)) == if q.cardFeeCents >= -1 then None else Some(O.TotalMismatch)
  {
    hide BuildLines, MoneyOfBuilt, O.Reconciles, MoneyOf, TallyLines, DistinctDeals, Difference;
    var q := QuoteOf(ctx, clock, cart);
    NoErrorsMeansCleanLines(ctx, clock, cart);
    CleanCartBuilds(ctx, names, clock, cart.terms.orderType, cart.lines, notes);
    BreakdownMeetsTheQuote(ctx, clock, cart, names, notes);
  }

  /** An issue-free cart of at most sixteen tax rates, none above 100%, always becomes an order. */
  lemma SixteenOrdinaryRatesBecomeAnOrder(ctx: Context, clock: Clock, cart: Cart, names: map<Id, string>,
                                          notes: seq<string>, e: Envelope)
    requires ValidContext(ctx) && DistinctDeals(ctx.deals) && |notes| == |cart.lines| && Addressed(e)
    requires QuoteOf(ctx, clock, cart).errors == []
    requires var rates := RatesOf(TallyOf(ctx, clock, cart).taxed);
      |rates| <= 16 && forall r :: r in rates ==> r <= 10000
    ensures var q := QuoteOf(ctx, clock, cart);
      |q.lines| == |cart.lines|
      && var built := BuildLines(ctx, names, cart.lines, notes, q.lines);
      && built.Some? && O.Refusal(InputOf(e, built.value, q)) == None
  {
    hide QuoteOf, BuildLines, InputOf, O.Refusal, RatesOf, NonNegativeMenu, DistinctDeals;
    LowRatesKeepTheCardFeeUp(ctx, clock, cart, 10000);
    OrderableCartBecomesAnOrder(ctx, clock, cart, names, notes, e);
  }

  lemma NoErrorsMeansCleanLines(ctx: Context, clock: Clock, cart: Cart)
    requires QuoteOf(ctx, clock, cart).errors == []
    ensures TallyOf(ctx, clock, cart).issues == [] && cart.lines != []
  {
    hide TallyLines, MoneyOf, CodeOf, FoodToPay;
  }

  // --- what a combo is off ---------------------------------------------------------------------

  function BasesOf(m: Menu, slots: seq<Slot>, picks: seq<Selection>): int
    requires |slots| <= |picks|
  {
    if slots == [] then 0
    else
      var k := |slots| - 1;
      BasesOf(m, slots[..k], picks) + PriceItem(m, picks[k], slots[k].includedOptions).base
  }

  lemma {:induction false} ComboLinesCost(ctx: Context, names: map<Id, string>, slots: seq<Slot>, picks: seq<Selection>,
                                          qty: nat, title: string, pos: nat)
    requires NonNegativeMenu(ctx.menu) && |slots| <= |picks|
    ensures Sum(LineTotals(ComboLines(ctx.menu, names, slots, picks, qty, title, pos)))
         == (BasesOf(ctx.menu, slots, picks) + StepsOf(ctx, slots, picks).extras) * qty
  {
    hide PriceItem, LineOf, NonNegativeMenu, Sum, Matches;
    if slots == [] {
      NoLinesCost();
    } else {
      var k := |slots| - 1;
      var before := ComboLines(ctx.menu, names, slots[..k], picks, qty, title, pos);
      ComboLinesCost(ctx, names, slots[..k], picks, qty, title, pos);
      var p := PriceItem(ctx.menu, picks[k], slots[k].includedOptions);
      var item := LineOf(names, p, qty, title, pos + k);
      PickCosts(ctx.menu, names, picks[k], slots[k].includedOptions, qty, title, pos + k);
      assert LineTotals(before + [item]) == LineTotals(before) + [item.lineTotal];
      SumWithLast(LineTotals(before), item.lineTotal);
      Distribute(qty, BasesOf(ctx.menu, slots[..k], picks) + StepsOf(ctx, slots[..k], picks).extras, p.base + p.extras);
    }
  }

  lemma NoLinesCost()
    ensures Sum(LineTotals([])) == 0
  {
  }

  lemma PickCosts(m: Menu, names: map<Id, string>, sel: Selection, free: int, qty: nat, title: string, pos: nat)
    requires NonNegativeMenu(m)
    ensures var p := PriceItem(m, sel, free); LineOf(names, p, qty, title, pos).lineTotal == (p.base + p.extras) * qty
  {
    hide PriceItem, LineOf;
    LineCostsWhatWasQuoted(names, m, sel, free, qty, title, pos);
    UnitIsBasePlusCharges(m, sel, free);
  }

  /** A combo's discount is what its picks' own prices (options aside) come to beyond the combo's price, per unit ordered. */
  lemma ComboIsOffTheBasePrices(ctx: Context, names: map<Id, string>, clock: Clock, ot: OrderType, line: Line, d: Deal,
                                pos: nat)
    requires NonNegativeMenu(ctx.menu) && DistinctDeals(ctx.deals)
    requires line.dealId != NO_ID && FindBundle(ctx.deals, line.dealId) == Some(d)
    requires PriceLine(ctx, clock, ot, line).issues == []
    ensures var qty := ClampQty(line.qty);
      var lines := ComboLines(ctx.menu, names, d.slots, line.picks, qty, ComboTitle(d), pos);
      && FindDeal(ctx.deals, line.dealId) == Some(d) && |d.slots| <= |line.picks|
      && Sum(LineTotals(lines)) - PriceLine(ctx, clock, ot, line).lines[0].totalCents
         == (BasesOf(ctx.menu, d.slots, line.picks) - d.priceCents) * qty
  {
    hide PriceItem, ComboLines, StepsOf, FindBundle, FindDeal, DistinctDeals, NonNegativeMenu, Sum;
    var qty := ClampQty(line.qty);
    BundleIsTheDeal(ctx.deals, line.dealId);
    StepsWithoutIssues(ctx, d.slots, line.picks);
    ComboLinesCost(ctx, names, d.slots, line.picks, qty, ComboTitle(d), pos);
    var bases, extras := BasesOf(ctx.menu, d.slots, line.picks), StepsOf(ctx, d.slots, line.picks).extras;
    Distribute(qty, bases + extras, -(d.priceCents + extras));
  }
}
