/** The order port: rebuilds a priced cart as an order's lines and money, along its own path. */
module OrderPort {
  import opened Options
  import opened Sequences
  import opened MenuBuild
  import opened PricingTypes
  import opened PricingItem
  import opened PricingCart
  import opened PricingMoney
  import PricingEngine
  import O = Orders

  // --- one line ------------------------------------------------------------------------

  function ChildName(o: ResolvedOption): string {
    if o.removedDefault then "NO " + o.name
    else match o.portion
      case Whole => o.name
      case Left => o.name + " (left half)"
      case Right => o.name + " (right half)"
  }

  /** An option under its item: included ones and defaults left off cost nothing. */
  function ChildOf(o: ResolvedOption, position: nat, qty: nat): O.LineItem {
    var n := if o.removedDefault then 1 else qty;
    O.LineItem(position, ChildName(o), "", n, Charge(o), Charge(o) * n, "", [], NO_ID)
  }

  function ChildrenOf(options: seq<ResolvedOption>, qty: nat): seq<O.LineItem> {
    seq(|options|, i requires 0 <= i < |options| => ChildOf(options[i], i, qty))
  }

  function LineTotals(items: seq<O.LineItem>): seq<int> {
    seq(|items|, i requires 0 <= i < |items| => items[i].lineTotal)
  }

  /** One order line from a priced item, under the name the bank knows it by. */
  function LineOf(names: map<Id, string>, p: Priced, qty: nat, notes: string, position: nat): O.LineItem {
    var children := ChildrenOf(p.options, qty);
    O.LineItem(position, if p.bankItem != NO_ID && p.bankItem in names then names[p.bankItem] else p.name, p.sizeName,
               qty, p.base, p.base * qty + Sum(LineTotals(children)), notes, children,
               if p.bankItem != NO_ID then p.bankItem else p.rateItem)
  }

  lemma {:induction false} ChildrenCost(options: seq<ResolvedOption>, qty: nat)
    ensures Sum(LineTotals(ChildrenOf(options, qty))) == Sum(Charges(options)) * qty
  {
    hide Sum;
    if options == [] {
      NothingCosts(qty);
    } else {
      var init, last := options[..|options|-1], options[|options|-1];
      ChildrenCost(init, qty);
      assert ChildrenOf(options, qty) == ChildrenOf(init, qty) + [ChildOf(last, |init|, qty)];
      assert LineTotals(ChildrenOf(options, qty)) == LineTotals(ChildrenOf(init, qty)) + [Charge(last) * qty];
      SumWithLast(LineTotals(ChildrenOf(init, qty)), Charge(last) * qty);
      assert Charges(options) == Charges(init) + [Charge(last)];
      SumWithLast(Charges(init), Charge(last));
      Distribute(qty, Sum(Charges(init)), Charge(last));
    }
  }

  lemma NothingCosts(qty: nat)
    ensures Sum(LineTotals(ChildrenOf([], qty))) == Sum(Charges([])) * qty
  {
  }

  /** The line built from an item costs what the engine charged for it. */
  lemma LineCostsWhatWasQuoted(names: map<Id, string>, m: Menu, sel: Selection, free: int, qty: nat, notes: string, pos: nat)
    requires forall g :: g in m.groups ==> NonNegativeGroup(g)
    ensures var p := PriceItem(m, sel, free); LineOf(names, p, qty, notes, pos).lineTotal == p.unit * qty
  {
    hide PriceItem;
    var p := PriceItem(m, sel, free);
    UnitIsBasePlusCharges(m, sel, free);
    ChildrenCost(p.options, qty);
    Distribute(qty, p.base, p.extras);
  }

  // --- all lines -----------------------------------------------------------------------

  /** What building has gathered: the lines, and what each combo is off (or over) its picks' own prices. */
  datatype Built = Built(items: seq<O.LineItem>, comboOff: seq<O.PriceCut>, comboFee: seq<O.Fee>)

  /** The last deal with an id, of any kind. */
  function FindDeal(deals: seq<Deal>, id: Id): (r: Option<Deal>)
    ensures r.Some? ==> r.value in deals && r.value.id == id
  {
    if deals == [] then None
    else if deals[|deals|-1].id == id then Some(deals[|deals|-1])
    else FindDeal(deals[..|deals|-1], id)
  }

  function ComboTitle(d: Deal): string {
    "Combo: " + d.name
  }

  /** The picks of a combo as lines, one per step that has a pick. */
  function ComboLines(m: Menu, names: map<Id, string>, slots: seq<Slot>, picks: seq<Selection>, qty: nat, title: string,
                      position: nat): (r: seq<O.LineItem>)
    ensures |r| == Min(|slots|, |picks|)
  {
    if slots == [] then []
    else
      var k := |slots| - 1;
      var before := ComboLines(m, names, slots[..k], picks, qty, title, position);
      if k >= |picks| then before
      else before + [LineOf(names, PriceItem(m, picks[k], slots[k].includedOptions), qty, title, position + k)]
  }

  /** A combo's lines, and the difference between them and its price. */
  function AddCombo(b: Built, d: Deal, lines: seq<O.LineItem>, quoted: int): Built {
    var diff := Sum(LineTotals(lines)) - quoted;
    Built(b.items + lines,
          b.comboOff + (if diff > 0 then [O.PriceCut("deal", "", ComboTitle(d), diff)] else []),
          b.comboFee + (if diff < 0 then [O.Fee("other", ComboTitle(d), -diff)] else []))
  }

  function AddLine(ctx: Context, names: map<Id, string>, b: Built, line: Line, notes: string, quoted: int): Option<Built> {
    var qty := ClampQty(line.qty);
    if line.dealId == NO_ID then
      var item := LineOf(names, PriceItem(ctx.menu, line.selection, 0), qty, notes, |b.items|);
      Some(b.(items := b.items + [item]))
    else
      match FindDeal(ctx.deals, line.dealId)
      case None => None
      case Some(d) =>
        var lines := ComboLines(ctx.menu, names, d.slots, line.picks, qty, ComboTitle(d), |b.items|);
        Some(AddCombo(b, d, lines, quoted))
  }

  /** A request: the cart's lines, each with its note. */
  function BuildLines(ctx: Context, names: map<Id, string>, lines: seq<Line>, notes: seq<string>, quote: seq<QuoteLine>):
    Option<Built>
    requires |lines| == |notes| == |quote|
  {
    if lines == [] then Some(Built([], [], []))
    else
      var n := |lines| - 1;
      match BuildLines(ctx, names, lines[..n], notes[..n], quote[..n])
      case None => None
      case Some(b) => AddLine(ctx, names, b, lines[n], notes[n], quote[n].totalCents)
  }

  // --- the money -----------------------------------------------------------------------

  /** A quote's discount as the order carries it. */
  function CutOf(d: Discount): O.PriceCut {
    match d.kind
    case CodeDiscount => O.PriceCut("promo", d.title, "Code " + d.title, d.amountCents)
    case DealDiscount => O.PriceCut("deal", "", d.title, d.amountCents)
    case CashDiscountKind => O.PriceCut("cash", "", d.title, d.amountCents)
  }

  function CutsOf(ds: seq<Discount>): seq<O.PriceCut> {
    seq(|ds|, i requires 0 <= i < |ds| => CutOf(ds[i]))
  }

  /** Only fees above nothing are carried over. */
  function QuoteFees(q: Quote): seq<O.Fee> {
    (if q.deliveryFeeCents > 0 then [O.Fee("delivery", "Delivery fee", q.deliveryFeeCents)] else [])
    + (if q.serviceFeeCents > 0 then [O.Fee("service", "Online fee", q.serviceFeeCents)] else [])
    + (if q.cardFeeCents > 0 then [O.Fee("card", "Card fee", q.cardFeeCents)] else [])
  }

  function MoneyOfBuilt(b: Built, q: Quote): O.MoneyBreakdown {
    O.MoneyBreakdown(Sum(LineTotals(b.items)), q.taxCents, q.tipCents, b.comboFee + QuoteFees(q),
                     b.comboOff + CutsOf(q.discounts), q.totalCents)
  }

  /** What a channel sends besides the cart, as an order carries it. */
  datatype Envelope = Envelope(tenant: Id, location: Id, source: string, sourceEventId: string, placedAt: Option<O.Time>)

  function InputOf(e: Envelope, b: Built, q: Quote): O.NewOrderInput {
    O.NewOrderInput(e.tenant, e.location, e.source, e.sourceEventId, b.items, MoneyOfBuilt(b, q), "USD", e.placedAt)
  }

  datatype Refused = DealEndedMeanwhile | NotAnOrder(error: O.OrderError)

  // --- what an order carries of its quote ---------------------------------------------------

  /** What the fees of a kind come to. */
  function FeesOf(fees: seq<O.Fee>, kind: string): int {
    if fees == [] then 0 else (if fees[0].kind == kind then fees[0].amount else 0) + FeesOf(fees[1..], kind)
  }

  function CutsOfKind(cuts: seq<O.PriceCut>, kind: string): int {
    if cuts == [] then 0 else (if cuts[0].kind == kind then cuts[0].amount else 0) + CutsOfKind(cuts[1..], kind)
  }

  function DiscountsOf(ds: seq<Discount>, kind: DiscountKind): int {
    if ds == [] then 0 else (if ds[0].kind == kind then ds[0].amountCents else 0) + DiscountsOf(ds[1..], kind)
  }

  /**
   * An order's money is the quote's, part by part: tax, tip and total; each fee above nothing under its own kind; the
   * discounts by kind, with the combos among the deals; and what a combo costs beyond its picks as another fee.
   */
  ghost predicate Carries(m: O.MoneyBreakdown, b: Built, q: Quote) {
    && m.tax == q.taxCents && m.tip == q.tipCents && m.total == q.totalCents
    && m.subtotal == Sum(LineTotals(b.items))
    && FeesOf(m.fees, "delivery") == Max(0, q.deliveryFeeCents)
    && FeesOf(m.fees, "service") == Max(0, q.serviceFeeCents)
    && FeesOf(m.fees, "card") == Max(0, q.cardFeeCents)
    && FeesOf(m.fees, "other") == Sum(O.FeeAmounts(b.comboFee))
    && CutsOfKind(m.discounts, "promo") == DiscountsOf(q.discounts, CodeDiscount)
    && CutsOfKind(m.discounts, "cash") == DiscountsOf(q.discounts, CashDiscountKind)
    && CutsOfKind(m.discounts, "deal") == DiscountsOf(q.discounts, DealDiscount) + Sum(O.CutAmounts(b.comboOff))
  }

  /** What a combo's lines cost beyond its price is a discount under its name, what they fall short of it a fee. */
  lemma HowAComboIsCarried(b: Built, d: Deal, lines: seq<O.LineItem>, quoted: int)
    ensures var next, cost := AddCombo(b, d, lines, quoted), Sum(LineTotals(lines));
      && next.items == b.items + lines && b.comboOff <= next.comboOff && b.comboFee <= next.comboFee
      && next.comboOff[|b.comboOff|..] == (if cost > quoted then [O.PriceCut("deal", "", "Combo: " + d.name, cost - quoted)] else [])
      && next.comboFee[|b.comboFee|..] == (if cost < quoted then [O.Fee("other", "Combo: " + d.name, quoted - cost)] else [])
  {
    hide Sum;
  }

  /** A code is carried as a promotion under its own name, anything else under its label alone. */
  lemma HowADiscountIsCarried(d: Discount)
    ensures CutOf(d).amount == d.amountCents && CutOf(d).kind == KindOf(d.kind)
    ensures d.kind == CodeDiscount ==> CutOf(d).code == d.title && CutOf(d).title == "Code " + d.title
    ensures d.kind != CodeDiscount ==> CutOf(d).code == "" && CutOf(d).title == d.title
  {
  }

  /** What building gathers of combos is marked as such, and above nothing. */
  ghost predicate OfCombos(b: Built) {
    && (forall f <- b.comboFee :: f.kind == "other" && f.amount > 0)
    && forall c <- b.comboOff :: c.kind == "deal" && c.amount > 0
  }

  lemma {:induction false} BuiltOfCombos(ctx: Context, names: map<Id, string>, lines: seq<Line>, notes: seq<string>,
                                         quote: seq<QuoteLine>)
    requires |lines| == |notes| == |quote|
    ensures var b := BuildLines(ctx, names, lines, notes, quote); b.Some? ==> OfCombos(b.value)
  {
    hide LineOf, PriceItem, ComboLines, FindDeal, Sum;
    if lines != [] {
      var n := |lines| - 1;
      BuiltOfCombos(ctx, names, lines[..n], notes[..n], quote[..n]);
    }
  }

  lemma {:induction false} FeesOfAppend(a: seq<O.Fee>, b: seq<O.Fee>, kind: string)
    ensures FeesOf(a + b, kind) == FeesOf(a, kind) + FeesOf(b, kind)
  {
    if a == [] {
      assert a + b == b;
    } else {
      assert (a + b)[1..] == a[1..] + b;
      FeesOfAppend(a[1..], b, kind);
    }
  }

  lemma {:induction false} CutsOfKindAppend(a: seq<O.PriceCut>, b: seq<O.PriceCut>, kind: string)
    ensures CutsOfKind(a + b, kind) == CutsOfKind(a, kind) + CutsOfKind(b, kind)
  {
    if a == [] {
      assert a + b == b;
    } else {
      assert (a + b)[1..] == a[1..] + b;
      CutsOfKindAppend(a[1..], b, kind);
    }
  }

  lemma {:induction false} FeesOfOneKind(fees: seq<O.Fee>, own: string, kind: string)
    requires forall f <- fees :: f.kind == own
    ensures FeesOf(fees, kind) == if kind == own then Sum(O.FeeAmounts(fees)) else 0
  {
    if fees == [] {
      assert O.FeeAmounts(fees) == [];
    } else {
      FeesOfOneKind(fees[1..], own, kind);
      assert O.FeeAmounts(fees)[1..] == O.FeeAmounts(fees[1..]);
    }
  }

  lemma {:induction false} CutsOfOneKind(cuts: seq<O.PriceCut>, own: string, kind: string)
    requires forall c <- cuts :: c.kind == own
    ensures CutsOfKind(cuts, kind) == if kind == own then Sum(O.CutAmounts(cuts)) else 0
  {
    if cuts == [] {
      assert O.CutAmounts(cuts) == [];
    } else {
      CutsOfOneKind(cuts[1..], own, kind);
      assert O.CutAmounts(cuts)[1..] == O.CutAmounts(cuts[1..]);
    }
  }

  lemma OneFeeOf(own: string, title: string, amount: int, kind: string)
    ensures FeesOf(if amount > 0 then [O.Fee(own, title, amount)] else [], kind)
         == if kind == own then Max(0, amount) else 0
  {
    if amount > 0 { assert [O.Fee(own, title, amount)][1..] == []; }
  }

  lemma QuoteFeesOf(q: Quote, kind: string)
    ensures FeesOf(QuoteFees(q), kind)
         == (if kind == "delivery" then Max(0, q.deliveryFeeCents) else 0)
            + (if kind == "service" then Max(0, q.serviceFeeCents) else 0)
            + if kind == "card" then Max(0, q.cardFeeCents) else 0
  {
    hide FeesOf, Max;
    var a := if q.deliveryFeeCents > 0 then [O.Fee("delivery", "Delivery fee", q.deliveryFeeCents)] else [];
    var b := if q.serviceFeeCents > 0 then [O.Fee("service", "Online fee", q.serviceFeeCents)] else [];
    var c := if q.cardFeeCents > 0 then [O.Fee("card", "Card fee", q.cardFeeCents)] else [];
    OneFeeOf("delivery", "Delivery fee", q.deliveryFeeCents, kind);
    OneFeeOf("service", "Online fee", q.serviceFeeCents, kind);
    OneFeeOf("card", "Card fee", q.cardFeeCents, kind);
    FeesOfAppend(a, b, kind);
    FeesOfAppend(a + b, c, kind);
  }

  /** The kind an order carries a discount under. */
  function KindOf(kind: DiscountKind): string {
    match kind
    case DealDiscount => "deal"
    case CodeDiscount => "promo"
    case CashDiscountKind => "cash"
  }

  lemma {:induction false} CutsOfDiscounts(ds: seq<Discount>, kind: DiscountKind)
    ensures CutsOfKind(CutsOf(ds), KindOf(kind)) == DiscountsOf(ds, kind)
  {
    if ds != [] {
      CutsOfDiscounts(ds[1..], kind);
      assert CutsOf(ds)[1..] == CutsOf(ds[1..]);
      DistinctKinds(ds[0].kind, kind);
    }
  }

  lemma DistinctKinds(a: DiscountKind, b: DiscountKind)
    ensures KindOf(a) == KindOf(b) <==> a == b
  {
    assert KindOf(DealDiscount)[0] == 'd' && KindOf(CodeDiscount)[0] == 'p' && KindOf(CashDiscountKind)[0] == 'c';
  }

  lemma TheMoneyCarriesTheQuote(b: Built, q: Quote)
    requires OfCombos(b)
    ensures Carries(MoneyOfBuilt(b, q), b, q)
  {
    hide FeesOf, CutsOfKind, DiscountsOf, Sum, QuoteFees, CutsOf, O.FeeAmounts, O.CutAmounts, LineTotals;
    forall kind: string ensures
      && FeesOf(b.comboFee + QuoteFees(q), kind)
         == (if kind == "other" then Sum(O.FeeAmounts(b.comboFee)) else 0) + FeesOf(QuoteFees(q), kind)
      && CutsOfKind(b.comboOff + CutsOf(q.discounts), kind)
         == (if kind == "deal" then Sum(O.CutAmounts(b.comboOff)) else 0) + CutsOfKind(CutsOf(q.discounts), kind)
    {
      FeesOfAppend(b.comboFee, QuoteFees(q), kind);
      FeesOfOneKind(b.comboFee, "other", kind);
      CutsOfKindAppend(b.comboOff, CutsOf(q.discounts), kind);
      CutsOfOneKind(b.comboOff, "deal", kind);
    }
    FeeKinds(q);
    CutKinds(q);
  }

  lemma FeeKinds(q: Quote)
    ensures FeesOf(QuoteFees(q), "delivery") == Max(0, q.deliveryFeeCents)
    ensures FeesOf(QuoteFees(q), "service") == Max(0, q.serviceFeeCents)
    ensures FeesOf(QuoteFees(q), "card") == Max(0, q.cardFeeCents)
    ensures FeesOf(QuoteFees(q), "other") == 0
  {
    hide FeesOf, QuoteFees, Max;
    QuoteFeesOf(q, "delivery");
    QuoteFeesOf(q, "service");
    QuoteFeesOf(q, "card");
    QuoteFeesOf(q, "other");
    assert "delivery"[0] == 'd' && "service"[0] == 's' && "card"[0] == 'c' && "other"[0] == 'o';
  }

  lemma CutKinds(q: Quote)
    ensures CutsOfKind(CutsOf(q.discounts), "promo") == DiscountsOf(q.discounts, CodeDiscount)
    ensures CutsOfKind(CutsOf(q.discounts), "cash") == DiscountsOf(q.discounts, CashDiscountKind)
    ensures CutsOfKind(CutsOf(q.discounts), "deal") == DiscountsOf(q.discounts, DealDiscount)
  {
    hide CutsOfKind, CutsOf, DiscountsOf;
    CutsOfDiscounts(q.discounts, CodeDiscount);
    CutsOfDiscounts(q.discounts, CashDiscountKind);
    CutsOfDiscounts(q.discounts, DealDiscount);
  }

  /** A line says what was priced: the bank's name for it, size and quantity, and an entry for each option. */
  lemma WhatALineSays(names: map<Id, string>, p: Priced, qty: nat, notes: string, position: nat)
    ensures var line := LineOf(names, p, qty, notes, position);
      && line.position == position && line.quantity == qty && line.unitPrice == p.base && line.size == p.sizeName
      && line.notes == notes && line.name == (if p.bankItem in names && p.bankItem != NO_ID then names[p.bankItem] else p.name)
      && line.route == (if p.bankItem == NO_ID then p.rateItem else p.bankItem)
      && |line.children| == |p.options|
      && forall k :: 0 <= k < |p.options| ==>
           var o, child := p.options[k], line.children[k];
           && child.position == k && child.children == [] && child.lineTotal == child.unitPrice * child.quantity
           && child.quantity == (if o.removedDefault then 1 else qty)
           && child.unitPrice == (if o.included || o.removedDefault then 0 else o.priceCents)
           && (o.removedDefault ==> child.name == "NO " + o.name)
           && (!o.removedDefault && o.portion == Whole ==> child.name == o.name)
           && (!o.removedDefault && o.portion == Left ==> child.name == o.name + " (left half)")
           && (!o.removedDefault && o.portion == Right ==> child.name == o.name + " (right half)")
  {
    hide Sum;
  }

  /** Without combos the order has one line for each line of the cart, in its order and with its note. */
  lemma {:induction false} LinesKeepTheirPlaces(ctx: Context, names: map<Id, string>, lines: seq<Line>, notes: seq<string>,
                                                quote: seq<QuoteLine>)
    requires |lines| == |notes| == |quote| && forall l <- lines :: l.dealId == NO_ID
    ensures var b := BuildLines(ctx, names, lines, notes, quote);
      && b.Some? && |b.value.items| == |lines| && b.value.comboOff == [] && b.value.comboFee == []
      && forall i :: 0 <= i < |lines| ==>
           b.value.items[i] == LineOf(names, PriceItem(ctx.menu, lines[i].selection, 0), Max(1, Min(50, lines[i].qty)),
                                      notes[i], i)
  {
    hide LineOf, PriceItem;
    if lines != [] {
      var n := |lines| - 1;
      LinesKeepTheirPlaces(ctx, names, lines[..n], notes[..n], quote[..n]);
    }
  }

  // --- building --------------------------------------------------------------------------

  lemma NoTotals()
    ensures Sum(LineTotals([])) == 0
  {
  }

  method BuildChild(o: ResolvedOption, position: nat, qty: nat) returns (child: O.LineItem)
    ensures child == ChildOf(o, position, qty)
  {
    hide ChildName;
    var quantity, unitPrice := qty, o.priceCents;
    if o.removedDefault { quantity, unitPrice := 1, 0; }
    if o.included { unitPrice := 0; }
    child := O.LineItem(position, ChildName(o), "", quantity, unitPrice, unitPrice * quantity, "", [], NO_ID);
  }

  method BuildLine(names: map<Id, string>, p: Priced, qty: nat, notes: string, position: nat) returns (item: O.LineItem)
    ensures item == LineOf(names, p, qty, notes, position)
  {
    hide Sum, ChildOf;
    var name := p.name;
    if p.bankItem != NO_ID && p.bankItem in names { name := names[p.bankItem]; }
    var total := p.base * qty;
    var children: seq<O.LineItem> := [];
    NoTotals();
    for k := 0 to |p.options|
      invariant children == ChildrenOf(p.options[..k], qty)
      invariant total == p.base * qty + Sum(LineTotals(children))
    {
      var child := BuildChild(p.options[k], k, qty);
      OneMoreTotal(children, child);
      total := total + child.lineTotal;
      children := children + [child];
    }
    assert p.options[..|p.options|] == p.options;
    var route := p.bankItem;
    if route == NO_ID { route := p.rateItem; }
    item := O.LineItem(position, name, p.sizeName, qty, p.base, total, notes, children, route);
  }

  method BuildCombo(e: PricingEngine.Engine, names: map<Id, string>, d: Deal, picks: seq<Selection>, qty: nat, position: nat)
    returns (lines: seq<O.LineItem>, total: int)
    requires e.Valid()
    ensures lines == ComboLines(e.ctx.menu, names, d.slots, picks, qty, ComboTitle(d), position)
    ensures total == Sum(LineTotals(lines))
  {
    hide LineOf, PriceItem, Sum;
    lines, total := [], 0;
    NoTotals();
    var k := 0;
    while k < |d.slots| && k < |picks|
      invariant k <= |d.slots| && k <= |picks|
      invariant lines == ComboLines(e.ctx.menu, names, d.slots[..k], picks, qty, ComboTitle(d), position)
      invariant total == Sum(LineTotals(lines))
    {
      PrefixOfPrefix(d.slots, k);
      var p := e.PriceOne(picks[k], d.slots[k].includedOptions);
      var item := BuildLine(names, p, qty, ComboTitle(d), position + k);
      OneMoreTotal(lines, item);
      lines, total := lines + [item], total + item.lineTotal;
      k := k + 1;
    }
    BeyondThePicks(e.ctx.menu, names, d.slots, picks, qty, ComboTitle(d), position, k);
  }

  lemma OneMoreTotal(items: seq<O.LineItem>, item: O.LineItem)
    ensures Sum(LineTotals(items + [item])) == Sum(LineTotals(items)) + item.lineTotal
  {
    assert LineTotals(items + [item]) == LineTotals(items) + [item.lineTotal];
    SumWithLast(LineTotals(items), item.lineTotal);
  }

  /** Steps without a pick add no line. */
  lemma {:induction false} BeyondThePicks(m: Menu, names: map<Id, string>, slots: seq<Slot>, picks: seq<Selection>, qty: nat,
                                          title: string, position: nat, k: nat)
    requires k <= |slots| && (k == |slots| || k >= |picks|)
    ensures ComboLines(m, names, slots, picks, qty, title, position)
         == ComboLines(m, names, slots[..k], picks, qty, title, position)
  {
    if k == |slots| {
      assert slots[..k] == slots;
    } else {
      BeyondThePicks(m, names, slots[..|slots|-1], picks, qty, title, position, k);
      assert slots[..|slots|-1][..k] == slots[..k];
    }
  }

  method LastDeal(deals: seq<Deal>, id: Id) returns (d: Option<Deal>)
    ensures d == FindDeal(deals, id)
  {
    d := None;
    for k := 0 to |deals|
      invariant d == FindDeal(deals[..k], id)
    {
      assert deals[..k+1][..k] == deals[..k];
      if deals[k].id == id { d := Some(deals[k]); }
    }
    assert deals[..|deals|] == deals;
  }

  method BuildAll(e: PricingEngine.Engine, names: map<Id, string>, lines: seq<Line>, notes: seq<string>, quote: seq<QuoteLine>)
    returns (built: Option<Built>)
    requires e.Valid() && |lines| == |notes| == |quote|
    ensures built == BuildLines(e.ctx, names, lines, notes, quote)
  {
    hide AddLine;
    var b := Built([], [], []);
    for i := 0 to |lines|
      invariant Some(b) == BuildLines(e.ctx, names, lines[..i], notes[..i], quote[..i])
    {
      assert lines[..i+1][..i] == lines[..i] && notes[..i+1][..i] == notes[..i] && quote[..i+1][..i] == quote[..i];
      var next := BuildOne(e, names, b, lines[i], notes[i], quote[i].totalCents);
      if next == None {
        NoDealNoOrder(e.ctx, names, lines, notes, quote, i + 1);
        return None;
      }
      b := next.value;
    }
    assert lines[..|lines|] == lines && notes[..|lines|] == notes && quote[..|lines|] == quote;
    built := Some(b);
  }

  method BuildOne(e: PricingEngine.Engine, names: map<Id, string>, before: Built, line: Line, notes: string, quoted: int)
    returns (built: Option<Built>)
    requires e.Valid()
    ensures built == AddLine(e.ctx, names, before, line, notes, quoted)
  {
    hide LineOf, PriceItem, ComboLines, Sum;
    var b := before;
    var qty := Min(Max(line.qty, 1), 50);
    if line.dealId == NO_ID {
      var p := e.PriceOne(line.selection, 0);
      var item := BuildLine(names, p, qty, notes, |b.items|);
      return Some(b.(items := b.items + [item]));
    }
    var found := LastDeal(e.ctx.deals, line.dealId);
    if found == None { return None; }
    var d := found.value;
    var items, total := BuildCombo(e, names, d, line.picks, qty, |b.items|);
    var diff := total - quoted;
    var off: seq<O.PriceCut> := [];
    var fee: seq<O.Fee> := [];
    if diff > 0 {
      off := [O.PriceCut("deal", "", ComboTitle(d), diff)];
    } else if diff < 0 {
      fee := [O.Fee("other", ComboTitle(d), -diff)];
    }
    return Some(Built(b.items + items, b.comboOff + off, b.comboFee + fee));
  }

  lemma {:induction false} NoDealNoOrder(ctx: Context, names: map<Id, string>, lines: seq<Line>, notes: seq<string>,
                                         quote: seq<QuoteLine>, i: nat)
    requires |lines| == |notes| == |quote| && i <= |lines|
    requires BuildLines(ctx, names, lines[..i], notes[..i], quote[..i]) == None
    ensures BuildLines(ctx, names, lines, notes, quote) == None
  {
    hide AddLine;
    if i < |lines| {
      var n := |lines| - 1;
      assert lines[..n][..i] == lines[..i] && notes[..n][..i] == notes[..i] && quote[..n][..i] == quote[..i];
      NoDealNoOrder(ctx, names, lines[..n], notes[..n], quote[..n], i);
    } else {
      assert lines[..i] == lines && notes[..i] == notes && quote[..i] == quote;
    }
  }

  method BuildMoney(b: Built, q: Quote) returns (m: O.MoneyBreakdown)
    ensures m == MoneyOfBuilt(b, q)
  {
    var subtotal := 0;
    for i := 0 to |b.items|
      invariant subtotal == Sum(LineTotals(b.items[..i]))
    {
      assert LineTotals(b.items[..i+1]) == LineTotals(b.items[..i]) + [b.items[i].lineTotal];
      SumWithLast(LineTotals(b.items[..i]), b.items[i].lineTotal);
      subtotal := subtotal + b.items[i].lineTotal;
    }
    assert b.items[..|b.items|] == b.items;
    var cuts: seq<O.PriceCut> := [];
    for i := 0 to |q.discounts|
      invariant cuts == CutsOf(q.discounts[..i])
    {
      assert CutsOf(q.discounts[..i+1]) == CutsOf(q.discounts[..i]) + [CutOf(q.discounts[i])];
      cuts := cuts + [CutOf(q.discounts[i])];
    }
    assert q.discounts[..|q.discounts|] == q.discounts;
    var fees: seq<O.Fee> := [];
    if q.deliveryFeeCents > 0 { fees := fees + [O.Fee("delivery", "Delivery fee", q.deliveryFeeCents)]; }
    if q.serviceFeeCents > 0 { fees := fees + [O.Fee("service", "Online fee", q.serviceFeeCents)]; }
    if q.cardFeeCents > 0 { fees := fees + [O.Fee("card", "Card fee", q.cardFeeCents)]; }
    m := O.MoneyBreakdown(subtotal, q.taxCents, q.tipCents, b.comboFee + fees, b.comboOff + cuts, q.totalCents);
  }

  /** Builds the order of a priced cart, or says why there is none. */
  method Build(e: PricingEngine.Engine, names: map<Id, string>, envelope: Envelope, lines: seq<Line>, notes: seq<string>,
               q: Quote, now: O.Time)
    returns (o: O.Order?, refused: Option<Refused>)
    requires e.Valid() && |lines| == |notes| == |q.lines|
    ensures var built := BuildLines(e.ctx, names, lines, notes, q.lines);
      match built
      case None => o == null && refused == Some(DealEndedMeanwhile)
      case Some(b) =>
        match O.Refusal(InputOf(envelope, b, q))
        case Some(error) => o == null && refused == Some(NotAnOrder(error))
        case None => refused == None && o != null && fresh(o) && o.input == InputOf(envelope, b, q) && o.Get() == O.NewLife(now)
    ensures o != null ==>
      && BuildLines(e.ctx, names, lines, notes, q.lines).Some?
      && Carries(o.input.money, BuildLines(e.ctx, names, lines, notes, q.lines).value, q)
      && o.input.items == BuildLines(e.ctx, names, lines, notes, q.lines).value.items
      && o.input.tenant == envelope.tenant && o.input.location == envelope.location
      && o.input.source == envelope.source && o.input.sourceEventId == envelope.sourceEventId
      && o.input.placedAt == envelope.placedAt && o.input.currency == "USD"
  {
    hide BuildLines, MoneyOfBuilt, O.Refusal, O.NewLife, Carries, OfCombos;
    BuiltOfCombos(e.ctx, names, lines, notes, q.lines);
    var built := BuildAll(e, names, lines, notes, q.lines);
    if built == None { return null, Some(DealEndedMeanwhile); }
    TheMoneyCarriesTheQuote(built.value, q);
    var money := BuildMoney(built.value, q);
    var input := O.NewOrderInput(envelope.tenant, envelope.location, envelope.source, envelope.sourceEventId,
                                 built.value.items, money, "USD", envelope.placedAt);
    var error;
    o, error := O.Order.New(input, now);
    if error.Some? { refused := Some(NotAnOrder(error.value)); } else { refused := None; }
  }
}
