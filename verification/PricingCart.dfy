/** Pricing a whole cart: what a quote is, as a function of the context, the cart and the store's clock. */
module PricingCart {
  import opened Options
  import opened Sequences
  import opened MenuBuild
  import opened PricingTypes
  import opened PricingItem

  /** The share of an amount in basis points, to the nearest cent; halves move away from zero. */
  function Pct(amount: int, bps: int): int
    decreases amount < 0
  {
    if amount < 0 then -Pct(-amount, bps) else GoDiv(amount * bps + 5000, 10000)
  }

  // --- deals ---------------------------------------------------------------------------

  /** Is the deal active, in its hours and for the order type (NoType asks for none)? */
  predicate Live(d: Deal, clock: Clock, orderType: OrderType) {
    && d.active
    && (d.fulfil == Both || orderType == NoType || d.fulfil.orderType == orderType)
    && (d.schedule.None? || OnSchedule(d.schedule.value, clock))
  }

  predicate OnSchedule(s: Schedule, clock: Clock) {
    && (s.days == [] || clock.weekday in s.days)
    && match (s.start, s.end)
       case (Some(start), Some(end)) =>
         if end <= start then clock.minute >= start || clock.minute < end else start <= clock.minute < end
       case (Some(start), None) => start <= clock.minute
       case (None, Some(end)) => clock.minute < end
       case (None, None) => true
  }

  /** A single unit as deals see it; with item NO_ID they cannot. */
  datatype Unit = Unit(price: int, item: Id, category: Id, size: Id)

  predicate Matches(el: Eligible, u: Unit) {
    && u.item != NO_ID
    && (u.item in el.items || (u.category != NO_ID && u.category in el.categories))
    && (el.sizes != [] ==> u.size != NO_ID && u.size in el.sizes)
  }

  function CategoryOf(ctx: Context, item: Id): Id {
    if item in ctx.items then ctx.items[item].categoryId else NO_ID
  }

  /** The rate an item is taxed at; the store's applies when it has none. */
  function RateOf(ctx: Context, item: Id): int {
    if item in ctx.items && ctx.items[item].taxBps > 0 then ctx.items[item].taxBps else ctx.settings.taxBps
  }

  // --- the lines -----------------------------------------------------------------------

  /** A line's total and the rate it is taxed at. */
  datatype Taxed = Taxed(total: int, rate: int)

  /** What the loop over the cart's lines has gathered. */
  datatype Tally = Tally(
    lines: seq<QuoteLine>, units: seq<Unit>, taxed: seq<Taxed>, saved: int, hasBundle: bool, issues: seq<Issue>)

  const NOTHING := Tally([], [], [], 0, false, [])

  function Combine(a: Tally, b: Tally): Tally {
    Tally(a.lines + b.lines, a.units + b.units, a.taxed + b.taxed, a.saved + b.saved, a.hasBundle || b.hasBundle,
          a.issues + b.issues)
  }

  function ClampQty(qty: int): (r: nat)
    ensures 1 <= r <= 50 && (1 <= qty <= 50 ==> r == qty)
  {
    if qty < 1 then 1 else if qty > 50 then 50 else qty
  }

  function Repeat(u: Unit, n: nat): seq<Unit> {
    seq(n, _ => u)
  }

  function PriceItemLine(ctx: Context, line: Line): Tally {
    var qty := ClampQty(line.qty);
    var p := PriceItem(ctx.menu, line.selection, 0);
    Tally([QuoteLine(p.name, qty, p.unit, p.unit * qty, NO_ID)],
          if p.bankItem != NO_ID && p.issues == []
          then Repeat(Unit(p.unit, p.bankItem, CategoryOf(ctx, p.bankItem), p.sizeId), qty) else [],
          [Taxed(p.unit * qty, RateOf(ctx, p.rateItem))], 0, false, p.issues)
  }

  /** The last bundle with an id. */
  function FindBundle(deals: seq<Deal>, id: Id): (r: Option<Deal>)
    ensures r.Some? ==> r.value in deals && r.value.id == id && r.value.kind == Bundle
  {
    if deals == [] then None
    else
      var d := deals[|deals|-1];
      if d.id == id && d.kind == Bundle then Some(d) else FindBundle(deals[..|deals|-1], id)
  }

  /** Running totals over a bundle's steps: extras charged, the picks' regular prices, and the item that sets the tax. */
  datatype Steps = Steps(extras: int, regular: int, rateItem: Id, issues: seq<Issue>)

  function StepsOf(ctx: Context, slots: seq<Slot>, picks: seq<Selection>): Steps {
    if slots == [] then Steps(0, 0, NO_ID, [])
    else
      var k := |slots| - 1;
      var before := StepsOf(ctx, slots[..k], picks);
      if k >= |picks| then before.(issues := before.issues + [DealSlot])
      else
        var p := PriceItem(ctx.menu, picks[k], slots[k].includedOptions);
        var fits := Matches(slots[k].eligible, Unit(0, p.bankItem, CategoryOf(ctx, p.bankItem), p.sizeId));
        Steps(before.extras + p.extras, before.regular + PriceItem(ctx.menu, picks[k], 0).unit,
              if before.rateItem == NO_ID then p.rateItem else before.rateItem,
              before.issues + p.issues + if p.issues == [] && !fits then [DealSlot] else [])
  }

  function PriceBundleLine(ctx: Context, clock: Clock, orderType: OrderType, line: Line): Tally {
    var qty := ClampQty(line.qty);
    match FindBundle(ctx.deals, line.dealId)
    case None => EndedDeal(line.dealId, qty)
    case Some(d) =>
      if !d.active then EndedDeal(line.dealId, qty)
      else
        var steps := StepsOf(ctx, d.slots, line.picks);
        var unit := d.priceCents + steps.extras;
        Tally([QuoteLine(d.name, qty, unit, unit * qty, d.id)], [],
              [Taxed(unit * qty, RateOf(ctx, steps.rateItem))],
              if steps.regular > unit then (steps.regular - unit) * qty else 0, true,
              (if Live(d, clock, orderType) then [] else [DealNotNow]) + steps.issues)
  }

  function EndedDeal(id: Id, qty: nat): Tally {
    Tally([QuoteLine("Ended deal", qty, 0, 0, id)], [], [], 0, true, [DealEnded])
  }

  function PriceLine(ctx: Context, clock: Clock, orderType: OrderType, line: Line): (t: Tally)
    ensures |t.lines| == 1
  {
    if line.dealId == NO_ID then PriceItemLine(ctx, line) else PriceBundleLine(ctx, clock, orderType, line)
  }

  function TallyLines(ctx: Context, clock: Clock, orderType: OrderType, lines: seq<Line>): (t: Tally)
    ensures |t.lines| == |lines|
  {
    if lines == [] then NOTHING
    else Combine(TallyLines(ctx, clock, orderType, lines[..|lines|-1]),
                 PriceLine(ctx, clock, orderType, lines[|lines|-1]))
  }

  function Totals(lines: seq<QuoteLine>): seq<int> {
    seq(|lines|, i requires 0 <= i < |lines| => lines[i].totalCents)
  }

  // --- automatic deals -----------------------------------------------------------------

  function EligibleUnits(units: seq<Unit>, el: Eligible): seq<Unit> {
    if units == [] then []
    else
      EligibleUnits(units[..|units|-1], el) + if Matches(el, units[|units|-1]) then [units[|units|-1]] else []
  }

  function UnitPrice(u: Unit): int {
    u.price
  }

  /** What a mix deal takes off each unit dearer than its price. */
  function MixOff(prices: seq<int>, each: int): int {
    if prices == [] then 0
    else MixOff(prices[..|prices|-1], each) + if prices[|prices|-1] > each then prices[|prices|-1] - each else 0
  }

  /** A share of every n-th price (the n-th, the 2n-th, …). */
  function NthOff(prices: seq<int>, n: int, pct: int): int
    requires n >= 1
    decreases |prices|
  {
    if |prices| < n then 0 else Pct(prices[n-1], pct * 100) + NthOff(prices[n..], n, pct)
  }

  function Cheapest(prices: seq<int>): int
    requires prices != []
  {
    if |prices| == 1 then prices[0] else Min(Cheapest(prices[..|prices|-1]), prices[|prices|-1])
  }

  /** What a live automatic deal takes off, by the prices of its eligible units. */
  function DealAmount(d: Deal, prices: seq<int>, sub: int): int {
    match d.kind
    case Mix => if d.qty > 0 && |prices| >= d.qty then MixOff(prices, d.eachCents) else 0
    case Nth => if d.n < 1 then 0 else NthOff(SortBy(prices, Down), d.n, d.pct)
    case FreeItem => if prices != [] && sub >= d.minSubtotalCents then Cheapest(prices) else 0
    case _ => 0
  }

  function AutoAmount(d: Deal, clock: Clock, orderType: OrderType, units: seq<Unit>, sub: int): int {
    if !Live(d, clock, orderType) || d.eligible == None then 0
    else DealAmount(d, Keys(EligibleUnits(units, d.eligible.value), UnitPrice), sub)
  }

  function Autos(deals: seq<Deal>, clock: Clock, orderType: OrderType, units: seq<Unit>, sub: int): seq<Discount> {
    if deals == [] then []
    else
      var d := deals[|deals|-1];
      var amount := AutoAmount(d, clock, orderType, units, sub);
      Autos(deals[..|deals|-1], clock, orderType, units, sub)
      + if amount > 0 then [Discount(DealDiscount, d.id, d.name, amount)] else []
  }

  // --- a promo code --------------------------------------------------------------------

  /** The last code deal with a code. */
  function FindCode(deals: seq<Deal>, code: string): (r: Option<Deal>)
    ensures r.Some? ==> r.value in deals && r.value.kind == Code
  {
    if deals == [] then None
    else
      var d := deals[|deals|-1];
      if d.kind == Code && d.code == code then Some(d) else FindCode(deals[..|deals|-1], code)
  }

  datatype CodeOutcome = NoCode | Refused(issue: Issue) | Granted(discount: Discount)

  function CodeOf(ctx: Context, clock: Clock, terms: Terms, sub: int): CodeOutcome {
    if terms.code == "" then NoCode
    else
      match FindCode(ctx.deals, terms.code)
      case None => Refused(CodeInvalid)
      case Some(d) =>
        if !Live(d, clock, terms.orderType) then Refused(CodeInvalid)
        else if sub < d.minSubtotalCents then Refused(CodeMinimum)
        else if d.firstOrderOnly && terms.firstOrder == Some(false) then Refused(CodeFirst)
        else
          var amount := if d.pct > 0 then Pct(sub, d.pct * 100) else d.amountCents;
          Granted(Discount(CodeDiscount, d.id, terms.code, Min(amount, sub)))
  }

  // --- which of them apply -------------------------------------------------------------

  /** The first of the largest automatic discounts. */
  function BestOf(autos: seq<Discount>): (r: Option<Discount>)
    ensures r.None? <==> autos == []
    ensures r.Some? ==> r.value in autos
  {
    if autos == [] then None
    else
      match BestOf(autos[..|autos|-1])
      case None => Some(autos[|autos|-1])
      case Some(b) => if autos[|autos|-1].amountCents > b.amountCents then Some(autos[|autos|-1]) else Some(b)
  }

  function PickOne(autos: seq<Discount>, code: CodeOutcome): seq<Discount> {
    match (BestOf(autos), code)
    case (Some(a), Granted(c)) => if c.amountCents >= a.amountCents then [c] else [a]
    case (Some(a), _) => [a]
    case (None, Granted(c)) => [c]
    case (None, _) => []
  }

  function Applied(stacking: Stacking, hasBundle: bool, autos: seq<Discount>, code: CodeOutcome): seq<Discount> {
    match stacking
    case Stack => autos + if code.Granted? then [code.discount] else []
    case Single => if hasBundle then [] else PickOne(autos, code)
    case Best => PickOne(autos, code)
  }

  function Amounts(ds: seq<Discount>): seq<int> {
    seq(|ds|, i requires 0 <= i < |ds| => ds[i].amountCents)
  }

  /** Discounts cut down in turn to what is left of the food. */
  function Clamp(ds: seq<Discount>, food: int): (r: seq<Discount>)
    ensures |r| == |ds|
  {
    if ds == [] then []
    else
      var before := Clamp(ds[..|ds|-1], food);
      var left := food - Sum(Amounts(before));
      before + [ds[|ds|-1].(amountCents := Min(ds[|ds|-1].amountCents, left))]
  }

  // --- fees, tax, tip ------------------------------------------------------------------

  predicate Delivers(ctx: Context, terms: Terms) {
    terms.orderType == Delivery && ctx.types.delivery
  }

  function DeliveryFee(ctx: Context, terms: Terms, after: int): int {
    var st := ctx.settings;
    if !Delivers(ctx, terms) then 0
    else if st.freeDeliveryOverCents.Some? && after >= st.freeDeliveryOverCents.value then 0
    else st.deliveryFeeCents
  }

  /** The cash discount (None = none is given). */
  function CashOff(st: Settings, terms: Terms, after: int): Option<int> {
    if st.cardFee.mode == CashDiscount && terms.cash && after > 0 then Some(Pct(after, st.cardFee.bps)) else None
  }

  /** The distinct rates, in order of first use. */
  function RatesOf(taxed: seq<Taxed>): seq<int> {
    if taxed == [] then []
    else
      var before := RatesOf(taxed[..|taxed|-1]);
      var r := taxed[|taxed|-1].rate;
      if r in before then before else before + [r]
  }

  /** The food taxed at a rate. */
  function GrossAt(taxed: seq<Taxed>, rate: int): int {
    if taxed == [] then 0
    else
      GrossAt(taxed[..|taxed|-1], rate) + if taxed[|taxed|-1].rate == rate then taxed[|taxed|-1].total else 0
  }

  function Grosses(taxed: seq<Taxed>, rates: seq<int>): seq<int> {
    seq(|rates|, i requires 0 <= i < |rates| => GrossAt(taxed, rates[i]))
  }

  /** How much of the discounts each rate carries: its share of the subtotal, the last rate whatever is left. */
  function Shares(grosses: seq<int>, n: nat, sub: int, off: int): (r: seq<int>)
    requires n <= |grosses|
    ensures |r| == n
  {
    if n == 0 then []
    else
      var before := Shares(grosses, n - 1, sub, off);
      var k := n - 1;
      before + [if sub <= 0 then 0
                else if k == |grosses| - 1 then off - Sum(before)
                else GoDiv(off * grosses[k], sub)]
  }

  /** What each rate is charged on: the food at that rate less its share of the discounts. */
  function Bases(grosses: seq<int>, sub: int, off: int): (r: seq<int>)
    ensures |r| == |grosses|
  {
    var shares := Shares(grosses, |grosses|, sub, off);
    seq(|grosses|, k requires 0 <= k < |grosses| => grosses[k] - shares[k])
  }

  function FoodTaxes(bases: seq<int>, rates: seq<int>): seq<int>
    requires |bases| == |rates|
  {
    seq(|rates|, k requires 0 <= k < |rates| => Pct(bases[k], rates[k]))
  }

  function SortedRates(taxed: seq<Taxed>): seq<int> {
    SortBy(RatesOf(taxed), Same)
  }

  function FoodTax(taxed: seq<Taxed>, sub: int, off: int): int {
    var rates := SortedRates(taxed);
    Sum(FoodTaxes(Bases(Grosses(taxed, rates), sub, off), rates))
  }

  function TipOf(st: Settings, terms: Terms, after: int): int {
    if !st.tips.enabled then 0
    else if terms.tipCents.Some? && terms.tipCents.value >= 0 then terms.tipCents.value
    else
      var pct := if terms.tipPct.Some? && 0 <= terms.tipPct.value <= 100 then terms.tipPct.value else st.tips.defaultPct;
      Pct(after, pct * 100)
  }

  // --- the quote -----------------------------------------------------------------------

  /** The money of a quote: everything but its lines and issues. */
  datatype Bill = Bill(
    subtotal: int, discounts: seq<Discount>, delivery: int, service: int, tax: int, tip: int, cardFee: int, total: int,
    saved: int)

  /** The discounts on the food, before any cash discount. */
  function FoodDiscounts(ctx: Context, clock: Clock, terms: Terms, sub: int, units: seq<Unit>, hasBundle: bool):
    seq<Discount>
  {
    var autos := Autos(ctx.deals, clock, terms.orderType, units, sub);
    Clamp(Applied(ctx.settings.stacking, hasBundle, autos, CodeOf(ctx, clock, terms, sub)), sub)
  }

  /** The food after every discount, the cash discount included. */
  function AfterDiscounts(st: Settings, terms: Terms, food: int): int {
    match CashOff(st, terms, food)
    case None => food
    case Some(cash) => food - cash
  }

  function WithCash(st: Settings, terms: Terms, ds: seq<Discount>, food: int): seq<Discount> {
    match CashOff(st, terms, food)
    case None => ds
    case Some(cash) => ds + [Discount(CashDiscountKind, NO_ID, "Cash discount", cash)]
  }

  function ServiceFee(st: Settings, nonEmpty: bool, after: int): int {
    if nonEmpty then st.serviceFeeCents + Pct(after, st.serviceFeeBps) else 0
  }

  /** The fees, tip and total on food with its discounts (ds) and its tax known. */
  function AddUp(ctx: Context, terms: Terms, sub: int, nonEmpty: bool, ds: seq<Discount>, foodTax: int, saved: int):
    Bill
  {
    var st := ctx.settings;
    var food := sub - Sum(Amounts(ds));
    var after := AfterDiscounts(st, terms, food);
    var discounts := WithCash(st, terms, ds, food);
    var delivery := DeliveryFee(ctx, terms, food);
    var service := ServiceFee(st, nonEmpty, after);
    var tax := foodTax + Pct(service, st.taxBps);
    var tip := TipOf(st, terms, after);
    var cardFee := if st.cardFee.mode == Surcharge && !terms.cash
                   then Pct(after + delivery + service + tax, st.cardFee.bps) else 0;
    Bill(sub, discounts, delivery, service, tax, tip, cardFee, after + delivery + service + tax + tip + cardFee,
         saved + Sum(Amounts(discounts)))
  }

  /** The money of a cart, from what its lines come to. */
  function MoneyOf(ctx: Context, clock: Clock, terms: Terms, t: Tally): Bill {
    var sub := Sum(Totals(t.lines));
    var ds := FoodDiscounts(ctx, clock, terms, sub, t.units, t.hasBundle);
    var after := AfterDiscounts(ctx.settings, terms, sub - Sum(Amounts(ds)));
    AddUp(ctx, terms, sub, t.lines != [], ds, FoodTax(t.taxed, sub, sub - after), t.saved)
  }

  /** The food left to pay before any cash discount. */
  function FoodToPay(ctx: Context, clock: Clock, terms: Terms, t: Tally): int {
    var sub := Sum(Totals(t.lines));
    sub - Sum(Amounts(FoodDiscounts(ctx, clock, terms, sub, t.units, t.hasBundle)))
  }

  function OrderIssues(ctx: Context, clock: Clock, terms: Terms, t: Tally): seq<Issue> {
    var code := CodeOf(ctx, clock, terms, Sum(Totals(t.lines)));
    (if t.lines == [] then [Empty] else [])
    + (if code.Refused? then [code.issue] else [])
    + (if ctx.settings.stacking == Single && t.hasBundle && code.Granted? then [CodeAlone] else [])
    + (match terms.orderType
       case Pickup => if ctx.types.pickup then [] else [TypeOff]
       case Delivery => if ctx.types.delivery then [] else [TypeOff]
       case _ => [BadType])
    + if Delivers(ctx, terms) && t.lines != [] && FoodToPay(ctx, clock, terms, t) < ctx.settings.deliveryMinCents
      then [DeliveryMin] else []
  }

  function TallyOf(ctx: Context, clock: Clock, cart: Cart): Tally {
    TallyLines(ctx, clock, cart.terms.orderType, cart.lines)
  }

  function QuoteOf(ctx: Context, clock: Clock, cart: Cart): Quote {
    var t := TallyOf(ctx, clock, cart);
    var m := MoneyOf(ctx, clock, cart.terms, t);
    Quote(t.lines, m.subtotal, m.discounts, m.delivery, m.service, m.tax, m.tip, m.cardFee, m.total, m.saved,
          t.issues + OrderIssues(ctx, clock, cart.terms, t))
  }
}
