/** The data a quote is made from and made of. */
module PricingTypes {
  import opened Options
  import opened MenuBuild

  // --- the store -----------------------------------------------------------------------

  datatype ItemFacts = ItemFacts(categoryId: Id, taxBps: int)

  datatype OrderType = NoType | Pickup | Delivery | OtherType

  datatype Types = Types(pickup: bool, delivery: bool)

  datatype Tips = Tips(enabled: bool, defaultPct: int)

  datatype CardFeeMode = NoCardFee | Surcharge | CashDiscount

  datatype CardFee = CardFee(mode: CardFeeMode, bps: int)

  datatype Stacking = Best | Stack | Single

  datatype Settings = Settings(
    taxBps: int, serviceFeeCents: int, serviceFeeBps: int, deliveryFeeCents: int, freeDeliveryOverCents: Option<int>,
    deliveryMinCents: int, tips: Tips, cardFee: CardFee, stacking: Stacking)

  datatype DealKind = Bundle | Mix | Nth | Code | FreeItem

  /** The order types a deal is for. */
  datatype Fulfil = Both | Only(orderType: OrderType)

  /** On which weekdays (Sunday is 0; an empty list means all) and between which minutes of the day. */
  datatype Schedule = Schedule(days: seq<nat>, start: Option<nat>, end: Option<nat>)

  datatype Eligible = Eligible(items: seq<Id>, categories: seq<Id>, sizes: seq<Id>)

  datatype Slot = Slot(title: string, eligible: Eligible, includedOptions: int)

  datatype Deal = Deal(
    id: Id, kind: DealKind, name: string, active: bool, fulfil: Fulfil, schedule: Option<Schedule>,
    priceCents: int, slots: seq<Slot>, eligible: Option<Eligible>, qty: int, eachCents: int, n: int, pct: int,
    code: string, amountCents: int, firstOrderOnly: bool, minSubtotalCents: int)

  datatype Context = Context(
    menu: Menu, items: map<Id, ItemFacts>, settings: Settings, deals: seq<Deal>, types: Types)

  /** The store's wall clock: weekday (0 = Sunday) and minutes after midnight. */
  datatype Clock = Clock(weekday: nat, minute: nat)

  // --- the cart ------------------------------------------------------------------------

  datatype Portion = Whole | Left | Right

  datatype Pick = Pick(groupId: Id, optionId: Id, portion: Portion)

  datatype Selection = Selection(itemId: Id, choiceId: Id, sizeId: Id, options: seq<Pick>)

  /** A line of the cart; with a dealId it is a bundle, and picks fills its steps in order. */
  datatype Line = Line(selection: Selection, qty: int, dealId: Id, picks: seq<Selection>)

  /** How a cart is ordered: code is the promo code, trimmed and upper-cased ("" = none); cash says how it is paid. */
  datatype Terms = Terms(
    orderType: OrderType, cash: bool, code: string, tipCents: Option<int>, tipPct: Option<int>,
    firstOrder: Option<bool>)

  datatype Cart = Cart(terms: Terms, lines: seq<Line>)

  // --- the quote -----------------------------------------------------------------------

  datatype Issue =
    | Empty | UnknownItem | UnknownSize | UnknownOption | OptionRules | SoldOut
    | DealEnded | DealNotNow | DealSlot
    | CodeInvalid | CodeMinimum | CodeFirst | CodeAlone
    | TypeOff | BadType | DeliveryMin

  datatype QuoteLine = QuoteLine(name: string, qty: int, unitCents: int, totalCents: int, dealId: Id)

  datatype DiscountKind = DealDiscount | CodeDiscount | CashDiscountKind

  datatype Discount = Discount(kind: DiscountKind, dealId: Id, title: string, amountCents: int)

  datatype Quote = Quote(
    lines: seq<QuoteLine>, subtotalCents: int, discounts: seq<Discount>, deliveryFeeCents: int, serviceFeeCents: int,
    taxCents: int, tipCents: int, cardFeeCents: int, totalCents: int, savedCents: int, errors: seq<Issue>)

  // --- what the settings and deal editors let through ----------------------------------

  predicate ValidSettings(s: Settings) {
    && 0 <= s.taxBps <= 3000
    && 0 <= s.serviceFeeCents <= 10000 && 0 <= s.serviceFeeBps <= 3000
    && 0 <= s.deliveryFeeCents <= 10000 && 0 <= s.deliveryMinCents <= 100000
    && (s.freeDeliveryOverCents.Some? ==> 0 <= s.freeDeliveryOverCents.value <= 100000)
    && 0 <= s.tips.defaultPct <= 100
    && 0 <= s.cardFee.bps <= 1000
  }

  predicate ValidDeal(d: Deal) {
    match d.kind
    case Bundle => d.priceCents >= 0 && 1 <= |d.slots| <= 10 && forall s :: s in d.slots ==> s.includedOptions >= 0
    case Mix => d.qty >= 2 && d.eachCents >= 0
    case Nth => d.n >= 2 && 1 <= d.pct <= 100
    case Code => d.amountCents >= 0 && d.pct <= 100 && d.minSubtotalCents >= 0 && ((d.pct > 0) != (d.amountCents > 0))
    case FreeItem => d.minSubtotalCents >= 0
  }

  predicate NonNegativeSizes(sizes: seq<BuildItemSize>) {
    forall s :: s in sizes ==> s.priceCents >= 0
  }

  predicate NonNegativeItem(it: BuildItem) {
    && it.priceCents >= 0
    && NonNegativeSizes(it.sizes)
    && forall c :: c in it.choices ==> c.priceCents >= 0 && NonNegativeSizes(c.sizes)
  }

  predicate NonNegativeGroup(g: BuildGroup) {
    forall o :: o in g.options ==> o.priceCents >= 0 && forall p :: p in o.prices ==> p.priceCents >= 0
  }

  predicate NonNegativeMenu(m: Menu) {
    && (forall it :: it in AllItems(m.categories) ==> NonNegativeItem(it))
    && (forall g :: g in m.groups ==> NonNegativeGroup(g))
  }

  /** A context as the editors keep it: validated settings and deals, no negative price. */
  predicate ValidContext(ctx: Context) {
    && ValidSettings(ctx.settings)
    && (forall d :: d in ctx.deals ==> ValidDeal(d))
    && NonNegativeMenu(ctx.menu)
  }
}
