/** Pricing a compiled menu maps back to the bank: what is priced is on sale, at the bank's price under the view's rule. */
module CompiledPrices {
  import opened Options
  import opened Sequences
  import opened MenuBuild
  import opened MenuBank
  import opened MenuView
  import opened MenuPlacement
  import opened PricingTypes
  import opened PricingItem
  import opened PricingMoney

  // --- the rule -----------------------------------------------------------------------------------

  predicate ValidRules(rules: Rules) {
    -5000 <= rules.markupBps <= 10000
  }

  /** The price the markup alone gives: the least whole cent that covers it. */
  lemma MarkupRoundsUp(cents: int, bps: int)
    requires cents > 0 && -5000 <= bps <= 10000
    ensures var p := ApplyRule(cents, bps, false);
            10000 * (p - 1) < cents * (10000 + bps) <= 10000 * p && p > 0
  {
    assert cents * (10000 + bps) >= 1 * 5000 by { MulAtLeast(cents, 10000 + bps); }
  }

  lemma MulAtLeast(a: int, b: int)
    requires a >= 1 && b >= 5000
    ensures a * b >= 5000
  {
    assert (a - 1) * b >= 0;
  }

  /** With the .99 rounding: the least price ending in 99 that covers the marked-up one. */
  lemma RoundingGoesUpToThe99(cents: int, bps: int)
    requires cents > 0 && -5000 <= bps <= 10000
    ensures var p, q := ApplyRule(cents, bps, false), ApplyRule(cents, bps, true);
            q % 100 == 99 && p <= q < p + 100
  {
    MarkupRoundsUp(cents, bps);
  }

  /** A dearer bank price never shows cheaper, and $0 stays $0. */
  lemma TheRuleKeepsTheOrder(a: int, b: int, rules: Rules)
    requires ValidRules(rules) && a <= b
    ensures PriceOf(rules, a) <= PriceOf(rules, b) && OptionPriceOf(rules, a) <= OptionPriceOf(rules, b)
    ensures PriceOf(rules, 0) == 0 && (a >= 0 ==> PriceOf(rules, a) >= 0 && OptionPriceOf(rules, a) >= 0)
  {
    hide ApplyRule;
    ZeroStaysZero(rules);
    if a > 0 {
      MarkupKeepsTheOrder(a, b, rules.markupBps);
      RoundingKeepsTheOrder(a, b, rules.markupBps);
      MarkupRoundsUp(a, rules.markupBps);
      RoundingGoesUpToThe99(a, rules.markupBps);
    } else if b > 0 {
      MarkupRoundsUp(b, rules.markupBps);
      RoundingGoesUpToThe99(b, rules.markupBps);
    }
  }

  lemma ZeroStaysZero(rules: Rules)
    ensures forall cents :: cents <= 0 ==> PriceOf(rules, cents) == cents && OptionPriceOf(rules, cents) == cents
  {
  }

  lemma MarkupKeepsTheOrder(a: int, b: int, bps: int)
    requires 0 < a <= b && -5000 <= bps <= 10000
    ensures ApplyRule(a, bps, false) <= ApplyRule(b, bps, false)
  {
    hide ApplyRule;
    MarkupRoundsUp(a, bps);
    MarkupRoundsUp(b, bps);
    MulMonotone(a, b, 10000 + bps);
  }

  lemma RoundingKeepsTheOrder(a: int, b: int, bps: int)
    requires 0 < a <= b && -5000 <= bps <= 10000
    ensures ApplyRule(a, bps, true) <= ApplyRule(b, bps, true)
  {
    hide ApplyRule;
    MarkupKeepsTheOrder(a, b, bps);
    RoundingGoesUpToThe99(a, bps);
    RoundingGoesUpToThe99(b, bps);
  }

  // --- what is priced is on sale --------------------------------------------------------------------

  /** Whatever a selection prices, the bank item deals see and the one whose tax applies are on sale. */
  lemma WhatIsPricedIsOnSale(bank: Bank, rules: Rules, entries: seq<Entry>, sel: Selection, free: int)
    ensures var p := PriceItem(Compiled(bank, rules, entries), sel, free);
            && (p.bankItem != NO_ID ==> OnSale(bank, p.bankItem))
            && (p.rateItem != NO_ID ==> OnSale(bank, p.rateItem))
  {
    hide Compiled, AllItems, OnSale, PlanOf, Configure, PickSize;
    var menu := Compiled(bank, rules, entries);
    var found := FindItem(AllItems(menu.categories), sel.itemId);
    if found.Some? {
      WhatShowsIsOnSale(bank, rules, entries, found.value);
      OffersStandForAnchors(found.value, sel.choiceId);
      ConfigureKeepsTheItems(menu, sel, free);
    }
  }

  lemma OffersStandForAnchors(it: BuildItem, choiceId: Id)
    ensures OfferOf(it, choiceId).Some? ==>
              var offer := OfferOf(it, choiceId).value;
              if it.choices != [] then
                offer.bankItem == offer.rateItem && exists c <- it.choices :: c.itemId == offer.bankItem
              else
                && (it.anchor != [] ==> offer.rateItem == it.anchor[0])
                && (offer.bankItem != NO_ID ==> it.anchor != [] && offer.bankItem == it.anchor[0])
  {
  }

  /** A priced item keeps the bank item and the tax item of what was offered. */
  lemma ConfigureKeepsTheItems(m: Menu, sel: Selection, free: int)
    ensures var p, found := PriceItem(m, sel, free), FindItem(AllItems(m.categories), sel.itemId);
            match found
            case None => p.bankItem == NO_ID && p.rateItem == NO_ID && p.issues != []
            case Some(it) =>
              match OfferOf(it, sel.choiceId)
              case None => p.bankItem == NO_ID && p.rateItem == NO_ID && p.issues != []
              case Some(offer) => p.bankItem == offer.bankItem && p.rateItem == offer.rateItem
  {
    hide AllItems, TakeGroups, ChargeBeyond, WithIncluded, StrayPick, OfferOf, PickSize;
  }

  /** An issue-free selection is always taxed as some bank item on sale; only an augment is no bank item to deals. */
  lemma IssueFreeMapsToTheBank(bank: Bank, rules: Rules, entries: seq<Entry>, sel: Selection, free: int)
    requires UniqueIds(AllStock(bank), entries)
    requires PriceItem(Compiled(bank, rules, entries), sel, free).issues == []
    ensures var p := PriceItem(Compiled(bank, rules, entries), sel, free);
            && OnSale(bank, p.rateItem)
            && (p.bankItem == p.rateItem
                || (p.bankItem == NO_ID && exists e <- entries :: e.kind == AugmentEntry && e.id == sel.itemId))
  {
    hide Compiled, AllItems, PlanOf, PriceItem, OfferOf, UniqueIds, AllStock;
    var menu := Compiled(bank, rules, entries);
    ConfigureKeepsTheItems(menu, sel, free);
    var it := FindItem(AllItems(menu.categories), sel.itemId).value;
    WhatShowsIsOnSale(bank, rules, entries, it);
    OffersStandForAnchors(it, sel.choiceId);
    AnchorsTellWhatAnItemIs(bank, rules, entries, it);
    if it.choices == [] { OwnItemsAreTheirBankItem(it, sel.choiceId); }
  }

  lemma OwnItemsAreTheirBankItem(it: BuildItem, choiceId: Id)
    requires it.choices == [] && it.anchor != []
    ensures OfferOf(it, choiceId).Some?
    ensures OfferOf(it, choiceId).value.bankItem == if it.anchor[0] == it.id then it.id else NO_ID
  {
  }

  /** Only an augment stands for items other than itself without offering them as choices. */
  lemma AnchorsTellWhatAnItemIs(bank: Bank, rules: Rules, entries: seq<Entry>, bi: BuildItem)
    requires bi in AllItems(Compiled(bank, rules, entries).categories)
    ensures bi.choices != [] || bi.anchor == [bi.id] || exists e <- entries :: e.kind == AugmentEntry && e.id == bi.id
  {
    hide AllStock, AllItems, Compiled, PlanOf, ItemShown, MergeAnchors, AugmentAnchors, EntrySpot, ShownAlone;
    var plan := PlanOf(bank, rules, entries);
    WhereItemsComeFrom(bank, rules, entries, bi);
    if s :| s in AllStock(plan.bank) && ShownAlone(plan, s) && bi == ItemShown(plan, s.item) {
      ShownKeepsTheId(plan, s.item);
    } else {
      var e :| e in entries && Adds(plan, e) == Some(bi);
      MergesHaveChoices(plan, e, e.itemIds);
    }
  }

  // --- at the bank's price ----------------------------------------------------------------------------

  /** The menu's item under a shown bank item's id is that item. */
  lemma FoundAsShown(bank: Bank, rules: Rules, entries: seq<Entry>, s: Stock)
    requires UniqueIds(AllStock(bank), entries) && s in AllStock(bank) && ShouldShow(rules, entries, s)
    ensures FindItem(AllItems(Compiled(bank, rules, entries).categories), s.item.id)
         == Some(ItemShown(PlanOf(bank, rules, entries), s.item))
  {
    hide AllStock, AllItems, Compiled, PlanOf, ItemShown, ShownAlone, ShouldShow, Adds;
    var items, plan := AllItems(Compiled(bank, rules, entries).categories), PlanOf(bank, rules, entries);
    EachItemShowsOnce(bank, rules, entries, s);
    OnceIsFound(items, s.item.id);
    var it := FindItem(items, s.item.id).value;
    WhereItemsComeFrom(bank, rules, entries, it);
    PlanKeepsBankAndRules(bank, rules, entries);
    if t :| t in AllStock(bank) && ShownAlone(plan, t) && it == ItemShown(plan, t.item) {
      ShownKeepsTheId(plan, t.item);
    } else {
      var e :| e in entries && Adds(plan, e) == Some(it);
      AddedHasTheEntrysId(plan, e);
      assert false;
    }
  }

  lemma {:induction false} OnceIsFound(items: seq<BuildItem>, id: Id)
    requires Times(id, items) > 0
    ensures FindItem(items, id).Some?
  {
    if items[0].id != id { OnceIsFound(items[1..], id); }
  }

  /** The sizes of an item that the bank still has. */
  function KnownSizes(bank: Bank, sizes: seq<ItemSize>): seq<ItemSize>
    decreases |sizes|
  {
    if sizes == [] then []
    else
      var s := sizes[|sizes|-1];
      KnownSizes(bank, sizes[..|sizes|-1]) + if FindBankSize(bank.sizes, s.sizeId).Some? then [s] else []
  }

  lemma {:induction false} SizesAreTheKnownOnes(bank: Bank, rules: Rules, sizes: seq<ItemSize>)
    ensures var known, built := KnownSizes(bank, sizes), SizesOf(bank, rules, sizes, map[]);
            && |built| == |known|
            && forall i :: 0 <= i < |known| ==>
                 built[i].sizeId == known[i].sizeId && built[i].priceCents == PriceOf(rules, known[i].priceCents)
    decreases |sizes|
  {
    hide PriceOf, FindBankSize;
    if sizes != [] { SizesAreTheKnownOnes(bank, rules, sizes[..|sizes|-1]); }
  }

  /** The size sold: the one asked for, or the first; and its price. */
  ghost predicate SoldInSize(known: seq<ItemSize>, rules: Rules, asked: Id, size: Id, base: int) {
    exists i :: 0 <= i < |known| && known[i].sizeId == size && base == PriceOf(rules, known[i].priceCents)
                && if asked == NO_ID then i == 0 || size == NO_ID else size == asked
  }

  /**
   * An item no entry changes costs the rule's price of the bank's: of the size asked for, of its first size when none
   * is asked for, or of the item when it has no sizes.
   */
  lemma PlainItemsCostTheBankPrice(bank: Bank, rules: Rules, entries: seq<Entry>, s: Stock, sel: Selection, free: int)
    requires UniqueIds(AllStock(bank), entries) && s in AllStock(bank) && ShouldShow(rules, entries, s)
    requires forall e <- entries :: !IsEntryOf(e, s.item.id)
    requires sel.itemId == s.item.id && PriceItem(Compiled(bank, rules, entries), sel, free).issues == []
    ensures var p := PriceItem(Compiled(bank, rules, entries), sel, free);
            && p.bankItem == s.item.id
            && if KnownSizes(bank, s.item.sizes) == [] then
                 sel.sizeId == NO_ID == p.sizeId && p.base == PriceOf(rules, s.item.priceCents)
               else SoldInSize(KnownSizes(bank, s.item.sizes), rules, sel.sizeId, p.sizeId, p.base)
  {
    hide AllStock, AllItems, Compiled, PlanOf, ItemShown, ShouldShow, PriceOf, SizesOf, PriceItem, UniqueIds;
    var menu := Compiled(bank, rules, entries);
    FoundAsShown(bank, rules, entries, s);
    ShownUnchanged(bank, rules, entries, s);
    SoldAsOffered(menu, sel, free, ItemShown(PlanOf(bank, rules, entries), s.item));
    SizesAreTheKnownOnes(bank, rules, s.item.sizes);
  }

  lemma ShownUnchanged(bank: Bank, rules: Rules, entries: seq<Entry>, s: Stock)
    requires s in AllStock(bank) && forall e <- entries :: !IsEntryOf(e, s.item.id)
    ensures var bi := ItemShown(PlanOf(bank, rules, entries), s.item);
            && bi.id == s.item.id && bi.anchor == [bi.id] && bi.choices == []
            && bi.priceCents == PriceOf(rules, s.item.priceCents)
            && bi.sizes == SizesOf(bank, rules, s.item.sizes, map[])
  {
    hide AllStock, FindStock, PriceOf, SizesOf, KnownGroups, ByItem;
    FoundById(AllStock(bank), s);
    ByItemIsTheLast(bank, entries, s.item.id);
  }

  /** A plain item is sold at its own price when it has no sizes, else at that of the size asked for, or the first. */
  lemma SoldAsOffered(m: Menu, sel: Selection, free: int, bi: BuildItem)
    requires FindItem(AllItems(m.categories), sel.itemId) == Some(bi) && bi.choices == [] && bi.anchor == [bi.id]
    requires PriceItem(m, sel, free).issues == []
    ensures var p := PriceItem(m, sel, free);
            && p.bankItem == bi.id
            && if bi.sizes == [] then sel.sizeId == NO_ID == p.sizeId && p.base == bi.priceCents
               else exists i :: 0 <= i < |bi.sizes| && bi.sizes[i].sizeId == p.sizeId && bi.sizes[i].priceCents == p.base
                                && if sel.sizeId == NO_ID then i == 0 || p.sizeId == NO_ID else p.sizeId == sel.sizeId
  {
    hide AllItems, TakeGroups, ChargeBeyond, WithIncluded, StrayPick;
    if bi.sizes != [] {
      var sz := PickSize(bi.sizes, sel.sizeId).value;
      if FindSize(bi.sizes, sel.sizeId).None? { assert sz == bi.sizes[0]; }
    }
  }

  // --- options at the markup ---------------------------------------------------------------------------

  function FindBankOption(options: seq<BankOption>, id: Id): Option<BankOption> {
    if options == [] then None
    else if options[|options|-1].id == id then Some(options[|options|-1])
    else FindBankOption(options[..|options|-1], id)
  }

  lemma {:induction false} MarkupOfTheSizesPrice(rules: Rules, own: int, prices: seq<OptionPrice>, size: Id)
    ensures PriceForSize(OptionPriceOf(rules, own), PricesOf(rules, prices), size)
         == OptionPriceOf(rules, PriceForSize(own, prices, size))
    decreases |prices|
  {
    hide OptionPriceOf;
    if prices != [] && size != NO_ID {
      var init, built := prices[..|prices|-1], PricesOf(rules, prices);
      MarkupOfTheSizesPrice(rules, own, init, size);
      assert built[..|built|-1] == PricesOf(rules, init);
    }
  }

  lemma {:induction false} OptionsComeFromTheBank(rules: Rules, options: seq<BankOption>, id: Id)
    ensures match FindBankOption(options, id)
            case None => FindOption(OptionsOf(rules, options), id) == None
            case Some(o) =>
              FindOption(OptionsOf(rules, options), id)
              == Some(BuildOption(o.id, o.name, OptionPriceOf(rules, o.priceDeltaCents), PricesOf(rules, o.prices),
                                  o.isDefault, !o.inStock))
    decreases |options|
  {
    hide OptionPriceOf, PricesOf;
    if options != [] {
      var init, built := options[..|options|-1], OptionsOf(rules, options);
      OptionsComeFromTheBank(rules, init, id);
      assert built[..|built|-1] == OptionsOf(rules, init);
    }
  }

  /** A group an order is priced with is the bank's, and each option costs the markup of its price for the size. */
  lemma OptionsCostTheMarkup(bank: Bank, rules: Rules, entries: seq<Entry>, gid: Id, oid: Id, size: Id)
    requires WellFiled(bank)
    ensures match FindGroup(Compiled(bank, rules, entries).groups, gid)
            case None => true
            case Some(g) =>
              && gid in bank.groups && g == GroupOf(rules, bank.groups[gid])
              && match FindBankOption(bank.groups[gid].options, oid)
                 case None => FindOption(g.options, oid) == None
                 case Some(o) =>
                   && FindOption(g.options, oid).Some?
                   && PickPrice(g, FindOption(g.options, oid).value, size)
                      == OptionPriceOf(rules, PriceForSize(o.priceDeltaCents, o.prices, size))
  {
    hide Compiled, WellFiled, OptionPriceOf, PriceForSize, PricesOf, OptionsOf, FindOption, FindBankOption, AllItems;
    GroupsAreListedOnce(bank, rules, entries);
    var found := FindGroup(Compiled(bank, rules, entries).groups, gid);
    if found.Some? {
      var options := bank.groups[gid].options;
      OptionsComeFromTheBank(rules, options, oid);
      var o := FindBankOption(options, oid);
      if o.Some? { MarkupOfTheSizesPrice(rules, o.value.priceDeltaCents, o.value.prices, size); }
    }
  }

  // --- a bank without negative prices compiles to a menu without them ------------------------------------

  predicate NonNegativeBankItem(it: BankItem) {
    it.priceCents >= 0 && forall z <- it.sizes :: z.priceCents >= 0
  }

  predicate NonNegativeBank(bank: Bank) {
    && (forall s <- AllStock(bank) :: NonNegativeBankItem(s.item))
    && forall id <- bank.groups :: forall o <- bank.groups[id].options ::
         o.priceDeltaCents >= 0 && forall p <- o.prices :: p.priceCents >= 0
  }

  predicate NonNegativeEntry(e: Entry) {
    && (e.priceOverrideCents.Some? ==> e.priceOverrideCents.value >= 0)
    && forall id <- e.sizePrices :: e.sizePrices[id] >= 0
  }

  lemma {:induction false} SizesAreNonNegative(bank: Bank, rules: Rules, sizes: seq<ItemSize>, override: map<Id, int>)
    requires ValidRules(rules) && forall z <- sizes :: z.priceCents >= 0
    requires forall id <- override :: override[id] >= 0
    ensures NonNegativeSizes(SizesOf(bank, rules, sizes, override))
    decreases |sizes|
  {
    hide PriceOf, FindBankSize, ValidRules;
    if sizes != [] {
      var last := sizes[|sizes|-1];
      assert last in sizes;
      SizesAreNonNegative(bank, rules, sizes[..|sizes|-1], override);
      TheRuleKeepsTheOrder(last.priceCents, last.priceCents, rules);
    }
  }

  lemma {:induction false} PricesAreNonNegative(rules: Rules, prices: seq<OptionPrice>)
    requires ValidRules(rules) && forall p <- prices :: p.priceCents >= 0
    ensures forall p <- PricesOf(rules, prices) :: p.priceCents >= 0
    decreases |prices|
  {
    hide OptionPriceOf, ValidRules;
    if prices != [] {
      var last := prices[|prices|-1];
      assert last in prices;
      PricesAreNonNegative(rules, prices[..|prices|-1]);
      TheRuleKeepsTheOrder(last.priceCents, last.priceCents, rules);
    }
  }

  lemma {:induction false} OptionsAreNonNegative(rules: Rules, options: seq<BankOption>)
    requires ValidRules(rules)
    requires forall o <- options :: o.priceDeltaCents >= 0 && forall p <- o.prices :: p.priceCents >= 0
    ensures forall o <- OptionsOf(rules, options) :: o.priceCents >= 0 && forall p <- o.prices :: p.priceCents >= 0
    decreases |options|
  {
    hide OptionPriceOf, ValidRules, PricesOf;
    if options != [] {
      var last := options[|options|-1];
      assert last in options;
      OptionsAreNonNegative(rules, options[..|options|-1]);
      PricesAreNonNegative(rules, last.prices);
      TheRuleKeepsTheOrder(last.priceDeltaCents, last.priceDeltaCents, rules);
    }
  }

  lemma ShownIsNonNegative(plan: Plan, it: BankItem)
    requires ValidRules(plan.rules) && NonNegativeBankItem(it)
    requires it.id in plan.byItem ==> NonNegativeEntry(plan.byItem[it.id])
    ensures NonNegativeItem(ItemShown(plan, it))
  {
    hide PriceOf, SizesOf, NonNegativeSizes, KnownGroups, ValidRules;
    TheRuleKeepsTheOrder(it.priceCents, it.priceCents, plan.rules);
    SizesAreNonNegative(plan.bank, plan.rules, it.sizes, map[]);
    if it.id in plan.byItem {
      SizesAreNonNegative(plan.bank, plan.rules, it.sizes, plan.byItem[it.id].sizePrices);
    }
  }

  lemma {:induction false} ChoicesAreNonNegative(plan: Plan, e: Entry, ids: seq<Id>)
    requires ValidRules(plan.rules) && NonNegativeBank(plan.bank)
    ensures var m := MergeAnchors(plan, e, ids);
            && (forall c <- m.choices :: c.priceCents >= 0 && NonNegativeSizes(c.sizes))
            && (m.first.Some? ==> m.first.value in AllStock(plan.bank))
    decreases |ids|
  {
    hide PriceOf, SizesOf, NonNegativeSizes, ValidRules, AllStock;
    if ids != [] {
      ChoicesAreNonNegative(plan, e, ids[..|ids|-1]);
      var s := FindStock(AllStock(plan.bank), ids[|ids|-1]);
      if s.Some? {
        TheRuleKeepsTheOrder(s.value.item.priceCents, s.value.item.priceCents, plan.rules);
        SizesAreNonNegative(plan.bank, plan.rules, s.value.item.sizes, map[]);
      }
    }
  }

  lemma AddedIsNonNegative(plan: Plan, e: Entry)
    requires ValidRules(plan.rules) && NonNegativeBank(plan.bank) && NonNegativeEntry(e) && Adds(plan, e).Some?
    ensures NonNegativeItem(Adds(plan, e).value)
  {
    hide PriceOf, SizesOf, KnownGroups, ValidRules, AllStock, MergeAnchors, AugmentAnchors, EntrySpot;
    ChoicesAreNonNegative(plan, e, e.itemIds);
    if e.kind == MergeEntry {
      var first := MergeAnchors(plan, e, e.itemIds).first.value.item;
      TheRuleKeepsTheOrder(first.priceCents, first.priceCents, plan.rules);
      SizesAreNonNegative(plan.bank, plan.rules, first.sizes, map[]);
    }
  }

  /** The editors keep bank and entry prices from being negative; the compiled menu then has none either. */
  lemma CompiledMenuHasNoNegativePrice(bank: Bank, rules: Rules, entries: seq<Entry>)
    requires ValidRules(rules) && NonNegativeBank(bank) && WellFiled(bank) && forall e <- entries :: NonNegativeEntry(e)
    ensures NonNegativeMenu(Compiled(bank, rules, entries))
  {
    hide Compiled, AllItems, ItemShown, Adds, AllStock, NonNegativeItem, ShownAlone, NonNegativeEntry, NonNegativeBankItem,
         OptionsOf, WellFiled, ByItem, Sellable, ViewHidden, BankCats, CatPos, Aisles, ValidRules;
    var plan, menu := PlanOf(bank, rules, entries), Compiled(bank, rules, entries);
    forall it <- AllItems(menu.categories) ensures NonNegativeItem(it) {
      WhereItemsComeFrom(bank, rules, entries, it);
      if s :| s in AllStock(bank) && ShownAlone(plan, s) && it == ItemShown(plan, s.item) {
        EntryOfAnItem(bank, entries, s);
        ShownIsNonNegative(plan, s.item);
      } else {
        var e :| e in entries && Adds(plan, e) == Some(it);
        AddedIsNonNegative(plan, e);
      }
    }
    GroupsAreListedOnce(bank, rules, entries);
    forall g <- menu.groups ensures NonNegativeGroup(g) {
      OptionsAreNonNegative(rules, bank.groups[g.id].options);
    }
  }

  lemma EntryOfAnItem(bank: Bank, entries: seq<Entry>, s: Stock)
    requires s in AllStock(bank)
    ensures s.item.id in ByItem(bank, entries) ==> ByItem(bank, entries)[s.item.id] in entries
  {
    hide AllStock, ByItem;
    FoundById(AllStock(bank), s);
    ByItemIsTheLast(bank, entries, s.item.id);
  }
}
