/** What a view's entries make of the bank's items: the fields an item entry changes, and what merges and augments show. */
module MenuEntries {
  import opened Options
  import opened Sequences
  import opened MenuBuild
  import opened MenuBank
  import opened MenuView
  import opened MenuPlacement
  import opened CompiledPrices
  import opened PricingItem
  import opened Text

  /** Are the sizes shown those the bank knows, in their order, at the price an override gives, or else the rule's? */
  ghost predicate SizesShown(bank: Bank, rules: Rules, sizes: seq<ItemSize>, override: map<Id, int>,
                             shown: seq<BuildItemSize>) {
    var known := KnownSizes(bank, sizes);
    && |shown| == |known|
    && forall i :: 0 <= i < |known| ==>
         && shown[i].sizeId == known[i].sizeId
         && shown[i].priceCents == (if known[i].sizeId in override then override[known[i].sizeId]
                                    else PriceOf(rules, known[i].priceCents))
         && exists z <- bank.sizes :: z.id == shown[i].sizeId && z.name == shown[i].name
  }

  lemma {:induction false} SizesAreShown(bank: Bank, rules: Rules, sizes: seq<ItemSize>, override: map<Id, int>)
    ensures SizesShown(bank, rules, sizes, override, SizesOf(bank, rules, sizes, override))
    decreases |sizes|
  {
    hide PriceOf, FindBankSize;
    if sizes != [] { SizesAreShown(bank, rules, sizes[..|sizes|-1], override); }
  }

  /** Is the item shown as the bank has it? */
  ghost predicate AsTheBankHasIt(bank: Bank, rules: Rules, it: BankItem, bi: BuildItem) {
    && bi.id == it.id && bi.name == it.name && !bi.photo && bi.position == it.position && bi.anchor == [it.id]
    && bi.priceCents == PriceOf(rules, it.priceCents) && SizesShown(bank, rules, it.sizes, map[], bi.sizes)
    && bi.groupIds == KnownGroups(bank, it.groupIds) && bi.choices == []
  }

  /** Is it shown under an entry: its name if it gives one, its photo and place, and the prices it sets? */
  ghost predicate UnderTheEntry(bank: Bank, rules: Rules, it: BankItem, e: Entry, bi: BuildItem) {
    && bi.id == it.id && bi.anchor == [it.id] && bi.photo == e.photo && bi.position == e.position
    && bi.name == (if Trim(e.displayName) == "" then it.name else Trim(e.displayName))
    && bi.priceCents == (match e.priceOverrideCents case None => PriceOf(rules, it.priceCents) case Some(p) => p)
    && SizesShown(bank, rules, it.sizes, e.sizePrices, bi.sizes)
    && bi.groupIds == KnownGroups(bank, it.groupIds) && bi.choices == []
  }

  lemma HowAnItemIsShown(plan: Plan, it: BankItem)
    ensures it.id !in plan.byItem ==> AsTheBankHasIt(plan.bank, plan.rules, it, ItemShown(plan, it))
    ensures it.id in plan.byItem ==> UnderTheEntry(plan.bank, plan.rules, it, plan.byItem[it.id], ItemShown(plan, it))
  {
    hide SizesOf, SizesShown, KnownGroups, PriceOf, Trim;
    SizesAreShown(plan.bank, plan.rules, it.sizes, map[]);
    if it.id in plan.byItem { SizesAreShown(plan.bank, plan.rules, it.sizes, plan.byItem[it.id].sizePrices); }
  }

  /** On the compiled menu, an item that should show does: as the bank has it, or under the last entry that names it alone. */
  lemma WhatIsShownOfAnItem(bank: Bank, rules: Rules, entries: seq<Entry>, s: Stock)
    requires UniqueIds(AllStock(bank), entries) && s in AllStock(bank) && ShouldShow(rules, entries, s)
    ensures var found := FindItem(AllItems(Compiled(bank, rules, entries).categories), s.item.id);
      && found.Some?
      && ((forall e <- entries :: !IsEntryOf(e, s.item.id)) ==> AsTheBankHasIt(bank, rules, s.item, found.value))
      && forall i :: Counts(entries, i, s.item.id) ==> UnderTheEntry(bank, rules, s.item, entries[i], found.value)
  {
    hide AllStock, FindStock, Compiled, AllItems, ItemShown, ByItem, AsTheBankHasIt, UnderTheEntry, ShouldShow, UniqueIds,
         FindItem;
    var plan := PlanOf(bank, rules, entries);
    FoundAsShown(bank, rules, entries, s);
    HowAnItemIsShown(plan, s.item);
    FoundById(AllStock(bank), s);
    ByItemIsTheLast(bank, entries, s.item.id);
    if s.item.id in plan.byItem {
      var i :| Counts(entries, i, s.item.id) && entries[i] == plan.byItem[s.item.id];
      forall j | Counts(entries, j, s.item.id) ensures j == i {}
      assert entries[i] in entries;
    } else {
      forall i ensures !Counts(entries, i, s.item.id) { assert 0 <= i < |entries| ==> entries[i] in entries; }
    }
  }

  // --- groups and prices ------------------------------------------------------------------------------

  /** A shown group asks of the customer what the bank's does, option for option. */
  lemma WhatAGroupShows(rules: Rules, g: BankGroup)
    ensures var shown := GroupOf(rules, g);
      && shown.id == g.id && shown.name == g.name && shown.required == g.required && shown.minSelect == g.minSelect
      && shown.maxSelect == g.maxSelect && shown.allowMultiple == g.allowMultiple && shown.portions == g.portions
      && |shown.options| == |g.options|
      && forall i :: 0 <= i < |g.options| ==> OptionShown(rules, g.options[i], shown.options[i])
  {
    hide OptionShown;
    OptionsAreShown(rules, g.options);
  }

  predicate OptionShown(rules: Rules, o: BankOption, shown: BuildOption) {
    && shown.id == o.id && shown.name == o.name && shown.isDefault == o.isDefault && shown.soldOut != o.inStock
    && shown.priceCents == ApplyRule(o.priceDeltaCents, rules.markupBps, false)
    && |shown.prices| == |o.prices|
    && forall i :: 0 <= i < |o.prices| ==>
         && shown.prices[i].sizeId == o.prices[i].sizeId
         && shown.prices[i].priceCents == ApplyRule(o.prices[i].priceCents, rules.markupBps, false)
  }

  lemma {:induction false} OptionsAreShown(rules: Rules, options: seq<BankOption>)
    ensures |OptionsOf(rules, options)| == |options|
    ensures forall i :: 0 <= i < |options| ==> OptionShown(rules, options[i], OptionsOf(rules, options)[i])
    decreases |options|
  {
    hide ApplyRule, OptionShown;
    if options != [] {
      OptionsAreShown(rules, options[..|options|-1]);
      assert OptionShown(rules, options[|options|-1], OptionsOf(rules, options)[|options|-1]) by { AnOptionIsShown(rules, options); }
    }
  }

  lemma AnOptionIsShown(rules: Rules, options: seq<BankOption>)
    requires options != [] && |OptionsOf(rules, options[..|options|-1])| == |options| - 1
    ensures OptionShown(rules, options[|options|-1], OptionsOf(rules, options)[|options|-1])
  {
    hide ApplyRule;
    AsManyPrices(rules, options[|options|-1].prices);
  }

  lemma {:induction false} AsManyPrices(rules: Rules, prices: seq<OptionPrice>)
    ensures |PricesOf(rules, prices)| == |prices|
    ensures forall i :: 0 <= i < |prices| ==>
              PricesOf(rules, prices)[i] == OptionPrice(prices[i].sizeId, ApplyRule(prices[i].priceCents, rules.markupBps, false))
    decreases |prices|
  {
    hide ApplyRule;
    if prices != [] { AsManyPrices(rules, prices[..|prices|-1]); }
  }

  /** Items are marked up and lifted to 99 where the view says so; options are marked up only. */
  lemma HowPricesAreRounded(rules: Rules, cents: int)
    requires cents > 0 && ValidRules(rules)
    ensures var item, option := PriceOf(rules, cents), OptionPriceOf(rules, cents);
      && 10000 * (option - 1) < cents * (10000 + rules.markupBps) <= 10000 * option
      && (rules.ceil99 ==> item % 100 == 99 && option <= item < option + 100)
      && (!rules.ceil99 ==> item == option)
  {
    hide ApplyRule;
    MarkupRoundsUp(cents, rules.markupBps);
    RoundingGoesUpToThe99(cents, rules.markupBps);
  }

  // --- merges and augments --------------------------------------------------------------------------

  /** The anchors of a merge that can be chosen: known to the bank, on sale, and not hidden by the view. */
  function Choosable(plan: Plan, ids: seq<Id>): seq<Id> {
    if ids == [] then []
    else
      (if FindStock(AllStock(plan.bank), ids[0]).Some? && CanSell(plan, ids[0]) && ids[0] !in plan.viewHidden
       then [ids[0]] else [])
      + Choosable(plan, ids[1..])
  }

  lemma {:induction false} OneAnchorMore(plan: Plan, ids: seq<Id>, id: Id)
    ensures Choosable(plan, ids + [id]) == Choosable(plan, ids)
      + if FindStock(AllStock(plan.bank), id).Some? && CanSell(plan, id) && id !in plan.viewHidden then [id] else []
  {
    hide AllStock, FindStock, CanSell;
    if ids == [] {
      assert [id][1..] == [] && [] + [id] == [id];
    } else {
      assert (ids + [id])[1..] == ids[1..] + [id];
      OneAnchorMore(plan, ids[1..], id);
    }
  }

  /** Is the choice the bank's item, under the entry's label if it has one, at the rule's prices? */
  ghost predicate ChoiceShown(plan: Plan, e: Entry, c: BuildChoice) {
    var found := FindStock(AllStock(plan.bank), c.itemId);
    && found.Some?
    && var it := found.value.item;
      && c.priceCents == PriceOf(plan.rules, it.priceCents) && SizesShown(plan.bank, plan.rules, it.sizes, map[], c.sizes)
      && c.name == (if it.id in e.labels && Trim(e.labels[it.id]) != "" then Trim(e.labels[it.id]) else it.name)
  }

  /** What can be chosen, of the bank, the rules and the entries: on sale, in a category the view keeps, and not hidden. */
  lemma WhatCanBeChosen(bank: Bank, rules: Rules, entries: seq<Entry>, s: Stock)
    requires UniqueIds(AllStock(bank), entries) && s in AllStock(bank)
    ensures var plan, id := PlanOf(bank, rules, entries), s.item.id;
      CanSell(plan, id) && id !in plan.viewHidden <==>
        && s.aisle.menuOn && s.aisle.category.available && s.aisle.category.id !in rules.hiddenCategories
        && forall i :: Counts(entries, i, id) ==> !entries[i].hidden
  {
    hide AllStock, FindStock, ByItem, BankCats, CatPos, Merged;
    var stock, id := AllStock(bank), s.item.id;
    OnlyItsOwn(stock, s);
    SellableIsItsOwn(stock, s);
    FoundById(stock, s);
    ByItemIsTheLast(bank, entries, id);
    if id in ByItem(bank, entries) {
      var i :| Counts(entries, i, id) && entries[i] == ByItem(bank, entries)[id];
      assert forall j :: Counts(entries, j, id) ==> j == i;
    } else {
      forall i ensures !Counts(entries, i, id) { assert 0 <= i < |entries| ==> entries[i] in entries; }
    }
  }

  lemma OnlyItsOwn(stock: seq<Stock>, s: Stock)
    requires s in stock && forall i, j :: 0 <= i < j < |stock| ==> stock[i].item.id != stock[j].item.id
    ensures forall t <- stock :: t.item.id == s.item.id ==> t == s
  {
  }

  lemma {:induction false} SellableIsItsOwn(stock: seq<Stock>, s: Stock)
    requires s in stock && forall t <- stock :: t.item.id == s.item.id ==> t == s
    ensures s.item.id in Sellable(stock) && Sellable(stock)[s.item.id] == s.aisle.On()
    decreases |stock|
  {
    if stock[|stock|-1].item.id != s.item.id { SellableIsItsOwn(stock[..|stock|-1], s); }
  }

  /** A merge's choices are its choosable anchors, in their order, and its first item is the first of them. */
  lemma {:induction false} ChoicesAreTheAnchors(plan: Plan, e: Entry, ids: seq<Id>)
    ensures var m, choosable := MergeAnchors(plan, e, ids), Choosable(plan, ids);
      && |m.choices| == |choosable|
      && (forall i :: 0 <= i < |choosable| ==> m.choices[i].itemId == choosable[i] && ChoiceShown(plan, e, m.choices[i]))
      && (m.first.Some? <==> choosable != [])
      && (choosable != [] ==> m.first == FindStock(AllStock(plan.bank), choosable[0]))
    decreases |ids|
  {
    hide AllStock, FindStock, CanSell, ChoiceShown, ChoiceOf;
    if ids != [] {
      var init, id := ids[..|ids|-1], ids[|ids|-1];
      ChoicesAreTheAnchors(plan, e, init);
      OneAnchorMore(plan, init, id);
      assert ids == init + [id];
      if FindStock(AllStock(plan.bank), id).Some? { AChoiceIsShown(plan, e, id); }
    }
  }

  lemma AChoiceIsShown(plan: Plan, e: Entry, id: Id)
    requires FindStock(AllStock(plan.bank), id).Some?
    ensures var c := ChoiceOf(plan, e, FindStock(AllStock(plan.bank), id).value.item);
      c.itemId == id && ChoiceShown(plan, e, c)
  {
    hide AllStock, FindStock, PriceOf, SizesOf, SizesShown, Trim;
    SizesAreShown(plan.bank, plan.rules, FindStock(AllStock(plan.bank), id).value.item.sizes, map[]);
  }

  /**
   * A merge shows when it has two anchors or more, one can be chosen, and it has a place: under its name or its first
   * item's, at its own price or the rule's, with the first item's sizes and groups.
   */
  lemma WhatAMergeShows(plan: Plan, e: Entry)
    requires e.kind == MergeEntry
    ensures var choosable, first := Choosable(plan, e.itemIds), MergeAnchors(plan, e, e.itemIds).first;
      && (Adds(plan, e).Some? <==> |e.itemIds| >= 2 && choosable != [] && EntrySpot(plan, e, first).Some?)
      && (choosable != [] ==> first.Some? && first == FindStock(AllStock(plan.bank), choosable[0]))
      && (Adds(plan, e).Some? && first.Some? ==>
            var bi, it := Adds(plan, e).value, first.value.item;
            && bi.id == e.id && bi.photo == e.photo && bi.position == e.position && bi.anchor == e.itemIds
            && bi.name == (if Trim(e.displayName) == "" then it.name else Trim(e.displayName))
            && bi.priceCents == (match e.priceOverrideCents case None => PriceOf(plan.rules, it.priceCents) case Some(p) => p)
            && SizesShown(plan.bank, plan.rules, it.sizes, map[], bi.sizes)
            && bi.groupIds == KnownGroups(plan.bank, it.groupIds)
            && |bi.choices| == |choosable|
            && forall i :: 0 <= i < |choosable| ==>
                 bi.choices[i].itemId == choosable[i] && ChoiceShown(plan, e, bi.choices[i]))
  {
    hide AllStock, FindStock, CanSell, ChoiceShown, MergeAnchors, Choosable, PriceOf, SizesOf, SizesShown, Trim, EntrySpot;
    ChoicesAreTheAnchors(plan, e, e.itemIds);
    var first := MergeAnchors(plan, e, e.itemIds).first;
    if first.Some? { SizesAreShown(plan.bank, plan.rules, first.value.item.sizes, map[]); }
  }

  /** An augment stands or falls with its anchors: all known and on sale, or nothing of it. */
  lemma {:induction false} AugmentsNeedAllAnchors(plan: Plan, ids: seq<Id>)
    ensures AugmentAnchors(plan, ids).Some?
       <==> forall id <- ids :: FindStock(AllStock(plan.bank), id).Some? && CanSell(plan, id)
    ensures AugmentAnchors(plan, ids).Some? && ids != [] ==>
      AugmentAnchors(plan, ids).value.first == FindStock(AllStock(plan.bank), ids[0])
    ensures AugmentAnchors(plan, ids).Some? && ids == [] ==> AugmentAnchors(plan, ids).value.first == None
    decreases |ids|
  {
    hide AllStock, FindStock, CanSell;
    if ids != [] {
      var init, last := ids[..|ids|-1], ids[|ids|-1];
      AugmentsNeedAllAnchors(plan, init);
      assert last in ids && (forall id <- init :: id in ids) && forall id <- ids :: id in init || id == last;
    }
  }

  /** What an augment shows: a name and a price of its own, no sizes, groups or choices, and the anchors it stands for. */
  lemma WhatAnAugmentShows(plan: Plan, e: Entry)
    requires e.kind == AugmentEntry
    ensures Adds(plan, e).Some? <==>
      && Trim(e.displayName) != "" && e.priceOverrideCents.Some? && e.itemIds != []
      && (forall id <- e.itemIds :: FindStock(AllStock(plan.bank), id).Some? && CanSell(plan, id))
      && EntrySpot(plan, e, FindStock(AllStock(plan.bank), e.itemIds[0])).Some?
    ensures Adds(plan, e).Some? ==>
      var bi := Adds(plan, e).value;
      && bi.id == e.id && bi.name == Trim(e.displayName) && Some(bi.priceCents) == e.priceOverrideCents
      && bi.photo == e.photo && bi.position == e.position && bi.anchor == e.itemIds
      && bi.sizes == [] && bi.groupIds == [] && bi.choices == []
  {
    hide AllStock, FindStock, CanSell, AugmentAnchors, Trim, EntrySpot;
    AugmentsNeedAllAnchors(plan, e.itemIds);
  }

  /** Only merges and augments add anything; a hidden one, or one without a name for a category and a hidden first, does not. */
  lemma WhatAddsNothing(plan: Plan, e: Entry)
    ensures (e.kind == ItemEntry || e.kind == MapEntry || e.hidden) ==> Adds(plan, e) == None
    ensures !e.hidden && Trim(e.category) == "" && Adds(plan, e).Some? ==>
      exists s <- AllStock(plan.bank) :: s.aisle.category.id in plan.catPos && s.item.id in e.itemIds
  {
    hide AllStock, FindStock, CanSell, Trim, MergeShown, AugmentShown;
    FirstIsAnAnchor(plan, e, e.itemIds);
    hide MergeAnchors, AugmentAnchors;
  }

  lemma {:induction false} FirstIsAnAnchor(plan: Plan, e: Entry, ids: seq<Id>)
    ensures var m, a := MergeAnchors(plan, e, ids), AugmentAnchors(plan, ids);
      && (m.first.Some? ==> m.first.value in AllStock(plan.bank) && m.first.value.item.id in ids)
      && (a.Some? && a.value.first.Some? ==>
            a.value.first.value in AllStock(plan.bank) && a.value.first.value.item.id in ids)
    decreases |ids|
  {
    hide AllStock, CanSell, ChoiceOf;
    if ids != [] { FirstIsAnAnchor(plan, e, ids[..|ids|-1]); }
  }

  /** The places of the categories the view shows, by id. */
  lemma {:induction false} PlacesAreOfShownCategories(rules: Rules, aisles: seq<Aisle>, id: Id)
    ensures id in CatPos(rules, aisles) <==> exists a <- aisles :: a.category.id == id && Shows(rules, a)
    decreases |aisles|
  {
    hide Shows;
    if aisles != [] {
      PlacesAreOfShownCategories(rules, aisles[..|aisles|-1], id);
      assert aisles == aisles[..|aisles|-1] + [aisles[|aisles|-1]];
    }
  }

  /** What an entry adds goes to the category it names, or to its first item's; a hidden one goes nowhere, nor does one that
   *  names none when the view does not show that. */
  lemma WhereAnAdditionGoes(bank: Bank, rules: Rules, entries: seq<Entry>, e: Entry, first: Option<Stock>)
    ensures var spot := EntrySpot(PlanOf(bank, rules, entries), e, first);
      var shown := first.Some? && exists a <- Aisles(bank.menus) ::
        a.category.id == first.value.aisle.category.id && a.menuOn && a.category.available
        && a.category.id !in rules.hiddenCategories;
      && (spot.Some? <==> !e.hidden && (Trim(e.category) != "" || shown))
      && (spot.Some? && Trim(e.category) == "" ==>
            spot.value.key == BankKey(first.value.aisle.category.id) && spot.value.name == first.value.aisle.category.name)
  {
    hide AllStock, ByItem, Sellable, ViewHidden, BankCats, Merged, Aisles, Trim, NamedSpot, CatPos;
    if first.Some? { PlacesAreOfShownCategories(rules, Aisles(bank.menus), first.value.aisle.category.id); }
  }
}
