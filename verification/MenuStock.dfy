/** What is out of stock at the bank is sold out on the menu, and nothing else is: said of what can be ordered. */
module MenuStock {
  import opened Options
  import opened Sequences
  import opened MenuBuild
  import opened MenuBank
  import opened MenuView
  import opened MenuPlacement
  import opened PricingTypes
  import opened PricingItem
  import opened PricingRules
  import opened CompiledPrices

  /** The bank has the item in stock. */
  ghost predicate InStock(bank: Bank, id: Id) {
    exists s <- AllStock(bank) :: s.item.id == id && s.item.inStock
  }

  lemma FoundInStock(bank: Bank, entries: seq<Entry>, id: Id)
    requires UniqueIds(AllStock(bank), entries) && FindStock(AllStock(bank), id).Some?
    ensures InStock(bank, id) <==> FindStock(AllStock(bank), id).value.item.inStock
  {
    hide AllStock, FindStock;
    var s := FindStock(AllStock(bank), id).value;
    if t :| t in AllStock(bank) && t.item.id == id && t.item.inStock {
      var i :| 0 <= i < |AllStock(bank)| && AllStock(bank)[i] == s;
      var j :| 0 <= j < |AllStock(bank)| && AllStock(bank)[j] == t;
      assert i == j;
    }
  }

  lemma {:induction false} ChoicesShowTheirStock(plan: Plan, entries: seq<Entry>, e: Entry, ids: seq<Id>)
    requires UniqueIds(AllStock(plan.bank), entries)
    ensures var m := MergeAnchors(plan, e, ids);
      && (forall c <- m.choices :: c.soldOut <==> !InStock(plan.bank, c.itemId))
      && (m.allOut <==> forall c <- m.choices :: c.soldOut)
    decreases |ids|
  {
    hide AllStock, FindStock, SizesOf, PriceOf, InStock, UniqueIds, CanSell;
    if ids != [] {
      var init, id := ids[..|ids|-1], ids[|ids|-1];
      ChoicesShowTheirStock(plan, entries, e, init);
      if FindStock(AllStock(plan.bank), id).Some? { FoundInStock(plan.bank, entries, id); }
    }
  }

  lemma {:induction false} AugmentsShowTheirStock(plan: Plan, entries: seq<Entry>, ids: seq<Id>)
    requires UniqueIds(AllStock(plan.bank), entries) && AugmentAnchors(plan, ids).Some?
    ensures AugmentAnchors(plan, ids).value.soldOut <==> exists id <- ids :: !InStock(plan.bank, id)
    decreases |ids|
  {
    hide AllStock, FindStock, InStock, UniqueIds, CanSell;
    if ids != [] {
      var init, id := ids[..|ids|-1], ids[|ids|-1];
      AugmentsShowTheirStock(plan, entries, init);
      FoundInStock(plan.bank, entries, id);
      assert ids == init + [id];
    }
  }

  /**
   * A choice shows as sold out when its bank item is out, a merge when all its choices are, and anything else when one of
   * the bank items it stands for is out.
   */
  lemma WhatShowsAsSoldOut(bank: Bank, rules: Rules, entries: seq<Entry>, bi: BuildItem)
    requires UniqueIds(AllStock(bank), entries)
    requires bi in AllItems(Compiled(bank, rules, entries).categories)
    ensures forall c <- bi.choices :: c.soldOut <==> !InStock(bank, c.itemId)
    ensures bi.choices != [] ==> (bi.soldOut <==> forall c <- bi.choices :: c.soldOut)
    ensures bi.choices == [] ==> (bi.soldOut <==> exists id <- bi.anchor :: !InStock(bank, id))
  {
    hide AllStock, AllItems, Compiled, PlanOf, MergeAnchors, AugmentAnchors, EntrySpot, UniqueIds, InStock, ShownAlone,
         ItemShown;
    var plan := PlanOf(bank, rules, entries);
    PlanKeepsBankAndRules(bank, rules, entries);
    WhereItemsComeFrom(bank, rules, entries, bi);
    if s :| s in AllStock(bank) && ShownAlone(plan, s) && bi == ItemShown(plan, s.item) {
      ShownShowsItsStock(bank, entries, plan, s);
    } else {
      var e :| e in entries && Adds(plan, e) == Some(bi);
      MergesHaveChoices(plan, e, e.itemIds);
      ChoicesShowTheirStock(plan, entries, e, e.itemIds);
      if e.kind == AugmentEntry { AugmentsShowTheirStock(plan, entries, e.itemIds); }
    }
  }

  lemma ShownShowsItsStock(bank: Bank, entries: seq<Entry>, plan: Plan, s: Stock)
    requires UniqueIds(AllStock(bank), entries) && s in AllStock(bank)
    ensures var bi := ItemShown(plan, s.item);
      bi.choices == [] && bi.anchor == [s.item.id] && (bi.soldOut <==> !InStock(bank, s.item.id))
  {
    hide AllStock, SizesOf, PriceOf, KnownGroups;
    if t :| t in AllStock(bank) && t.item.id == s.item.id && t.item.inStock {
      var i :| 0 <= i < |AllStock(bank)| && AllStock(bank)[i] == s;
      var j :| 0 <= j < |AllStock(bank)| && AllStock(bank)[j] == t;
      assert i == j;
    }
  }

  // --- options ----------------------------------------------------------------------------------

  /** The bank option a pick names, in stock or out. */
  predicate OptionIs(bank: Bank, pk: Pick, inStock: bool) {
    && pk.groupId in bank.groups
    && match FindBankOption(bank.groups[pk.groupId].options, pk.optionId)
       case None => false
       case Some(o) => o.inStock == inStock
  }

  /** A pick the menu knows names a bank option, and is sold out exactly when that is out. */
  lemma OptionsShowTheirStock(bank: Bank, rules: Rules, entries: seq<Entry>, g: BuildGroup, pk: Pick)
    requires WellFiled(bank) && FindGroup(Compiled(bank, rules, entries).groups, pk.groupId) == Some(g)
    ensures IsKnown(g, pk) ==> OptionIs(bank, pk, !IsOut(g, pk))
  {
    hide Compiled, WellFiled, OptionPriceOf, PriceForSize, PricesOf, FindOption, FindBankOption, FindGroup;
    OptionsCostTheMarkup(bank, rules, entries, pk.groupId, pk.optionId, NO_ID);
    OptionsComeFromTheBank(rules, bank.groups[pk.groupId].options, pk.optionId);
  }

  // --- what can be ordered ------------------------------------------------------------------------

  /** The bank items behind what is priced are in stock: its own, or all of an augment's. */
  ghost predicate BehindIsInStock(bank: Bank, entries: seq<Entry>, sel: Selection, p: Priced) {
    if p.bankItem != NO_ID then InStock(bank, p.bankItem)
    else exists e <- entries :: e.kind == AugmentEntry && e.id == sel.itemId && forall id <- e.itemIds :: InStock(bank, id)
  }

  ghost predicate BehindIsOut(bank: Bank, entries: seq<Entry>, sel: Selection, p: Priced) {
    if p.bankItem != NO_ID then !InStock(bank, p.bankItem)
    else exists e <- entries :: e.kind == AugmentEntry && e.id == sel.itemId && exists id <- e.itemIds :: !InStock(bank, id)
  }

  /** What is offered is sold out exactly when what is behind it is out. */
  lemma OffersShowTheirStock(bank: Bank, rules: Rules, entries: seq<Entry>, sel: Selection, free: int, it: BuildItem)
    requires UniqueIds(AllStock(bank), entries)
    requires FindItem(AllItems(Compiled(bank, rules, entries).categories), sel.itemId) == Some(it)
    requires OfferOf(it, sel.choiceId).Some?
    ensures var offer, p := OfferOf(it, sel.choiceId).value, PriceItem(Compiled(bank, rules, entries), sel, free);
      if offer.soldOut then BehindIsOut(bank, entries, sel, p) else BehindIsInStock(bank, entries, sel, p)
  {
    hide Compiled, AllItems, PlanOf, PriceItem, AllStock, UniqueIds, InStock;
    var menu := Compiled(bank, rules, entries);
    ConfigureKeepsTheItems(menu, sel, free);
    WhatShowsAsSoldOut(bank, rules, entries, it);
    OffersAreSoldOut(it, sel.choiceId);
    WhatShowsIsOnSale(bank, rules, entries, it);
    TheAugment(bank, rules, entries, it);
    hide OfferOf;
  }

  lemma OffersAreSoldOut(it: BuildItem, choiceId: Id)
    requires OfferOf(it, choiceId).Some?
    ensures var offer := OfferOf(it, choiceId).value;
      if it.choices != [] then exists c <- it.choices :: c.itemId == offer.bankItem && c.soldOut == offer.soldOut
      else offer.soldOut == it.soldOut
           && offer.bankItem == if it.anchor != [] && it.anchor[0] == it.id then it.id else NO_ID
  {
  }

  /** An item without choices that is not its own bank item is an augment, and stands for its anchors. */
  lemma TheAugment(bank: Bank, rules: Rules, entries: seq<Entry>, bi: BuildItem)
    requires UniqueIds(AllStock(bank), entries)
    requires bi in AllItems(Compiled(bank, rules, entries).categories)
    ensures bi.choices != []
         || (bi.anchor == [bi.id] && bi.id != NO_ID)
         || (exists e <- entries :: e.kind == AugmentEntry && e.id == bi.id && e.itemIds == bi.anchor
                                    && (bi.anchor != [] ==> bi.anchor[0] != bi.id))
    ensures forall c <- bi.choices :: c.itemId != NO_ID
  {
    hide AllStock, AllItems, Compiled, PlanOf, ItemShown, MergeAnchors, AugmentAnchors, EntrySpot, ShownAlone;
    var plan := PlanOf(bank, rules, entries);
    PlanKeepsBankAndRules(bank, rules, entries);
    WhereItemsComeFrom(bank, rules, entries, bi);
    WhatShowsIsOnSale(bank, rules, entries, bi);
    if s :| s in AllStock(plan.bank) && ShownAlone(plan, s) && bi == ItemShown(plan, s.item) {
      ShownKeepsTheId(plan, s.item);
    } else {
      var e :| e in entries && Adds(plan, e) == Some(bi);
      MergesHaveChoices(plan, e, e.itemIds);
      if bi.choices == [] {
        assert e.kind == AugmentEntry && e.id == bi.id && e.itemIds == bi.anchor;
        assert OnSale(bank, bi.anchor[0]);
        var t :| t in AllStock(bank) && t.item.id == bi.anchor[0];
        assert t.item.id != e.id;
      }
    }
  }

  /** What can be ordered is in stock: the bank item behind it, or all of an augment's, and every option picked. */
  lemma WhatCanBeOrderedIsInStock(bank: Bank, rules: Rules, entries: seq<Entry>, sel: Selection, free: int)
    requires UniqueIds(AllStock(bank), entries) && WellFiled(bank)
    requires PriceItem(Compiled(bank, rules, entries), sel, free).issues == []
    ensures BehindIsInStock(bank, entries, sel, PriceItem(Compiled(bank, rules, entries), sel, free))
    ensures forall pk <- sel.options :: OptionIs(bank, pk, true)
  {
    hide Compiled, AllItems, PriceItem, AllStock, UniqueIds, WellFiled, BehindIsInStock, BehindIsOut, OfferOf, FindItem,
         SizeFound, GroupHas, OptionIs;
    var menu := Compiled(bank, rules, entries);
    WhenAnItemCanBeOrdered(menu, sel, free);
    var it := FindItem(AllItems(menu.categories), sel.itemId).value;
    assert !ItemHas(menu, sel, it, OptionRules) && !ItemHas(menu, sel, it, UnknownSize);
    assert !ItemHas(menu, sel, it, SoldOut) && !ItemHas(menu, sel, it, UnknownOption);
    OffersShowTheirStock(bank, rules, entries, sel, free, it);
    forall pk <- sel.options ensures OptionIs(bank, pk, true) {
      PickedIsInStock(bank, rules, entries, sel, it, pk);
    }
  }

  lemma PickedIsInStock(bank: Bank, rules: Rules, entries: seq<Entry>, sel: Selection, it: BuildItem, pk: Pick)
    requires WellFiled(bank) && it in AllItems(Compiled(bank, rules, entries).categories)
    requires pk in sel.options && pk.groupId in it.groupIds
    requires !GroupHas(Compiled(bank, rules, entries), sel.options, pk.groupId, SoldOut)
    requires !GroupHas(Compiled(bank, rules, entries), sel.options, pk.groupId, UnknownOption)
    ensures OptionIs(bank, pk, true)
  {
    hide Compiled, AllItems, WellFiled, PicksIn, OptionIs, IsKnown, IsOut;
    var menu := Compiled(bank, rules, entries);
    GroupsAreListedOnce(bank, rules, entries);
    assert FindGroup(menu.groups, pk.groupId).Some?;
    var g := FindGroup(menu.groups, pk.groupId).value;
    PicksOfAGroup(sel.options, pk.groupId, pk);
    OptionsShowTheirStock(bank, rules, entries, g, pk);
  }

  /** And what is refused as sold out is out: the bank item behind it, one of an augment's, or an option picked. */
  lemma WhatIsSoldOutIsOut(bank: Bank, rules: Rules, entries: seq<Entry>, sel: Selection, free: int)
    requires UniqueIds(AllStock(bank), entries) && WellFiled(bank)
    requires SoldOut in PriceItem(Compiled(bank, rules, entries), sel, free).issues
    ensures BehindIsOut(bank, entries, sel, PriceItem(Compiled(bank, rules, entries), sel, free))
         || exists pk <- sel.options :: OptionIs(bank, pk, false)
  {
    hide Compiled, AllItems, PriceItem, AllStock, UniqueIds, WellFiled, BehindIsInStock, BehindIsOut, OfferOf, FindItem,
         SizeFound, FindGroup, PicksIn, IsKnown, OptionIs;
    var menu := Compiled(bank, rules, entries);
    WhyAnItemCannotBeOrdered(menu, sel, free, SoldOut);
    var it := FindItem(AllItems(menu.categories), sel.itemId).value;
    OffersShowTheirStock(bank, rules, entries, sel, free, it);
    if gid :| gid in it.groupIds && GroupHas(menu, sel.options, gid, SoldOut) {
      var g := FindGroup(menu.groups, gid).value;
      var pk :| pk in PicksIn(sel.options, gid) && IsOut(g, pk);
      PicksOfAGroup(sel.options, gid, pk);
      assert IsKnown(g, pk);
      OptionsShowTheirStock(bank, rules, entries, g, pk);
    }
  }
}
