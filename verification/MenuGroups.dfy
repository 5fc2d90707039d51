/** Which modifier groups a compiled menu lists, and when it lists one that no shown item uses. */
module MenuGroups {
  import opened Options
  import opened Sequences
  import opened MenuBuild
  import opened MenuBank
  import opened MenuView
  import opened MenuPlacement
  import opened Text

  /** A merge that can be sold, and so has its first item's groups listed. */
  predicate Sells(plan: Plan, e: Entry) {
    e.kind == MergeEntry && |e.itemIds| >= 2 && MergeAnchors(plan, e, e.itemIds).first.Some?
  }

  function MergeGroups(plan: Plan, e: Entry): seq<Id>
    requires Sells(plan, e)
  {
    KnownGroups(plan.bank, MergeAnchors(plan, e, e.itemIds).first.value.item.groupIds)
  }

  /** A merge that can be sold but has no place to go: it is hidden, or its category is. */
  predicate Unplaced(plan: Plan, e: Entry) {
    Sells(plan, e) && EntrySpot(plan, e, MergeAnchors(plan, e, e.itemIds).first) == None
  }

  ghost predicate OfItem(plan: Plan, stock: seq<Stock>, gid: Id) {
    exists s <- stock :: ShownAlone(plan, s) && gid in KnownGroups(plan.bank, s.item.groupIds)
  }

  ghost predicate OfMerge(plan: Plan, entries: seq<Entry>, gid: Id) {
    exists e <- entries :: Sells(plan, e) && gid in MergeGroups(plan, e)
  }

  // --- what is listed ---------------------------------------------------------------------------

  /** The groups of the items that show alone, as they come. */
  function ItemUses(plan: Plan, stock: seq<Stock>): seq<Id>
    decreases |stock|
  {
    if stock == [] then []
    else
      var s := stock[|stock|-1];
      ItemUses(plan, stock[..|stock|-1]) + if ShownAlone(plan, s) then KnownGroups(plan.bank, s.item.groupIds) else []
  }

  /** The groups of the merges that can be sold, placed or not, as they come. */
  function MergeUses(plan: Plan, entries: seq<Entry>): seq<Id>
    decreases |entries|
  {
    if entries == [] then []
    else
      var e := entries[|entries|-1];
      MergeUses(plan, entries[..|entries|-1]) + if Sells(plan, e) then MergeGroups(plan, e) else []
  }

  function GroupIds(groups: seq<BuildGroup>): seq<Id> {
    seq(|groups|, i requires 0 <= i < |groups| => groups[i].id)
  }

  /** The groups used so far are listed, each once, in the order they first were. */
  ghost predicate ListsUses(l: Listing, uses: seq<Id>) {
    GroupIds(l.groups) == Firsts(uses) && forall id :: id in l.seen <==> id in uses
  }

  lemma OneUseMore(l: Listing, uses: seq<Id>, g: BuildGroup)
    requires ListsUses(l, uses)
    ensures ListsUses(if g.id in l.seen then l else Listing(l.seen + {g.id}, l.groups + [g]), uses + [g.id])
  {
    assert (uses + [g.id])[..|uses|] == uses;
    assert GroupIds(l.groups + [g]) == GroupIds(l.groups) + [g.id];
  }

  lemma {:induction false} GroupsListUses(bank: Bank, rules: Rules, l: Listing, uses: seq<Id>, ids: seq<Id>)
    requires WellFiled(bank) && ListsUses(l, uses)
    ensures ListsUses(ListGroups(bank, rules, l, ids), uses + KnownGroups(bank, ids))
    decreases |ids|
  {
    hide ListsUses;
    if ids == [] {
      assert uses + [] == uses;
    } else {
      var init, id := ids[..|ids|-1], ids[|ids|-1];
      GroupsListUses(bank, rules, l, uses, init);
      var before := uses + KnownGroups(bank, init);
      if id in bank.groups {
        OneUseMore(ListGroups(bank, rules, l, init), before, GroupOf(rules, bank.groups[id]));
        assert before + [id] == uses + KnownGroups(bank, ids);
      } else {
        assert before == uses + KnownGroups(bank, ids);
      }
    }
  }

  lemma {:induction false} ItemsListUses(plan: Plan, w: Work, stock: seq<Stock>)
    requires WellFiled(plan.bank) && ListsUses(w.listing, [])
    ensures ListsUses(PlaceItems(plan, w, stock).listing, ItemUses(plan, stock))
    decreases |stock|
  {
    hide ListsUses, WellFiled, ShownAlone, KnownGroups, Put, Opened, TargetOf, ItemShown, ListGroups;
    if stock != [] {
      var init, last := stock[..|stock|-1], stock[|stock|-1];
      ItemsListUses(plan, w, init);
      GroupsListUses(plan.bank, plan.rules, PlaceItems(plan, w, init).listing, ItemUses(plan, init), last.item.groupIds);
      assert ItemUses(plan, init) + [] == ItemUses(plan, init);
    }
  }

  lemma EntryListsUses(plan: Plan, w: Work, uses: seq<Id>, e: Entry)
    requires WellFiled(plan.bank) && ListsUses(w.listing, uses)
    ensures ListsUses(PlaceEntry(plan, w, e).listing, uses + if Sells(plan, e) then MergeGroups(plan, e) else [])
  {
    hide ListsUses, WellFiled, MergeAnchors, AugmentAnchors, EntrySpot, PutAt, KnownGroups, ListGroups, GoodAugment;
    if Sells(plan, e) {
      GroupsListUses(plan.bank, plan.rules, w.listing, uses,
                     MergeAnchors(plan, e, e.itemIds).first.value.item.groupIds);
    } else {
      assert uses + [] == uses;
    }
  }

  lemma {:induction false} EntriesListUses(plan: Plan, w: Work, uses: seq<Id>, entries: seq<Entry>)
    requires WellFiled(plan.bank) && ListsUses(w.listing, uses)
    ensures ListsUses(PlaceEntries(plan, w, entries).listing, uses + MergeUses(plan, entries))
    decreases |entries|
  {
    hide ListsUses, WellFiled, Sells, MergeGroups, PlaceEntry;
    if entries == [] {
      assert uses + [] == uses;
    } else {
      var init, last := entries[..|entries|-1], entries[|entries|-1];
      EntriesListUses(plan, w, uses, init);
      EntryListsUses(plan, PlaceEntries(plan, w, init), uses + MergeUses(plan, init), last);
      var more := if Sells(plan, last) then MergeGroups(plan, last) else [];
      assert uses + MergeUses(plan, init) + more == uses + MergeUses(plan, entries);
    }
  }

  /** The groups are listed in the order first used: by the items that show alone, then by the merges. */
  lemma GroupsAreListedAsUsed(bank: Bank, rules: Rules, entries: seq<Entry>)
    requires WellFiled(bank)
    ensures var plan := PlanOf(bank, rules, entries);
            GroupIds(Compiled(bank, rules, entries).groups)
            == Firsts(ItemUses(plan, AllStock(bank)) + MergeUses(plan, entries))
  {
    hide PlanOf, PlaceItems, PlaceEntries, AllStock, Filled, WellFiled, ItemUses, MergeUses, SortBy;
    var plan, stock := PlanOf(bank, rules, entries), AllStock(bank);
    PlanKeepsBankAndRules(bank, rules, entries);
    assert ListsUses(EMPTY.listing, []);
    ItemsListUses(plan, EMPTY, stock);
    EntriesListUses(plan, PlaceItems(plan, EMPTY, stock), ItemUses(plan, stock), entries);
  }

  lemma {:induction false} UsedByItems(plan: Plan, stock: seq<Stock>, gid: Id)
    ensures gid in ItemUses(plan, stock) <==> OfItem(plan, stock, gid)
    decreases |stock|
  {
    hide ShownAlone, KnownGroups;
    if stock != [] {
      UsedByItems(plan, stock[..|stock|-1], gid);
      assert stock == stock[..|stock|-1] + [stock[|stock|-1]];
    }
  }

  lemma {:induction false} UsedByMerges(plan: Plan, entries: seq<Entry>, gid: Id)
    ensures gid in MergeUses(plan, entries) <==> OfMerge(plan, entries, gid)
    decreases |entries|
  {
    hide Sells, MergeGroups;
    if entries != [] {
      UsedByMerges(plan, entries[..|entries|-1], gid);
      assert entries == entries[..|entries|-1] + [entries[|entries|-1]];
    }
  }

  /** The groups listed are those of the items that show alone and of the merges that can be sold, placed or not. */
  lemma WhatIsListed(bank: Bank, rules: Rules, entries: seq<Entry>, gid: Id)
    requires WellFiled(bank)
    ensures (exists g <- Compiled(bank, rules, entries).groups :: g.id == gid)
       <==> OfItem(PlanOf(bank, rules, entries), AllStock(bank), gid) || OfMerge(PlanOf(bank, rules, entries), entries, gid)
  {
    hide PlanOf, AllStock, Compiled, WellFiled, OfItem, OfMerge, ItemUses, MergeUses, Firsts;
    var plan, groups := PlanOf(bank, rules, entries), Compiled(bank, rules, entries).groups;
    GroupsAreListedAsUsed(bank, rules, entries);
    UsedByItems(plan, AllStock(bank), gid);
    UsedByMerges(plan, entries, gid);
    var uses := ItemUses(plan, AllStock(bank)) + MergeUses(plan, entries);
    assert gid in Firsts(uses) <==> gid in uses;
    if gid in GroupIds(groups) {
      var i :| 0 <= i < |groups| && GroupIds(groups)[i] == gid;
      assert groups[i] in groups;
    }
    if g :| g in groups && g.id == gid {
      var i :| 0 <= i < |groups| && groups[i] == g;
      assert GroupIds(groups)[i] == gid;
    }
  }

  // --- what is used -----------------------------------------------------------------------------

  /** Some item that the bank, the rules and the entries put on the menu has the group. */
  ghost predicate OnSomeItem(plan: Plan, entries: seq<Entry>, gid: Id) {
    exists bi :: Comes(plan, entries, bi) && gid in bi.groupIds
  }

  lemma AloneIsOnSomeItem(plan: Plan, entries: seq<Entry>, gid: Id)
    requires OfItem(plan, AllStock(plan.bank), gid)
    ensures OnSomeItem(plan, entries, gid)
  {
    hide ShownAlone, ItemShown, KnownGroups, AllStock, Adds;
    var s :| s in AllStock(plan.bank) && ShownAlone(plan, s) && gid in KnownGroups(plan.bank, s.item.groupIds);
    ShownKeepsTheId(plan, s.item);
    assert Comes(plan, entries, ItemShown(plan, s.item));
  }

  lemma PlacedIsOnSomeItem(plan: Plan, entries: seq<Entry>, e: Entry, gid: Id)
    requires e in entries && Sells(plan, e) && !Unplaced(plan, e) && gid in MergeGroups(plan, e)
    ensures OnSomeItem(plan, entries, gid)
  {
    hide ShownAlone, ItemShown, KnownGroups, AllStock, MergeAnchors, EntrySpot;
    assert Adds(plan, e).Some? && gid in Adds(plan, e).value.groupIds;
    assert Comes(plan, entries, Adds(plan, e).value);
  }

  /** Is the group on an item of the menu? */
  ghost predicate Used(menu: Menu, gid: Id) {
    exists bi <- AllItems(menu.categories) :: gid in bi.groupIds
  }

  lemma UsedIsOnSomeItem(bank: Bank, rules: Rules, entries: seq<Entry>, gid: Id)
    ensures Used(Compiled(bank, rules, entries), gid) <==> OnSomeItem(PlanOf(bank, rules, entries), entries, gid)
  {
    hide Compiled, AllItems, PlanOf, Comes;
    var menu, plan := Compiled(bank, rules, entries), PlanOf(bank, rules, entries);
    if Used(menu, gid) {
      var bi :| bi in AllItems(menu.categories) && gid in bi.groupIds;
      WhereItemsComeFrom(bank, rules, entries, bi);
    }
    if OnSomeItem(plan, entries, gid) {
      var bi :| Comes(plan, entries, bi) && gid in bi.groupIds;
      WhatComesIsShown(bank, rules, entries, bi);
    }
  }

  /**
   * Every listed group is used by an item of the menu exactly when each group of a merge that can be sold but has no
   * place to go is on some other item.
   */
  lemma EveryListedGroupIsUsed(bank: Bank, rules: Rules, entries: seq<Entry>)
    requires WellFiled(bank)
    ensures var plan, menu := PlanOf(bank, rules, entries), Compiled(bank, rules, entries);
            (forall g <- menu.groups :: Used(menu, g.id))
            <==> forall e <- entries :: Unplaced(plan, e) ==>
                   forall gid <- MergeGroups(plan, e) :: OnSomeItem(plan, entries, gid)
  {
    hide Compiled, AllItems, PlanOf, WellFiled, OnSomeItem, Used, Sells, MergeGroups, AllStock, EntrySpot, OfItem;
    var plan, menu := PlanOf(bank, rules, entries), Compiled(bank, rules, entries);
    PlanKeepsBankAndRules(bank, rules, entries);
    if forall g <- menu.groups :: Used(menu, g.id) {
      forall e <- entries, gid <- (if Unplaced(plan, e) then MergeGroups(plan, e) else [])
        ensures OnSomeItem(plan, entries, gid)
      {
        assert OfMerge(plan, entries, gid);
        WhatIsListed(bank, rules, entries, gid);
        UsedIsOnSomeItem(bank, rules, entries, gid);
      }
    }
    if forall e <- entries :: Unplaced(plan, e) ==> forall gid <- MergeGroups(plan, e) :: OnSomeItem(plan, entries, gid) {
      forall g <- menu.groups ensures Used(menu, g.id) {
        WhatIsListed(bank, rules, entries, g.id);
        UsedIsOnSomeItem(bank, rules, entries, g.id);
        if OfItem(plan, AllStock(bank), g.id) {
          AloneIsOnSomeItem(plan, entries, g.id);
        } else {
          var e :| e in entries && Sells(plan, e) && g.id in MergeGroups(plan, e);
          if !Unplaced(plan, e) { PlacedIsOnSomeItem(plan, entries, e, g.id); }
        }
      }
    }
  }

  // --- a menu that lists a group nothing uses -----------------------------------------------------

  const PLAIN := BankItem(11, "Plain", 500, true, 0, [], [7])
  const SPICY := BankItem(12, "Spicy", 500, true, 1, [], [7])
  const ONE_MENU := BankMenu(true, [BankCategory(1, "Wings", true, [PLAIN, SPICY])])
  const WINGS := Bank([], [ONE_MENU], map[7 := BankGroup(7, "Dips", false, 0, 0, false, false, [])])

  const HIDDEN_MERGE := Entry(21, MergeEntry, [11, 12], "Wings", false, "", 0, true, None, map[], map[])

  const NO_RULES := Rules(0, false, [])

  const AISLE := Aisle(BankCategory(1, "Wings", true, [PLAIN, SPICY]), true)

  lemma OneMenu(m: BankMenu)
    ensures Aisles([m]) == AislesOf(m)
  {
    assert [m][..0] == [];
  }

  lemma OneAisle(a: Aisle)
    requires a.menuOn
    ensures StockOf([a]) == Shelf(a, 1)
  {
    assert [a][..0] == [] && OnCount([a]) == 1;
    assert [] + Shelf(a, 1) == Shelf(a, 1);
  }

  lemma WingsStock()
    ensures AllStock(WINGS) == [Stock(AISLE, 1, PLAIN), Stock(AISLE, 1, SPICY)]
  {
    hide Aisles, StockOf;
    OneMenu(ONE_MENU);
    OneAisle(AISLE);
    assert AislesOf(ONE_MENU) == [AISLE];
  }

  lemma FirstOfTwo(x: Stock, y: Stock)
    requires x.aisle.On() && x.item.id != y.item.id
    ensures x.item.id in Sellable([x, y]) && Sellable([x, y])[x.item.id]
    ensures FindStock([x, y], x.item.id) == Some(x)
  {
    assert [x, y][..1] == [x] && [x][..0] == [];
    assert x.item.id in Sellable([x]) && Sellable([x])[x.item.id];
    assert FindStock([x], x.item.id) == Some(x);
  }

  lemma NoItemEntries(bank: Bank, e: Entry)
    requires e.kind != ItemEntry
    ensures ByItem(bank, [e]) == map[]
  {
    hide AllStock, FindStock;
    assert [e][..0] == [];
  }

  /** A merge whose first anchor can be sold takes it as its first item. */
  lemma FirstAnchorComesFirst(plan: Plan, e: Entry, a: Id, b: Id, s: Stock)
    requires FindStock(AllStock(plan.bank), a) == Some(s) && CanSell(plan, a) && a !in plan.viewHidden
    ensures MergeAnchors(plan, e, [a, b]).first == Some(s)
  {
    hide AllStock, FindStock, CanSell, ChoiceOf;
    assert [a, b][..1] == [a] && [a][..0] == [];
    assert MergeAnchors(plan, e, [a]).first == Some(s);
  }

  lemma TheMergeSells(plan: Plan)
    requires plan == PlanOf(WINGS, NO_RULES, [HIDDEN_MERGE])
    ensures Sells(plan, HIDDEN_MERGE) && 7 in MergeGroups(plan, HIDDEN_MERGE)
  {
    hide AllStock, FindStock, Sellable, MergeAnchors, BankCats, CatPos, Merged, ByItem, Aisles;
    WingsStock();
    NoItemEntries(WINGS, HIDDEN_MERGE);
    FirstOfTwo(Stock(AISLE, 1, PLAIN), Stock(AISLE, 1, SPICY));
    FirstAnchorComesFirst(plan, HIDDEN_MERGE, 11, 12, Stock(AISLE, 1, PLAIN));
    assert PLAIN.groupIds[..0] == [];
  }

  lemma InAMerge(e: Entry, id: Id)
    requires e.kind == MergeEntry && id in e.itemIds
    ensures id in Merged([e])
  {
    assert e in [e];
  }

  /** Two items in a hidden merge: nothing shows, and their group is listed. */
  lemma AHiddenMergeListsAnUnusedGroup()
    ensures WellFiled(WINGS)
    ensures var menu := Compiled(WINGS, NO_RULES, [HIDDEN_MERGE]);
            (exists g <- menu.groups :: g.id == 7) && AllItems(menu.categories) == []
  {
    hide Compiled, AllItems, AllStock, MergeAnchors, Sells, MergeGroups, ByItem, Sellable, ViewHidden, BankCats, CatPos;
    var plan, menu, e := PlanOf(WINGS, NO_RULES, [HIDDEN_MERGE]), Compiled(WINGS, NO_RULES, [HIDDEN_MERGE]), HIDDEN_MERGE;
    TheMergeSells(plan);
    assert OfMerge(plan, [e], 7);
    WhatIsListed(WINGS, NO_RULES, [e], 7);
    WingsStock();
    InAMerge(e, 11);
    InAMerge(e, 12);
    if AllItems(menu.categories) != [] {
      WhereItemsComeFrom(WINGS, NO_RULES, [e], AllItems(menu.categories)[0]);
      assert false;
    }
  }
}
