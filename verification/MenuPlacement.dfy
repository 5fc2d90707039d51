/** What a compiled menu holds: every bank item it should, once, in ordered categories, with closed group references. */
module MenuPlacement {
  import opened Options
  import opened Sequences
  import opened MenuBuild
  import opened MenuBank
  import opened MenuView
  import opened Text

  // --- shelving keeps every item ----------------------------------------------------------------

  /** Everything on the shelves, in the order the categories were opened. */
  function ItemsOn(cats: map<CategoryKey, BuildCategory>, order: seq<CategoryKey>): seq<BuildItem>
    requires forall k <- order :: k in cats
    decreases |order|
  {
    if order == [] then [] else ItemsOn(cats, order[..|order|-1]) + cats[order[|order|-1]].items
  }

  function Holds(sh: Shelves): multiset<BuildItem>
    requires WellKept(sh)
  {
    multiset(ItemsOn(sh.cats, sh.order))
  }

  lemma {:induction false} SameItemsOn(a: map<CategoryKey, BuildCategory>, b: map<CategoryKey, BuildCategory>,
                                       order: seq<CategoryKey>)
    requires forall k <- order :: k in a && k in b && a[k].items == b[k].items
    ensures ItemsOn(a, order) == ItemsOn(b, order)
    decreases |order|
  {
    if order != [] { SameItemsOn(a, b, order[..|order|-1]); }
  }

  lemma OpenedItemsOn(cats: map<CategoryKey, BuildCategory>, order: seq<CategoryKey>, c: BuildCategory)
    requires (forall k <- order :: k in cats) && c.key !in cats && c.items == []
    ensures ItemsOn(cats[c.key := c], order + [c.key]) == ItemsOn(cats, order)
  {
    assert (order + [c.key])[..|order|] == order;
    SameItemsOn(cats, cats[c.key := c], order);
    assert ItemsOn(cats, order) + [] == ItemsOn(cats, order);
  }

  lemma OpeningHoldsTheSame(sh: Shelves, spot: Spot)
    requires WellKept(sh)
    ensures WellKept(Opened(sh, spot)) && Holds(Opened(sh, spot)) == Holds(sh)
  {
    hide ItemsOn;
    OpenedIsWellKept(sh, spot);
    if spot.key !in sh.cats {
      OpenedItemsOn(sh.cats, sh.order, BuildCategory(spot.key, spot.name, spot.position, []));
    }
  }

  lemma {:induction false} OneItemMore(a: map<CategoryKey, BuildCategory>, b: map<CategoryKey, BuildCategory>,
                                       order: seq<CategoryKey>, key: CategoryKey, bi: BuildItem)
    requires forall k <- order :: k in a && k in b && (k != key ==> b[k].items == a[k].items)
    requires key in order && b[key].items == a[key].items + [bi]
    requires forall i, j :: 0 <= i < j < |order| ==> order[i] != order[j]
    ensures multiset(ItemsOn(b, order)) == multiset(ItemsOn(a, order)) + multiset{bi}
    decreases |order|
  {
    var init, last := order[..|order|-1], order[|order|-1];
    if key == last {
      SameItemsOn(a, b, init);
    } else {
      assert key in init;
      OneItemMore(a, b, init, key, bi);
    }
  }

  lemma PutItemsOn(cats: map<CategoryKey, BuildCategory>, order: seq<CategoryKey>, key: CategoryKey, bi: BuildItem)
    requires (forall k <- order :: k in cats) && key in cats && key in order
    requires forall i, j :: 0 <= i < j < |order| ==> order[i] != order[j]
    ensures var c := cats[key];
            multiset(ItemsOn(cats[key := c.(items := c.items + [bi])], order)) == multiset(ItemsOn(cats, order)) + multiset{bi}
  {
    hide ItemsOn;
    var after := cats[key := cats[key].(items := cats[key].items + [bi])];
    OneItemMore(cats, after, order, key, bi);
  }

  lemma PuttingHoldsOneMore(sh: Shelves, spot: Spot, bi: BuildItem)
    requires WellKept(sh)
    ensures WellKept(Put(sh, spot, bi)) && Holds(Put(sh, spot, bi)) == Holds(sh) + multiset{bi}
  {
    hide Opened, ItemsOn;
    PutIsWellKept(sh, spot, bi);
    OpeningHoldsTheSame(sh, spot);
    var r := Opened(sh, spot);
    PutItemsOn(r.cats, r.order, spot.key, bi);
  }

  /** The bank items that show on their own, as they show. */
  function Alone(plan: Plan, stock: seq<Stock>): seq<BuildItem>
    decreases |stock|
  {
    if stock == [] then []
    else
      Alone(plan, stock[..|stock|-1])
      + if ShownAlone(plan, stock[|stock|-1]) then [ItemShown(plan, stock[|stock|-1].item)] else []
  }

  /** The item an entry adds, if it has anything to sell and somewhere to go. */
  function Adds(plan: Plan, e: Entry): Option<BuildItem> {
    match e.kind
    case MergeEntry =>
      var m := MergeAnchors(plan, e, e.itemIds);
      if |e.itemIds| >= 2 && m.first.Some? && EntrySpot(plan, e, m.first).Some? then Some(MergeShown(plan, e, m))
      else None
    case AugmentEntry =>
      var a := AugmentAnchors(plan, e.itemIds);
      if GoodAugment(e) && a.Some? && EntrySpot(plan, e, a.value.first).Some? then Some(AugmentShown(e, a.value))
      else None
    case ItemEntry => None
    case MapEntry => None
  }

  function Added(plan: Plan, entries: seq<Entry>): seq<BuildItem>
    decreases |entries|
  {
    if entries == [] then []
    else
      Added(plan, entries[..|entries|-1])
      + match Adds(plan, entries[|entries|-1]) case Some(bi) => [bi] case None => []
  }

  lemma {:induction false} ItemsAreShelved(plan: Plan, w: Work, stock: seq<Stock>)
    requires WellKept(w.shelves)
    ensures WellKept(PlaceItems(plan, w, stock).shelves)
    ensures Holds(PlaceItems(plan, w, stock).shelves) == Holds(w.shelves) + multiset(Alone(plan, stock))
    decreases |stock|
  {
    hide WellKept, Put, Opened, ShownAlone, Holds, ItemShown, TargetOf;
    if stock != [] {
      var s, before := stock[|stock|-1], PlaceItems(plan, w, stock[..|stock|-1]);
      ItemsAreShelved(plan, w, stock[..|stock|-1]);
      OpeningHoldsTheSame(before.shelves, OwnSpot(s));
      PuttingHoldsOneMore(Opened(before.shelves, OwnSpot(s)), TargetOf(plan, s), ItemShown(plan, s.item));
    }
  }

  lemma EntryIsShelved(plan: Plan, w: Work, e: Entry)
    requires WellKept(w.shelves)
    ensures WellKept(PlaceEntry(plan, w, e).shelves)
    ensures Holds(PlaceEntry(plan, w, e).shelves)
         == Holds(w.shelves) + match Adds(plan, e) case Some(bi) => multiset{bi} case None => multiset{}
  {
    hide WellKept, Put, Holds, EntrySpot, MergeAnchors, AugmentAnchors, GoodAugment, MergeShown, AugmentShown, ListGroups;
    var m, a := MergeAnchors(plan, e, e.itemIds), AugmentAnchors(plan, e.itemIds);
    if e.kind == MergeEntry && m.first.Some? && EntrySpot(plan, e, m.first).Some? {
      PuttingHoldsOneMore(w.shelves, EntrySpot(plan, e, m.first).value, MergeShown(plan, e, m));
    } else if e.kind == AugmentEntry && GoodAugment(e) && a.Some? && EntrySpot(plan, e, a.value.first).Some? {
      PuttingHoldsOneMore(w.shelves, EntrySpot(plan, e, a.value.first).value, AugmentShown(e, a.value));
    }
  }

  lemma {:induction false} EntriesAreShelved(plan: Plan, w: Work, entries: seq<Entry>)
    requires WellKept(w.shelves)
    ensures WellKept(PlaceEntries(plan, w, entries).shelves)
    ensures Holds(PlaceEntries(plan, w, entries).shelves) == Holds(w.shelves) + multiset(Added(plan, entries))
    decreases |entries|
  {
    hide WellKept, Holds, PlaceEntry, Adds;
    if entries != [] {
      EntriesAreShelved(plan, w, entries[..|entries|-1]);
      EntryIsShelved(plan, PlaceEntries(plan, w, entries[..|entries|-1]), entries[|entries|-1]);
    }
  }

  // --- sorting keeps every item -------------------------------------------------------------------

  lemma {:induction false} FilledHoldsTheSame(cats: map<CategoryKey, BuildCategory>, order: seq<CategoryKey>)
    requires forall k <- order :: k in cats
    ensures multiset(AllItems(Filled(cats, order))) == multiset(ItemsOn(cats, order))
    decreases |order|
  {
    hide SortBy;
    if order != [] {
      var c := cats[order[|order|-1]];
      FilledHoldsTheSame(cats, order[..|order|-1]);
      SortByIsSorted(c.items, ItemPosition);
      var before := Filled(cats, order[..|order|-1]);
      if c.items != [] {
        assert (before + [SortedItems(c)])[..|before|] == before;
      } else {
        assert before + [] == before;
      }
    }
  }

  lemma {:induction false} AllItemsAppend(a: seq<BuildCategory>, b: seq<BuildCategory>)
    ensures AllItems(a + b) == AllItems(a) + AllItems(b)
    decreases |b|
  {
    if b == [] {
      assert a + b == a;
    } else {
      assert (a + b)[..|a + b|-1] == a + b[..|b|-1];
      AllItemsAppend(a, b[..|b|-1]);
    }
  }

  lemma {:induction false} AllItemsOfPermutation(a: seq<BuildCategory>, b: seq<BuildCategory>)
    requires multiset(a) == multiset(b)
    ensures multiset(AllItems(a)) == multiset(AllItems(b))
  {
    hide AllItems;
    if a == [] {
      assert |multiset(b)| == 0;
    } else {
      var i := Extract(a, b);
      AllItemsOfPermutation(a[1..], b[..i] + b[i+1..]);
      assert a == [a[0]] + a[1..] && b == b[..i] + ([b[i]] + b[i+1..]);
      AllItemsAppend([a[0]], a[1..]);
      AllItemsAppend(b[..i], [b[i]] + b[i+1..]);
      AllItemsAppend([b[i]], b[i+1..]);
      AllItemsAppend(b[..i], b[i+1..]);
    }
  }

  /** Conservation: the menu holds the items that show alone and what the entries add, each as often, and nothing else. */
  lemma TheMenuHolds(bank: Bank, rules: Rules, entries: seq<Entry>)
    ensures multiset(AllItems(Compiled(bank, rules, entries).categories))
         == multiset(Alone(PlanOf(bank, rules, entries), AllStock(bank)))
            + multiset(Added(PlanOf(bank, rules, entries), entries))
  {
    hide PlanOf, PlaceItems, PlaceEntries, AllStock, Filled, SortBy, AllItems, Alone, Added, ItemsOn;
    var plan, stock := PlanOf(bank, rules, entries), AllStock(bank);
    var sh := WorkOf(bank, rules, entries).shelves;
    ItemsAreShelved(plan, EMPTY, stock);
    EntriesAreShelved(plan, PlaceItems(plan, EMPTY, stock), entries);
    assert Holds(EMPTY.shelves) == multiset{} by { EmptyShelvesHoldNothing(); }
    FilledHoldsTheSame(sh.cats, sh.order);
    SortByIsSorted(Filled(sh.cats, sh.order), CategoryPosition);
    AllItemsOfPermutation(SortBy(Filled(sh.cats, sh.order), CategoryPosition), Filled(sh.cats, sh.order));
  }

  lemma EmptyShelvesHoldNothing()
    ensures Holds(EMPTY.shelves) == multiset{}
  {
  }

  // --- exactly once -------------------------------------------------------------------------------

  function Times(id: Id, items: seq<BuildItem>): nat {
    if items == [] then 0 else (if items[0].id == id then 1 else 0) + Times(id, items[1..])
  }

  lemma {:induction false} TimesAppend(id: Id, a: seq<BuildItem>, b: seq<BuildItem>)
    ensures Times(id, a + b) == Times(id, a) + Times(id, b)
  {
    if a == [] {
      assert a + b == b;
    } else {
      assert (a + b)[1..] == a[1..] + b;
      TimesAppend(id, a[1..], b);
    }
  }

  lemma {:induction false} TimesOfPermutation(id: Id, a: seq<BuildItem>, b: seq<BuildItem>)
    requires multiset(a) == multiset(b)
    ensures Times(id, a) == Times(id, b)
    decreases |a|
  {
    if a == [] {
      assert |multiset(b)| == 0;
    } else {
      var i := Extract(a, b);
      TimesOfPermutation(id, a[1..], b[..i] + b[i+1..]);
      TimesAppend(id, b[..i], b[i+1..]);
      TimesAppend(id, b[..i], [b[i]] + b[i+1..]);
      assert b == b[..i] + ([b[i]] + b[i+1..]);
    }
  }

  /** Ids are unique: no two bank items share one, and no entry has an item's. */
  ghost predicate UniqueIds(stock: seq<Stock>, entries: seq<Entry>) {
    && (forall i, j :: 0 <= i < j < |stock| ==> stock[i].item.id != stock[j].item.id)
    && (forall s <- stock :: s.item.id != NO_ID)
    && forall e <- entries, s <- stock :: e.id != s.item.id
  }

  /** entries[i] is the item entry that counts for a bank item: the last of its item entries. */
  predicate Counts(entries: seq<Entry>, i: int, id: Id) {
    && 0 <= i < |entries| && IsEntryOf(entries[i], id)
    && forall j :: i < j < |entries| ==> !IsEntryOf(entries[j], id)
  }

  predicate IsEntryOf(e: Entry, id: Id) {
    e.kind == ItemEntry && e.itemIds == [id]
  }

  /** What should show on its own: an item on sale in a category the view keeps, in no merge and not hidden. */
  ghost predicate ShouldShow(rules: Rules, entries: seq<Entry>, s: Stock) {
    && s.aisle.menuOn && s.aisle.category.available && s.aisle.category.id !in rules.hiddenCategories
    && (forall e <- entries :: e.kind == MergeEntry ==> s.item.id !in e.itemIds)
    && (forall i :: Counts(entries, i, s.item.id) ==> !entries[i].hidden)
  }

  /** Every bank item that should show on its own does, exactly once; no other does. */
  lemma EachItemShowsOnce(bank: Bank, rules: Rules, entries: seq<Entry>, s: Stock)
    requires UniqueIds(AllStock(bank), entries) && s in AllStock(bank)
    ensures Times(s.item.id, AllItems(Compiled(bank, rules, entries).categories))
         == if ShouldShow(rules, entries, s) then 1 else 0
  {
    hide PlanOf, AllStock, AllItems, Compiled, ShownAlone, Alone, Added, ShouldShow;
    var plan, stock := PlanOf(bank, rules, entries), AllStock(bank);
    var alone, added := Alone(plan, stock), Added(plan, entries);
    TheMenuHolds(bank, rules, entries);
    assert multiset(alone + added) == multiset(alone) + multiset(added);
    TimesOfPermutation(s.item.id, AllItems(Compiled(bank, rules, entries).categories), alone + added);
    TimesAppend(s.item.id, alone, added);
    AloneOnce(plan, stock, s);
    AddedNever(plan, entries, s.item.id);
    ShownAsItShould(bank, rules, entries, s);
  }

  lemma {:induction false} AloneOnce(plan: Plan, stock: seq<Stock>, s: Stock)
    requires forall i, j :: 0 <= i < j < |stock| ==> stock[i].item.id != stock[j].item.id
    ensures s in stock ==> Times(s.item.id, Alone(plan, stock)) == if ShownAlone(plan, s) then 1 else 0
    ensures (forall t <- stock :: t.item.id != s.item.id) ==> Times(s.item.id, Alone(plan, stock)) == 0
    decreases |stock|
  {
    hide ShownAlone;
    if stock != [] {
      var init, last := stock[..|stock|-1], stock[|stock|-1];
      AloneOnce(plan, init, s);
      ShownKeepsTheId(plan, last.item);
      TimesAppend(s.item.id, Alone(plan, init), [ItemShown(plan, last.item)]);
      assert Alone(plan, init) + [] == Alone(plan, init);
      assert [ItemShown(plan, last.item)][1..] == [];
      hide ItemShown;
      assert stock == init + [last];
    }
  }

  lemma ShownKeepsTheId(plan: Plan, it: BankItem)
    ensures ItemShown(plan, it).id == it.id && ItemShown(plan, it).anchor == [it.id]
    ensures ItemShown(plan, it).choices == [] && ItemShown(plan, it).groupIds == KnownGroups(plan.bank, it.groupIds)
  {
  }

  lemma AddedHasTheEntrysId(plan: Plan, e: Entry)
    ensures Adds(plan, e).Some? ==> Adds(plan, e).value.id == e.id
  {
    hide MergeAnchors, AugmentAnchors, EntrySpot, GoodAugment;
  }

  lemma {:induction false} AddedNever(plan: Plan, entries: seq<Entry>, id: Id)
    requires forall e <- entries :: e.id != id
    ensures Times(id, Added(plan, entries)) == 0
    decreases |entries|
  {
    hide Adds;
    if entries != [] {
      var init, last := entries[..|entries|-1], entries[|entries|-1];
      AddedNever(plan, init, id);
      AddedHasTheEntrysId(plan, last);
      if Adds(plan, last).Some? {
        TimesAppend(id, Added(plan, init), [Adds(plan, last).value]);
        assert [Adds(plan, last).value][1..] == [];
      } else {
        assert Added(plan, init) + [] == Added(plan, init);
      }
    }
  }

  lemma {:induction false} ByItemIsTheLast(bank: Bank, entries: seq<Entry>, id: Id)
    requires FindStock(AllStock(bank), id).Some?
    ensures id in ByItem(bank, entries) ==> exists i :: Counts(entries, i, id) && entries[i] == ByItem(bank, entries)[id]
    ensures id !in ByItem(bank, entries) ==> forall e <- entries :: !IsEntryOf(e, id)
    decreases |entries|
  {
    hide AllStock, FindStock;
    if entries != [] {
      var init, last := entries[..|entries|-1], entries[|entries|-1];
      ByItemIsTheLast(bank, init, id);
      if IsEntryOf(last, id) {
        assert Counts(entries, |init|, id);
      } else {
        NotItsEntry(bank, entries, id);
        hide ByItem;
        if id in ByItem(bank, init) {
          var i :| Counts(init, i, id) && init[i] == ByItem(bank, init)[id];
          assert Counts(entries, i, id);
        } else {
          assert entries == init + [last];
        }
      }
    }
  }

  lemma NotItsEntry(bank: Bank, entries: seq<Entry>, id: Id)
    requires entries != [] && !IsEntryOf(entries[|entries|-1], id)
    ensures var init := entries[..|entries|-1];
            && (id in ByItem(bank, entries) <==> id in ByItem(bank, init))
            && (id in ByItem(bank, init) ==> ByItem(bank, entries)[id] == ByItem(bank, init)[id])
  {
    hide AllStock, FindStock;
  }

  lemma FoundById(stock: seq<Stock>, s: Stock)
    requires s in stock
    ensures FindStock(stock, s.item.id).Some?
  {
  }

  lemma ShownAsItShould(bank: Bank, rules: Rules, entries: seq<Entry>, s: Stock)
    requires s in AllStock(bank)
    ensures ShownAlone(PlanOf(bank, rules, entries), s) <==> ShouldShow(rules, entries, s)
  {
    hide AllStock, FindStock, ByItem, Sellable, ViewHidden, BankCats, CatPos, Aisles;
    FoundById(AllStock(bank), s);
    ByItemIsTheLast(bank, entries, s.item.id);
    if s.item.id in ByItem(bank, entries) {
      var i :| Counts(entries, i, s.item.id) && entries[i] == ByItem(bank, entries)[s.item.id];
      assert forall j :: Counts(entries, j, s.item.id) ==> j == i;
    } else {
      assert forall i :: !Counts(entries, i, s.item.id);
    }
  }

  // --- where every item comes from -------------------------------------------------------------------

  /** A bank item that shows alone, or what an entry adds. */
  ghost predicate Comes(plan: Plan, entries: seq<Entry>, bi: BuildItem) {
    || (exists s <- AllStock(plan.bank) :: ShownAlone(plan, s) && bi == ItemShown(plan, s.item))
    || (exists e <- entries :: Adds(plan, e) == Some(bi))
  }

  lemma {:induction false} AloneComesFrom(plan: Plan, stock: seq<Stock>, bi: BuildItem)
    requires bi in Alone(plan, stock)
    ensures exists s <- stock :: ShownAlone(plan, s) && bi == ItemShown(plan, s.item)
    decreases |stock|
  {
    hide ShownAlone, ItemShown;
    var init, last := stock[..|stock|-1], stock[|stock|-1];
    if bi in Alone(plan, init) {
      AloneComesFrom(plan, init, bi);
    } else {
      assert last in stock;
    }
  }

  lemma {:induction false} AddedComesFrom(plan: Plan, entries: seq<Entry>, bi: BuildItem)
    requires bi in Added(plan, entries)
    ensures exists e <- entries :: Adds(plan, e) == Some(bi)
    decreases |entries|
  {
    hide Adds;
    var init, last := entries[..|entries|-1], entries[|entries|-1];
    if bi in Added(plan, init) {
      AddedComesFrom(plan, init, bi);
    } else {
      assert last in entries;
    }
  }

  lemma WhereItemsComeFrom(bank: Bank, rules: Rules, entries: seq<Entry>, bi: BuildItem)
    requires bi in AllItems(Compiled(bank, rules, entries).categories)
    ensures Comes(PlanOf(bank, rules, entries), entries, bi)
  {
    hide AllStock, AllItems, Compiled, Alone, Added, Adds, ShownAlone, ItemShown, ByItem, Merged, Sellable,
         ViewHidden, BankCats, CatPos;
    var plan := PlanOf(bank, rules, entries);
    TheMenuHolds(bank, rules, entries);
    assert bi in multiset(AllItems(Compiled(bank, rules, entries).categories));
    if bi in multiset(Alone(plan, AllStock(bank))) {
      AloneComesFrom(plan, AllStock(bank), bi);
    } else {
      assert bi in multiset(Added(plan, entries));
      AddedComesFrom(plan, entries, bi);
    }
  }

  lemma {:induction false} AloneIsThere(plan: Plan, stock: seq<Stock>, s: Stock)
    requires s in stock && ShownAlone(plan, s)
    ensures ItemShown(plan, s.item) in Alone(plan, stock)
    decreases |stock|
  {
    hide ShownAlone, ItemShown;
    if s != stock[|stock|-1] { AloneIsThere(plan, stock[..|stock|-1], s); }
  }

  lemma {:induction false} AddedIsThere(plan: Plan, entries: seq<Entry>, e: Entry)
    requires e in entries && Adds(plan, e).Some?
    ensures Adds(plan, e).value in Added(plan, entries)
    decreases |entries|
  {
    hide Adds;
    if e != entries[|entries|-1] { AddedIsThere(plan, entries[..|entries|-1], e); }
  }

  /** And everything that should be on the menu is. */
  lemma WhatComesIsShown(bank: Bank, rules: Rules, entries: seq<Entry>, bi: BuildItem)
    requires Comes(PlanOf(bank, rules, entries), entries, bi)
    ensures bi in AllItems(Compiled(bank, rules, entries).categories)
  {
    hide AllStock, AllItems, Compiled, Alone, Added, Adds, ShownAlone, ItemShown, ByItem, Merged, Sellable,
         ViewHidden, BankCats, CatPos;
    var plan := PlanOf(bank, rules, entries);
    TheMenuHolds(bank, rules, entries);
    if s :| s in AllStock(bank) && ShownAlone(plan, s) && bi == ItemShown(plan, s.item) {
      AloneIsThere(plan, AllStock(bank), s);
      assert bi in multiset(Alone(plan, AllStock(bank)));
    } else {
      var e :| e in entries && Adds(plan, e) == Some(bi);
      AddedIsThere(plan, entries, e);
      assert bi in multiset(Added(plan, entries));
    }
    assert bi in multiset(AllItems(Compiled(bank, rules, entries).categories));
  }

  // --- what is sold can be sold ---------------------------------------------------------------------

  /** The bank has the item, with its menu and category on. */
  ghost predicate OnSale(bank: Bank, id: Id) {
    exists s <- AllStock(bank) :: s.item.id == id && s.aisle.On()
  }

  lemma {:induction false} SellableIsOnSale(stock: seq<Stock>, id: Id)
    requires id in Sellable(stock) && Sellable(stock)[id]
    ensures exists s <- stock :: s.item.id == id && s.aisle.On()
    decreases |stock|
  {
    var last := stock[|stock|-1];
    if last.item.id == id {
      assert last in stock;
    } else {
      SellableIsOnSale(stock[..|stock|-1], id);
    }
  }

  lemma {:induction false} ChoicesAreOnSale(plan: Plan, e: Entry, ids: seq<Id>, c: BuildChoice)
    requires plan.sellable == Sellable(AllStock(plan.bank)) && c in MergeAnchors(plan, e, ids).choices
    ensures OnSale(plan.bank, c.itemId) && c.itemId !in plan.viewHidden && c.itemId in ids
    decreases |ids|
  {
    hide AllStock, Sellable, SizesOf, PriceOf, Trim;
    if ids != [] {
      var init, id := ids[..|ids|-1], ids[|ids|-1];
      if c in MergeAnchors(plan, e, init).choices {
        ChoicesAreOnSale(plan, e, init, c);
      } else {
        SellableIsOnSale(AllStock(plan.bank), id);
      }
    }
  }

  lemma {:induction false} AnchorsAreOnSale(plan: Plan, ids: seq<Id>, id: Id)
    requires plan.sellable == Sellable(AllStock(plan.bank)) && AugmentAnchors(plan, ids).Some? && id in ids
    ensures OnSale(plan.bank, id)
    decreases |ids|
  {
    hide AllStock, Sellable;
    var init, last := ids[..|ids|-1], ids[|ids|-1];
    if id == last {
      SellableIsOnSale(AllStock(plan.bank), id);
    } else {
      assert id in init;
      AnchorsAreOnSale(plan, init, id);
    }
  }

  lemma {:induction false} MergesHaveChoices(plan: Plan, e: Entry, ids: seq<Id>)
    ensures MergeAnchors(plan, e, ids).first.Some? <==> MergeAnchors(plan, e, ids).choices != []
    decreases |ids|
  {
    hide AllStock, FindStock, ChoiceOf;
    if ids != [] { MergesHaveChoices(plan, e, ids[..|ids|-1]); }
  }

  /** Every choice of a merge is on sale and not hidden by the view; anything else stands for items that are all on sale. */
  lemma WhatShowsIsOnSale(bank: Bank, rules: Rules, entries: seq<Entry>, bi: BuildItem)
    requires bi in AllItems(Compiled(bank, rules, entries).categories)
    ensures forall c <- bi.choices ::
              OnSale(bank, c.itemId) && c.itemId in bi.anchor && c.itemId !in PlanOf(bank, rules, entries).viewHidden
    ensures bi.choices == [] ==> bi.anchor != [] && forall id <- bi.anchor :: OnSale(bank, id)
  {
    hide AllStock, AllItems, Compiled, ByItem, Merged, Sellable, ViewHidden, BankCats, CatPos, ItemShown,
         MergeAnchors, AugmentAnchors, EntrySpot, OnSale;
    var plan := PlanOf(bank, rules, entries);
    WhereItemsComeFrom(bank, rules, entries, bi);
    if s :| s in AllStock(bank) && ShownAlone(plan, s) && bi == ItemShown(plan, s.item) {
      ShownKeepsTheId(plan, s.item);
      assert OnSale(bank, s.item.id) by { ShownIsOnSale(plan, s); }
    } else {
      var e :| e in entries && Adds(plan, e) == Some(bi);
      MergesHaveChoices(plan, e, e.itemIds);
      forall c | c in bi.choices && e.kind == MergeEntry
        ensures OnSale(bank, c.itemId) && c.itemId !in plan.viewHidden && c.itemId in e.itemIds
      {
        ChoicesAreOnSale(plan, e, e.itemIds, c);
      }
      forall id | id in e.itemIds && e.kind == AugmentEntry ensures OnSale(bank, id) {
        AnchorsAreOnSale(plan, e.itemIds, id);
      }
    }
  }

  lemma ShownIsOnSale(plan: Plan, s: Stock)
    requires s in AllStock(plan.bank) && ShownAlone(plan, s)
    ensures OnSale(plan.bank, s.item.id)
  {
    hide AllStock;
  }

  // --- categories -----------------------------------------------------------------------------------

  lemma {:induction false} FilledCategories(cats: map<CategoryKey, BuildCategory>, order: seq<CategoryKey>)
    requires forall k <- order :: k in cats && cats[k].key == k
    requires forall i, j :: 0 <= i < j < |order| ==> order[i] != order[j]
    ensures forall c <- Filled(cats, order) ::
              c.key in order && c.items != [] && SortedBy(c.items, ItemPosition) && c == SortedItems(cats[c.key])
    ensures forall i, j :: 0 <= i < j < |Filled(cats, order)| ==> Filled(cats, order)[i].key != Filled(cats, order)[j].key
    decreases |order|
  {
    hide SortBy, SortedBy;
    if order != [] {
      FilledCategories(cats, order[..|order|-1]);
      var c := cats[order[|order|-1]];
      SortByIsSorted(c.items, ItemPosition);
    }
  }

  /** A key at two places of a permuted sequence was at two places before. */
  lemma {:induction false} DistinctKeysPermuted(a: seq<BuildCategory>, b: seq<BuildCategory>)
    requires multiset(a) == multiset(b)
    requires forall i, j :: 0 <= i < j < |a| ==> a[i].key != a[j].key
    ensures forall i, j :: 0 <= i < j < |b| ==> b[i].key != b[j].key
    decreases |b|
  {
    if b != [] {
      var i := Extract(b, a);
      DistinctKeysPermuted(a[..i] + a[i+1..], b[1..]);
      forall j | 0 < j < |b| ensures b[0].key != b[j].key {
        var rest := a[..i] + a[i+1..];
        assert b[1..][j-1] in multiset(b[1..]);
        assert b[j] in multiset(rest);
        assert b[j] in rest;
      }
      forall j, k | 0 <= j < k < |b| ensures b[j].key != b[k].key {
        if j > 0 { assert b[1..][j-1].key != b[1..][k-1].key; }
      }
    }
  }

  /** Categories are never empty, have keys of their own, stand in order of position, and so do their items. */
  lemma CategoriesAreOrdered(bank: Bank, rules: Rules, entries: seq<Entry>)
    ensures var cs := Compiled(bank, rules, entries).categories;
            && SortedBy(cs, CategoryPosition)
            && (forall i, j :: 0 <= i < j < |cs| ==> cs[i].key != cs[j].key)
            && forall c <- cs :: c.items != [] && SortedBy(c.items, ItemPosition)
  {
    hide WorkOf, Filled, SortBy, SortedBy;
    WorkIsWellKept(bank, rules, entries);
    var sh := WorkOf(bank, rules, entries).shelves;
    FilledCategories(sh.cats, sh.order);
    var filled := Filled(sh.cats, sh.order);
    SortByIsSorted(filled, CategoryPosition);
    SortByMembers(filled, CategoryPosition);
    DistinctKeysPermuted(filled, SortBy(filled, CategoryPosition));
  }

  // --- groups ---------------------------------------------------------------------------------------

  /** The bank files each group under its own id. */
  ghost predicate WellFiled(bank: Bank) {
    forall id <- bank.groups :: bank.groups[id].id == id
  }

  /** Each group once, as the bank has it. */
  ghost predicate WellListed(bank: Bank, rules: Rules, l: Listing) {
    && (forall g <- l.groups :: g.id in bank.groups && g == GroupOf(rules, bank.groups[g.id]))
    && (forall id :: id in l.seen <==> exists g <- l.groups :: g.id == id)
    && (forall i, j :: 0 <= i < j < |l.groups| ==> l.groups[i].id != l.groups[j].id)
  }

  lemma ListingOneMore(bank: Bank, rules: Rules, l: Listing, id: Id)
    requires WellFiled(bank) && WellListed(bank, rules, l) && id in bank.groups && id !in l.seen
    ensures WellListed(bank, rules, Listing(l.seen + {id}, l.groups + [GroupOf(rules, bank.groups[id])]))
  {
    assert GroupOf(rules, bank.groups[id]).id == id;
    hide GroupOf;
    var more := l.groups + [GroupOf(rules, bank.groups[id])];
    assert forall i :: 0 <= i < |l.groups| ==> l.groups[i] in l.groups;
    forall x ensures x in l.seen + {id} <==> exists g <- more :: g.id == x {
      if x == id { assert more[|l.groups|] in more; }
      if x in l.seen {
        var g :| g in l.groups && g.id == x;
        assert g in more;
      }
    }
  }

  lemma {:induction false} ListingGroups(bank: Bank, rules: Rules, l: Listing, ids: seq<Id>)
    requires WellFiled(bank) && WellListed(bank, rules, l)
    ensures var r := ListGroups(bank, rules, l, ids);
            && WellListed(bank, rules, r) && l.seen <= r.seen
            && forall id <- KnownGroups(bank, ids) :: id in r.seen
    decreases |ids|
  {
    hide GroupOf, WellListed, WellFiled;
    if ids != [] {
      var init, id := ids[..|ids|-1], ids[|ids|-1];
      ListingGroups(bank, rules, l, init);
      var before := ListGroups(bank, rules, l, init);
      if id in bank.groups {
        if id !in before.seen { ListingOneMore(bank, rules, before, id); }
      }
    }
  }

  /** Every group the shown items of an entry or a bank item use. */
  lemma {:induction false} ItemsListTheirGroups(plan: Plan, w: Work, stock: seq<Stock>)
    requires WellFiled(plan.bank) && WellListed(plan.bank, plan.rules, w.listing)
    ensures var r := PlaceItems(plan, w, stock).listing;
            && WellListed(plan.bank, plan.rules, r) && w.listing.seen <= r.seen
            && forall s <- stock :: ShownAlone(plan, s) ==>
                 forall id <- KnownGroups(plan.bank, s.item.groupIds) :: id in r.seen
    decreases |stock|
  {
    hide WellListed, WellFiled, ShownAlone, KnownGroups, Put, Opened, TargetOf, ItemShown, ListGroups;
    if stock != [] {
      var init, last := stock[..|stock|-1], stock[|stock|-1];
      ItemsListTheirGroups(plan, w, init);
      ListingGroups(plan.bank, plan.rules, PlaceItems(plan, w, init).listing, last.item.groupIds);
      assert stock == init + [last];
    }
  }

  lemma {:induction false} EntriesListTheirGroups(plan: Plan, w: Work, entries: seq<Entry>)
    requires WellFiled(plan.bank) && WellListed(plan.bank, plan.rules, w.listing)
    ensures var r := PlaceEntries(plan, w, entries).listing;
            && WellListed(plan.bank, plan.rules, r) && w.listing.seen <= r.seen
            && forall e <- entries :: Adds(plan, e).Some? ==> forall id <- Adds(plan, e).value.groupIds :: id in r.seen
    decreases |entries|
  {
    hide WellListed, WellFiled, Adds, PlaceEntry;
    if entries != [] {
      var init, last := entries[..|entries|-1], entries[|entries|-1];
      EntriesListTheirGroups(plan, w, init);
      OneEntryListsItsGroups(plan, PlaceEntries(plan, w, init), last);
      assert entries == init + [last];
    }
  }

  lemma OneEntryListsItsGroups(plan: Plan, w: Work, e: Entry)
    requires WellFiled(plan.bank) && WellListed(plan.bank, plan.rules, w.listing)
    ensures var r := PlaceEntry(plan, w, e).listing;
            && WellListed(plan.bank, plan.rules, r) && w.listing.seen <= r.seen
            && (Adds(plan, e).Some? ==> forall id <- Adds(plan, e).value.groupIds :: id in r.seen)
  {
    hide WellListed, WellFiled, MergeAnchors, AugmentAnchors, EntrySpot, PutAt, KnownGroups, ListGroups, GoodAugment;
    var m := MergeAnchors(plan, e, e.itemIds);
    if e.kind == MergeEntry && m.first.Some? {
      ListingGroups(plan.bank, plan.rules, w.listing, m.first.value.item.groupIds);
    }
  }

  /** Closed references: every group id a shown item carries names exactly one listed group, built from the bank's. */
  lemma GroupsAreListedOnce(bank: Bank, rules: Rules, entries: seq<Entry>)
    requires WellFiled(bank)
    ensures var menu := Compiled(bank, rules, entries);
            && (forall i, j :: 0 <= i < j < |menu.groups| ==> menu.groups[i].id != menu.groups[j].id)
            && (forall g <- menu.groups :: g.id in bank.groups && g == GroupOf(rules, bank.groups[g.id]))
            && forall bi <- AllItems(menu.categories) :: forall id <- bi.groupIds :: exists g <- menu.groups :: g.id == id
  {
    hide PlanOf, PlaceItems, PlaceEntries, AllStock, Filled, SortBy, AllItems, ShownAlone, ItemShown, Adds, KnownGroups,
         WellFiled, GroupOf;
    var plan, stock := PlanOf(bank, rules, entries), AllStock(bank);
    PlanKeepsBankAndRules(bank, rules, entries);
    ItemsListTheirGroups(plan, EMPTY, stock);
    EntriesListTheirGroups(plan, PlaceItems(plan, EMPTY, stock), entries);
    var l := WorkOf(bank, rules, entries).listing;
    var menu := Compiled(bank, rules, entries);
    forall bi <- AllItems(menu.categories), id <- bi.groupIds ensures exists g <- menu.groups :: g.id == id {
      WhereItemsComeFrom(bank, rules, entries, bi);
      if s :| s in stock && ShownAlone(plan, s) && bi == ItemShown(plan, s.item) {
        ShownKeepsTheId(plan, s.item);
      }
      assert id in l.seen;
    }
  }

  lemma PlanKeepsBankAndRules(bank: Bank, rules: Rules, entries: seq<Entry>)
    ensures PlanOf(bank, rules, entries).bank == bank && PlanOf(bank, rules, entries).rules == rules
  {
  }
}
