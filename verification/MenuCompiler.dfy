/** The compiler of a view: its maps and lists, updated entry by entry, come to the compiled menu. */
module MenuCompiler {
  import opened Options
  import opened Sequences
  import opened MenuBuild
  import opened MenuBank
  import opened MenuView
  import opened Text

  class Compiler {
    const bank: Bank
    const rules: Rules
    var byItem: map<Id, Entry>
    var merged: set<Id>
    var sellable: map<Id, bool>
    var viewHidden: set<Id>
    var bankCats: map<string, Spot>
    var catPos: map<Id, int>
    var cats: map<CategoryKey, BuildCategory>
    var order: seq<CategoryKey>
    var groupSeen: set<Id>
    var groups: seq<BuildGroup>

    ghost function Scanned(): Plan
      reads `byItem, `merged, `sellable, `viewHidden, `bankCats, `catPos
    {
      Plan(bank, rules, byItem, merged, sellable, viewHidden, bankCats, catPos)
    }

    ghost function OnShelves(): Shelves
      reads `cats, `order
    {
      Shelves(cats, order)
    }

    ghost function Listed(): Listing
      reads `groupSeen, `groups
    {
      Listing(groupSeen, groups)
    }

    ghost function Done(): Work
      reads `cats, `order, `groupSeen, `groups
    {
      Work(OnShelves(), Listed())
    }

    constructor (bank: Bank, rules: Rules)
      ensures this.bank == bank && this.rules == rules && Done() == EMPTY
    {
      this.bank, this.rules := bank, rules;
      byItem, merged, sellable, viewHidden, bankCats, catPos := map[], {}, map[], {}, map[], map[];
      cats, order, groupSeen, groups := map[], [], {}, [];
    }

    /** Opens a category unless it is open already. */
    method Category(spot: Spot)
      modifies `cats, `order
      ensures OnShelves() == Opened(old(OnShelves()), spot)
    {
      if spot.key in cats { return; }
      cats := cats[spot.key := BuildCategory(spot.key, spot.name, spot.position, [])];
      order := order + [spot.key];
    }

    method Append(spot: Spot, bi: BuildItem)
      modifies `cats, `order
      ensures OnShelves() == Put(old(OnShelves()), spot, bi)
    {
      Category(spot);
      cats := cats[spot.key := cats[spot.key].(items := cats[spot.key].items + [bi])];
    }

    /** Looks a name up among the categories shown, and makes a view category of it otherwise. */
    method Named(name: string, position: int) returns (spot: Spot)
      ensures spot == NamedSpot(Scanned(), name, position)
    {
      hide Lower;
      var folded := Lower(name);
      if folded in bankCats { return bankCats[folded]; }
      return Spot(ViewKey(name), name, position);
    }

    method Sizes(sizes: seq<ItemSize>, override: map<Id, int>) returns (out: seq<BuildItemSize>)
      ensures out == SizesOf(bank, rules, sizes, override)
    {
      hide PriceOf;
      out := [];
      for i := 0 to |sizes|
        invariant out == SizesOf(bank, rules, sizes[..i], override)
      {
        PrefixOfPrefix(sizes, i);
        var s := sizes[i];
        var size := FindBankSize(bank.sizes, s.sizeId);
        if size.Some? {
          var p := PriceOf(rules, s.priceCents);
          if s.sizeId in override { p := override[s.sizeId]; }
          out := out + [BuildItemSize(s.sizeId, size.value.name, p)];
        }
      }
      assert sizes[..|sizes|] == sizes;
    }

    /** Filters an item's group ids by what the bank holds; a group seen for the first time is listed. */
    method Groups(ids: seq<Id>) returns (out: seq<Id>)
      modifies `groupSeen, `groups
      ensures out == KnownGroups(bank, ids)
      ensures Listed() == ListGroups(bank, rules, old(Listed()), ids)
    {
      hide GroupOf;
      out := [];
      for i := 0 to |ids|
        invariant out == KnownGroups(bank, ids[..i])
        invariant Listed() == ListGroups(bank, rules, old(Listed()), ids[..i])
      {
        PrefixOfPrefix(ids, i);
        var id := ids[i];
        if id in bank.groups {
          out := out + [id];
          if id !in groupSeen {
            groupSeen := groupSeen + {id};
            var g := Group(bank.groups[id]);
            groups := groups + [g];
          }
        }
      }
      assert ids[..|ids|] == ids;
    }

    method Group(g: BankGroup) returns (bg: BuildGroup)
      ensures bg == GroupOf(rules, g)
    {
      hide OptionPriceOf;
      var options := [];
      for i := 0 to |g.options|
        invariant options == OptionsOf(rules, g.options[..i])
      {
        PrefixOfPrefix(g.options, i);
        var o := g.options[i];
        var prices := [];
        for j := 0 to |o.prices|
          invariant prices == PricesOf(rules, o.prices[..j])
        {
          PrefixOfPrefix(o.prices, j);
          prices := prices + [OptionPrice(o.prices[j].sizeId, OptionPriceOf(rules, o.prices[j].priceCents))];
        }
        assert o.prices[..|o.prices|] == o.prices;
        options := options + [BuildOption(o.id, o.name, OptionPriceOf(rules, o.priceDeltaCents), prices, o.isDefault,
                                          !o.inStock)];
      }
      assert g.options[..|g.options|] == g.options;
      bg := BuildGroup(g.id, g.name, g.required, g.minSelect, g.maxSelect, g.allowMultiple, g.portions, options);
    }

    /** Builds one bank item, with its entry's changes. */
    method Item(it: BankItem, e: Option<Entry>) returns (bi: BuildItem)
      requires e == if it.id in byItem then Some(byItem[it.id]) else None
      modifies `groupSeen, `groups
      ensures bi == ItemShown(Scanned(), it)
      ensures Listed() == ListGroups(bank, rules, old(Listed()), it.groupIds)
    {
      hide SizesOf, KnownGroups, PriceOf, ListGroups, Trim;
      var sizes := Sizes(it.sizes, map[]);
      var groupIds := Groups(it.groupIds);
      bi := BuildItem(it.id, it.name, false, [it.id], PriceOf(rules, it.priceCents), sizes, !it.inStock, groupIds, [],
                      it.position);
      if e.Some? {
        var entry := e.value;
        if Trim(entry.displayName) != "" { bi := bi.(name := Trim(entry.displayName)); }
        bi := bi.(photo := entry.photo, position := entry.position);
        if entry.priceOverrideCents.Some? { bi := bi.(priceCents := entry.priceOverrideCents.value); }
        if entry.sizePrices != map[] {
          sizes := Sizes(it.sizes, entry.sizePrices);
          bi := bi.(sizes := sizes);
        }
      }
    }

    /** Shelves what an entry built, unless the entry is hidden or there is no shelf for it. */
    method Place(bi: BuildItem, e: Entry, first: Option<Stock>)
      modifies `cats, `order
      ensures OnShelves() == PutAt(old(OnShelves()), EntrySpot(Scanned(), e, first), bi)
    {
      hide Put, Trim, Lower;
      if e.hidden { return; }
      var name := Trim(e.category);
      if name != "" {
        var spot := Named(name, LAST);
        Append(spot, bi);
      } else if first.Some? {
        var cat := first.value.aisle.category;
        if cat.id in catPos {
          Append(Spot(BankKey(cat.id), cat.name, catPos[cat.id]), bi);
        }
      }
    }

    method Choice(e: Entry, it: BankItem) returns (c: BuildChoice)
      ensures c == ChoiceOf(Scanned(), e, it)
    {
      hide SizesOf, PriceOf, Trim;
      var name := it.name;
      if it.id in e.labels && Trim(e.labels[it.id]) != "" { name := Trim(e.labels[it.id]); }
      var sizes := Sizes(it.sizes, map[]);
      c := BuildChoice(it.id, name, PriceOf(rules, it.priceCents), sizes, !it.inStock);
    }

    /** A merge's anchors: its first sellable item, a choice for each, and whether all are out. */
    method MergeParts(e: Entry) returns (m: Merging)
      ensures m == MergeAnchors(Scanned(), e, e.itemIds)
    {
      hide ChoiceOf, AllStock, FindStock;
      var first: Option<Stock>, choices, allOut := None, [], true;
      for i := 0 to |e.itemIds|
        invariant Merging(first, choices, allOut) == MergeAnchors(Scanned(), e, e.itemIds[..i])
      {
        PrefixOfPrefix(e.itemIds, i);
        var id := e.itemIds[i];
        var found := FindStock(AllStock(bank), id);
        if found.None? { continue; }
        if !(id in sellable && sellable[id]) || id in viewHidden { continue; }
        var it := found.value.item;
        if first.None? { first := found; }
        var choice := Choice(e, it);
        choices := choices + [choice];
        if it.inStock { allOut := false; }
      }
      assert e.itemIds[..|e.itemIds|] == e.itemIds;
      m := Merging(first, choices, allOut);
    }

    method Merge(e: Entry)
      modifies `cats, `order, `groupSeen, `groups
      ensures Done() == PlaceMerge(Scanned(), old(Done()), e)
    {
      hide SizesOf, KnownGroups, PriceOf, ListGroups, Trim, MergeAnchors, EntrySpot, PutAt;
      if |e.itemIds| < 2 { return; }
      var m := MergeParts(e);
      if m.first.None? { return; }
      var item := m.first.value.item;
      var sizes := Sizes(item.sizes, map[]);
      var groupIds := Groups(item.groupIds);
      var bi := BuildItem(e.id, Trim(e.displayName), e.photo, e.itemIds, PriceOf(rules, item.priceCents),
                          sizes, m.allOut, groupIds, m.choices, e.position);
      if bi.name == "" { bi := bi.(name := item.name); }
      if e.priceOverrideCents.Some? { bi := bi.(priceCents := e.priceOverrideCents.value); }
      Place(bi, e, m.first);
    }

    /** An augment's anchors: its first item and whether any is out; none of it when one is gone or can't be sold. */
    method AugmentParts(ids: seq<Id>) returns (a: Option<Augmenting>)
      ensures a == AugmentAnchors(Scanned(), ids)
    {
      hide AllStock, FindStock;
      var first: Option<Stock>, soldOut := None, false;
      for i := 0 to |ids|
        invariant AugmentAnchors(Scanned(), ids[..i]) == Some(Augmenting(first, soldOut))
      {
        PrefixOfPrefix(ids, i);
        var id := ids[i];
        var found := FindStock(AllStock(bank), id);
        if found.None? || !(id in sellable && sellable[id]) {
          NoAugment(Scanned(), ids, i);
          return None;
        }
        if first.None? { first := found; }
        if !found.value.item.inStock { soldOut := true; }
      }
      assert ids[..|ids|] == ids;
      a := Some(Augmenting(first, soldOut));
    }

    method Augment(e: Entry)
      modifies `cats, `order
      ensures Done() == PlaceAugment(Scanned(), old(Done()), e)
    {
      hide Trim, AugmentAnchors, EntrySpot, PutAt;
      if Trim(e.displayName) == "" || e.priceOverrideCents.None? || e.itemIds == [] { return; }
      var a := AugmentParts(e.itemIds);
      if a.None? { return; }
      Place(BuildItem(e.id, Trim(e.displayName), e.photo, e.itemIds, e.priceOverrideCents.value, [], a.value.soldOut,
                      [], [], e.position), e, a.value.first);
    }

    /** First pass over the entries: which one changes which item, and which items merges take. */
    method ReadEntries(entries: seq<Entry>)
      modifies `byItem, `merged
      ensures byItem == ByItem(bank, entries) && merged == Merged(entries)
    {
      hide AllStock, FindStock;
      byItem, merged := map[], {};
      for i := 0 to |entries|
        invariant byItem == ByItem(bank, entries[..i]) && merged == Merged(entries[..i])
      {
        PrefixOfPrefix(entries, i);
        var e := entries[i];
        OneEntryMore(entries, i);
        if e.kind == ItemEntry {
          if |e.itemIds| == 1 && FindStock(AllStock(bank), e.itemIds[0]).Some? {
            byItem := byItem[e.itemIds[0] := e];
          }
        } else if e.kind == MergeEntry {
          merged := merged + set id | id in e.itemIds;
        }
      }
      assert entries[..|entries|] == entries;
    }

    /** First pass over the bank. */
    method ScanBank()
      modifies `sellable, `viewHidden, `bankCats
      ensures sellable == Sellable(AllStock(bank))
      ensures viewHidden == ViewHidden(rules, byItem, AllStock(bank))
      ensures bankCats == BankCats(rules, Aisles(bank.menus))
    {
      hide Aisles, Trim, Lower, HidesItem, OnCount;
      sellable, viewHidden, bankCats := map[], {}, map[];
      var aisles, place := Aisles(bank.menus), 0;
      for i := 0 to |aisles|
        invariant place == i
        invariant sellable == Sellable(StockOf(aisles[..i]))
        invariant viewHidden == ViewHidden(rules, byItem, StockOf(aisles[..i]))
        invariant bankCats == BankCats(rules, aisles[..i])
      {
        PrefixOfPrefix(aisles, i);
        place := place + 1;
        ScanShelf(aisles, i);
        var a := aisles[i];
        var folded := Lower(Trim(a.category.name));
        if a.On() && a.category.id !in rules.hiddenCategories && folded != "" {
          if folded !in bankCats {
            bankCats := bankCats[folded := Spot(BankKey(a.category.id), a.category.name, place)];
          }
        }
      }
      assert aisles[..|aisles|] == aisles;
    }

    method ScanShelf(aisles: seq<Aisle>, i: nat)
      requires i < |aisles|
      requires sellable == Sellable(StockOf(aisles[..i]))
      requires viewHidden == ViewHidden(rules, byItem, StockOf(aisles[..i]))
      modifies `sellable, `viewHidden
      ensures sellable == Sellable(StockOf(aisles[..i+1]))
      ensures viewHidden == ViewHidden(rules, byItem, StockOf(aisles[..i+1]))
    {
      hide OnCount, Sellable, ViewHidden;
      PrefixOfPrefix(aisles, i);
      var items := aisles[i].category.items;
      ghost var before, shelf := StockOf(aisles[..i]), Shelf(aisles[i], OnCount(aisles[..i+1]));
      assert before + shelf[..0] == before;
      for j := 0 to |items|
        invariant sellable == Sellable(before + shelf[..j])
        invariant viewHidden == ViewHidden(rules, byItem, before + shelf[..j])
      {
        assert before + shelf[..j+1] == before + shelf[..j] + [shelf[j]];
        OneStockMore(rules, byItem, before + shelf[..j], shelf[j]);
        var it := items[j];
        sellable := sellable[it.id := aisles[i].On()];
        if aisles[i].category.id in rules.hiddenCategories || (it.id in byItem && byItem[it.id].hidden) {
          viewHidden := viewHidden + {it.id};
        }
      }
      assert shelf[..|items|] == shelf;
    }

    /** Second pass over the bank: everything shown is put on its shelf. */
    method PlaceBank()
      modifies `cats, `order, `groupSeen, `groups, `catPos
      ensures catPos == CatPos(rules, Aisles(bank.menus))
      ensures Done() == PlaceItems(Scanned(), old(Done()), AllStock(bank))
    {
      hide Aisles, PlaceItem, PlaceItems, StockOf, OnCount, CatPos, Shows;
      catPos := map[];
      var aisles, pos := Aisles(bank.menus), 0;
      ghost var plan := Scanned();
      NoAisles(plan, Done(), aisles);
      for i := 0 to |aisles|
        invariant pos == OnCount(aisles[..i])
        invariant catPos == CatPos(rules, aisles[..i])
        invariant Scanned() == plan.(catPos := catPos)
        invariant Done() == PlaceItems(plan, old(Done()), StockOf(aisles[..i]))
      {
        OneAisleMore(rules, aisles, i);
        if aisles[i].menuOn { pos := pos + 1; }
        if Shows(rules, aisles[i]) { catPos := catPos[aisles[i].category.id := pos]; }
        PlaceShelf(aisles[i], pos, plan);
        PlaceMoreItems(plan, old(Done()), StockOf(aisles[..i]), Shelf(aisles[i], pos));
      }
      assert aisles[..|aisles|] == aisles;
      CatPosUnused(plan, old(Done()), AllStock(bank), catPos);
    }

    /** Places one category's items. */
    method PlaceShelf(a: Aisle, pos: int, ghost plan: Plan)
      requires Scanned() == plan.(catPos := catPos)
      modifies `cats, `order, `groupSeen, `groups
      ensures Done() == PlaceItems(plan, old(Done()), Shelf(a, pos))
    {
      hide PlaceItem;
      var items := a.category.items;
      ghost var shelf := Shelf(a, pos);
      for j := 0 to |items|
        invariant Done() == PlaceItems(plan, old(Done()), shelf[..j])
      {
        PrefixOfPrefix(shelf, j);
        PlaceOne(a, pos, items[j], plan);
      }
      assert shelf[..|items|] == shelf;
    }

    method PlaceOne(a: Aisle, pos: int, it: BankItem, ghost plan: Plan)
      requires Scanned() == plan.(catPos := catPos)
      modifies `cats, `order, `groupSeen, `groups
      ensures Done() == PlaceItem(plan, old(Done()), Stock(a, pos, it))
    {
      hide PlaceItem, Shows;
      ghost var s := Stock(a, pos, it);
      NotShown(plan, Done(), s);
      assert plan.byItem == byItem && plan.merged == merged && plan.rules == rules;
      if !Shows(rules, a) || it.id in merged { return; }
      var e := if it.id in byItem then Some(byItem[it.id]) else None;
      if e.Some? && e.value.hidden { return; }
      PlaceShown(a, pos, it, e, plan);
    }

    method PlaceShown(a: Aisle, pos: int, it: BankItem, e: Option<Entry>, ghost plan: Plan)
      requires Scanned() == plan.(catPos := catPos) && ShownAlone(plan, Stock(a, pos, it))
      requires e == if it.id in byItem then Some(byItem[it.id]) else None
      modifies `cats, `order, `groupSeen, `groups
      ensures Done() == PlaceItem(plan, old(Done()), Stock(a, pos, it))
    {
      hide ItemShown, ListGroups, Put, Opened, ShownAlone, TargetOf;
      SameItem(plan, catPos, it);
      assert plan.bank == bank && plan.rules == rules;
      var bi := Item(it, e);
      var target := Spot(BankKey(a.category.id), a.category.name, pos);
      Category(target);
      target := Target(target, it, e, plan, Stock(a, pos, it));
      Append(target, bi);
    }

    /** An item's own category, unless its entry moves it. */
    method Target(own: Spot, it: BankItem, e: Option<Entry>, ghost plan: Plan, ghost s: Stock) returns (target: Spot)
      requires Scanned() == plan.(catPos := catPos)
      requires own == OwnSpot(s) && it == s.item && e == if it.id in byItem then Some(byItem[it.id]) else None
      ensures target == TargetOf(plan, s)
    {
      hide Trim, NamedSpot;
      target := own;
      if e.Some? && Trim(e.value.category) != "" {
        SameSpot(plan, catPos, Trim(e.value.category), own.position);
        target := Named(Trim(e.value.category), own.position);
      }
    }

    method PlaceOthers(entries: seq<Entry>)
      modifies `cats, `order, `groupSeen, `groups
      ensures Done() == PlaceEntries(Scanned(), old(Done()), entries)
    {
      hide PlaceMerge, PlaceAugment;
      for i := 0 to |entries|
        invariant Done() == PlaceEntries(Scanned(), old(Done()), entries[..i])
      {
        PrefixOfPrefix(entries, i);
        match entries[i].kind
        case MergeEntry => Merge(entries[i]);
        case AugmentEntry => Augment(entries[i]);
        case ItemEntry =>
        case MapEntry =>
      }
      assert entries[..|entries|] == entries;
    }

    method Run(entries: seq<Entry>) returns (menu: Menu)
      requires Done() == EMPTY
      modifies this
      ensures menu == Compiled(bank, rules, entries)
    {
      hide PlaceItems, PlaceEntries, AllStock, ByItem, Merged, Sellable, ViewHidden, BankCats, CatPos, Filled, Aisles, WellKept;
      ReadEntries(entries);
      ScanBank();
      PlaceBank();
      PlaceOthers(entries);
      WorkIsWellKept(bank, rules, entries);
      assert Done() == WorkOf(bank, rules, entries);
      assert WellKept(OnShelves());
      var categories := Collect();
      menu := Menu(SortBy(categories, CategoryPosition), groups);
    }

    /** The filled categories, each with its items sorted by position. */
    method Collect() returns (out: seq<BuildCategory>)
      requires WellKept(OnShelves())
      ensures out == Filled(cats, order)
    {
      hide SortBy;
      out := [];
      for i := 0 to |order|
        invariant forall k <- order[..i] :: k in cats
        invariant out == Filled(cats, order[..i])
      {
        PrefixOfPrefix(order, i);
        var cat := cats[order[i]];
        if |cat.items| == 0 { continue; }
        out := out + [SortedItems(cat)];
      }
      assert order[..|order|] == order;
    }
  }

  lemma OneEntryMore(entries: seq<Entry>, i: nat)
    requires i < |entries|
    ensures Merged(entries[..i+1])
         == Merged(entries[..i]) + if entries[i].kind == MergeEntry then set id | id in entries[i].itemIds else {}
  {
    assert entries[..i+1] == entries[..i] + [entries[i]];
  }

  lemma OneStockMore(rules: Rules, byItem: map<Id, Entry>, stock: seq<Stock>, s: Stock)
    ensures Sellable(stock + [s]) == Sellable(stock)[s.item.id := s.aisle.On()]
    ensures ViewHidden(rules, byItem, stock + [s])
         == ViewHidden(rules, byItem, stock) + if HidesItem(rules, byItem, s) then {s.item.id} else {}
  {
    hide HidesItem;
    assert (stock + [s])[..|stock|] == stock;
  }

  /** Once one anchor is gone or can't be sold, no later one brings the augment back. */
  lemma {:induction false} NoAugment(plan: Plan, ids: seq<Id>, i: nat)
    requires i < |ids| && AugmentAnchors(plan, ids[..i+1]) == None
    ensures AugmentAnchors(plan, ids) == None
    decreases |ids|
  {
    if i == |ids| - 1 {
      assert ids[..i+1] == ids;
    } else {
      assert ids[..|ids|-1][..i+1] == ids[..i+1];
      NoAugment(plan, ids[..|ids|-1], i);
    }
  }

  lemma NoAisles(plan: Plan, w: Work, aisles: seq<Aisle>)
    ensures OnCount(aisles[..0]) == 0 && CatPos(plan.rules, aisles[..0]) == map[]
    ensures PlaceItems(plan, w, StockOf(aisles[..0])) == w
  {
  }

  lemma OneAisleMore(rules: Rules, aisles: seq<Aisle>, i: nat)
    requires i < |aisles|
    ensures OnCount(aisles[..i+1]) == OnCount(aisles[..i]) + if aisles[i].menuOn then 1 else 0
    ensures StockOf(aisles[..i+1]) == StockOf(aisles[..i]) + Shelf(aisles[i], OnCount(aisles[..i+1]))
    ensures CatPos(rules, aisles[..i+1])
         == if Shows(rules, aisles[i]) then CatPos(rules, aisles[..i])[aisles[i].category.id := OnCount(aisles[..i+1])]
            else CatPos(rules, aisles[..i])
  {
    hide Shows;
    PrefixOfPrefix(aisles, i);
  }

  lemma {:induction false} PlaceMoreItems(plan: Plan, w: Work, a: seq<Stock>, b: seq<Stock>)
    ensures PlaceItems(plan, PlaceItems(plan, w, a), b) == PlaceItems(plan, w, a + b)
    decreases |b|
  {
    hide PlaceItem;
    if b == [] {
      assert a + b == a;
    } else {
      assert (a + b)[..|a + b|-1] == a + b[..|b|-1];
      PlaceMoreItems(plan, w, a, b[..|b|-1]);
    }
  }

  lemma NotShown(plan: Plan, w: Work, s: Stock)
    ensures !ShownAlone(plan, s) ==> PlaceItem(plan, w, s) == w
  {
    hide ShownAlone, ItemShown, TargetOf;
  }

  lemma SameItem(plan: Plan, catPos: map<Id, int>, it: BankItem)
    ensures ItemShown(plan.(catPos := catPos), it) == ItemShown(plan, it)
  {
    hide Trim, SizesOf, KnownGroups, PriceOf;
  }

  lemma SameSpot(plan: Plan, catPos: map<Id, int>, name: string, pos: int)
    ensures NamedSpot(plan.(catPos := catPos), name, pos) == NamedSpot(plan, name, pos)
  {
    hide Lower;
  }

  /** Placing bank items does not look at the places kept for merges and augments. */
  lemma {:induction false} CatPosUnused(plan: Plan, w: Work, stock: seq<Stock>, catPos: map<Id, int>)
    ensures PlaceItems(plan.(catPos := catPos), w, stock) == PlaceItems(plan, w, stock)
    decreases |stock|
  {
    hide ItemShown, NamedSpot, Put, Opened, ListGroups, Trim;
    if stock != [] {
      CatPosUnused(plan, w, stock[..|stock|-1], catPos);
      var s := stock[|stock|-1];
      SameItem(plan, catPos, s.item);
      if s.item.id in plan.byItem {
        SameSpot(plan, catPos, Trim(plan.byItem[s.item.id].category), s.place);
      }
    }
  }
}
