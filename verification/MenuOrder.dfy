/** Where a compiled menu's categories stand, and when a moved item puts them out of the bank's order. */
module MenuOrder {
  import opened Options
  import opened Sequences
  import opened MenuBuild
  import opened MenuBank
  import opened MenuView
  import opened MenuPlacement
  import opened Text

  // --- visits -----------------------------------------------------------------------------------

  /** The compiler asking for a category: under the name an entry gives, or as an item's own. */
  datatype Visit = Visit(spot: Spot, named: bool)

  /** Does the item's entry name a category? */
  predicate Moved(plan: Plan, s: Stock) {
    s.item.id in plan.byItem && Trim(plan.byItem[s.item.id].category) != ""
  }

  /** An item that shows alone asks for its own category, and then for the one its entry names. */
  function ItemVisits(plan: Plan, s: Stock): seq<Visit> {
    if !ShownAlone(plan, s) then []
    else [Visit(OwnSpot(s), false)] + if Moved(plan, s) then [Visit(TargetOf(plan, s), true)] else []
  }

  function StockVisits(plan: Plan, stock: seq<Stock>): seq<Visit>
    decreases |stock|
  {
    if stock == [] then [] else StockVisits(plan, stock[..|stock|-1]) + ItemVisits(plan, stock[|stock|-1])
  }

  /** The first bank item of a merge or an augment. */
  function FirstOf(plan: Plan, e: Entry): Option<Stock> {
    if e.kind == MergeEntry then MergeAnchors(plan, e, e.itemIds).first
    else
      match AugmentAnchors(plan, e.itemIds)
      case None => None
      case Some(a) => a.first
  }

  /** An entry that adds an item asks for the category it names, or else for that of its first item. */
  function EntryVisits(plan: Plan, e: Entry): seq<Visit> {
    match EntrySpot(plan, e, FirstOf(plan, e))
    case None => []
    case Some(spot) => if Adds(plan, e).None? then [] else [Visit(spot, Trim(e.category) != "")]
  }

  function EntriesVisits(plan: Plan, entries: seq<Entry>): seq<Visit>
    decreases |entries|
  {
    if entries == [] then []
    else EntriesVisits(plan, entries[..|entries|-1]) + EntryVisits(plan, entries[|entries|-1])
  }

  /** Every visit of a compilation, in order. */
  function Visits(bank: Bank, rules: Rules, entries: seq<Entry>): seq<Visit> {
    var plan := PlanOf(bank, rules, entries);
    StockVisits(plan, AllStock(bank)) + EntriesVisits(plan, entries)
  }

  function VisitKeys(vs: seq<Visit>): (ks: seq<CategoryKey>)
    ensures |ks| == |vs| && forall i :: 0 <= i < |vs| ==> ks[i] == vs[i].spot.key
  {
    seq(|vs|, i requires 0 <= i < |vs| => vs[i].spot.key)
  }

  function FirstVisit(vs: seq<Visit>, key: CategoryKey): (v: Option<Visit>)
    ensures v.Some? <==> key in VisitKeys(vs)
    ensures v.Some? ==> v.value in vs && v.value.spot.key == key
  {
    if vs == [] then None
    else
      var init, last := vs[..|vs|-1], vs[|vs|-1];
      assert VisitKeys(vs) == VisitKeys(init) + [last.spot.key];
      match FirstVisit(init, key)
      case Some(v) => Some(v)
      case None => if last.spot.key == key then Some(last) else None
  }

  /** The shelves opened so far are those visited, in that order, each at its first visit's position. */
  ghost predicate Follows(sh: Shelves, vs: seq<Visit>) {
    && sh.order == Firsts(VisitKeys(vs))
    && (forall k :: k in sh.cats <==> FirstVisit(vs, k).Some?)
    && forall k <- sh.cats :: sh.cats[k].position == FirstVisit(vs, k).value.spot.position
  }

  lemma OneVisitMore(vs: seq<Visit>, v: Visit, key: CategoryKey)
    ensures VisitKeys(vs + [v]) == VisitKeys(vs) + [v.spot.key]
    ensures Firsts(VisitKeys(vs + [v]))
         == Firsts(VisitKeys(vs)) + if v.spot.key in VisitKeys(vs) then [] else [v.spot.key]
    ensures FirstVisit(vs + [v], key)
         == if FirstVisit(vs, key).Some? then FirstVisit(vs, key)
            else if v.spot.key == key then Some(v) else None
  {
    assert (vs + [v])[..|vs|] == vs;
    var ks := VisitKeys(vs) + [v.spot.key];
    assert VisitKeys(vs + [v]) == ks;
    assert ks[..|vs|] == VisitKeys(vs);
  }

  lemma OpeningFollows(sh: Shelves, vs: seq<Visit>, v: Visit)
    requires Follows(sh, vs)
    ensures Follows(Opened(sh, v.spot), vs + [v])
  {
    hide FirstVisit, VisitKeys, Firsts;
    var r := Opened(sh, v.spot);
    forall k ensures k in r.cats <==> FirstVisit(vs + [v], k).Some? { OneVisitMore(vs, v, k); }
    forall k <- r.cats ensures r.cats[k].position == FirstVisit(vs + [v], k).value.spot.position {
      OneVisitMore(vs, v, k);
    }
    OneVisitMore(vs, v, v.spot.key);
    assert sh.order + [] == sh.order;
  }

  lemma PuttingFollows(sh: Shelves, vs: seq<Visit>, spot: Spot, bi: BuildItem)
    requires Follows(Opened(sh, spot), vs)
    ensures Follows(Put(sh, spot, bi), vs)
  {
    hide FirstVisit, VisitKeys, Firsts, Opened;
  }

  lemma ItemFollows(plan: Plan, w: Work, vs: seq<Visit>, s: Stock)
    requires Follows(w.shelves, vs)
    ensures Follows(PlaceItem(plan, w, s).shelves, vs + ItemVisits(plan, s))
  {
    hide Follows, ShownAlone, ItemShown, ListGroups, Put, Opened, NamedSpot;
    if ShownAlone(plan, s) {
      var own, to, bi := OwnSpot(s), TargetOf(plan, s), ItemShown(plan, s.item);
      var sh := Opened(w.shelves, own);
      OpeningFollows(w.shelves, vs, Visit(own, false));
      if Moved(plan, s) {
        OpeningFollows(sh, vs + [Visit(own, false)], Visit(to, true));
        assert vs + [Visit(own, false)] + [Visit(to, true)] == vs + ItemVisits(plan, s);
      } else {
        assert Opened(sh, own) == sh by { OpenedTwice(w.shelves, own); }
        assert vs + ItemVisits(plan, s) == vs + [Visit(own, false)];
      }
      PuttingFollows(sh, vs + ItemVisits(plan, s), to, bi);
    } else {
      assert vs + [] == vs;
    }
  }

  lemma OpenedTwice(sh: Shelves, spot: Spot)
    ensures Opened(Opened(sh, spot), spot) == Opened(sh, spot)
  {
  }

  lemma {:induction false} ItemsFollow(plan: Plan, w: Work, stock: seq<Stock>)
    requires Follows(w.shelves, [])
    ensures Follows(PlaceItems(plan, w, stock).shelves, StockVisits(plan, stock))
    decreases |stock|
  {
    hide Follows, PlaceItem, ItemVisits;
    if stock != [] {
      ItemsFollow(plan, w, stock[..|stock|-1]);
      ItemFollows(plan, PlaceItems(plan, w, stock[..|stock|-1]), StockVisits(plan, stock[..|stock|-1]), stock[|stock|-1]);
    }
  }

  /** What placing an entry does to the shelves. */
  lemma EntryShelves(plan: Plan, w: Work, e: Entry)
    ensures PlaceEntry(plan, w, e).shelves
         == match Adds(plan, e)
            case None => w.shelves
            case Some(bi) => PutAt(w.shelves, EntrySpot(plan, e, FirstOf(plan, e)), bi)
    ensures Adds(plan, e).Some? ==> EntrySpot(plan, e, FirstOf(plan, e)).Some?
  {
    hide MergeAnchors, AugmentAnchors, EntrySpot, MergeShown, AugmentShown, ListGroups, Put, Trim;
  }

  lemma EntryFollows(plan: Plan, w: Work, vs: seq<Visit>, e: Entry)
    requires Follows(w.shelves, vs)
    ensures Follows(PlaceEntry(plan, w, e).shelves, vs + EntryVisits(plan, e))
  {
    hide Follows, Adds, EntrySpot, FirstOf, Opened, Put, PlaceEntry;
    EntryShelves(plan, w, e);
    if Adds(plan, e).Some? {
      var spot := EntrySpot(plan, e, FirstOf(plan, e)).value;
      var v := Visit(spot, Trim(e.category) != "");
      OpeningFollows(w.shelves, vs, v);
      PuttingFollows(w.shelves, vs + [v], spot, Adds(plan, e).value);
    } else {
      assert vs + [] == vs;
    }
  }

  lemma {:induction false} EntriesFollow(plan: Plan, w: Work, vs: seq<Visit>, entries: seq<Entry>)
    requires Follows(w.shelves, vs)
    ensures Follows(PlaceEntries(plan, w, entries).shelves, vs + EntriesVisits(plan, entries))
    decreases |entries|
  {
    hide Follows, PlaceEntry, EntryVisits;
    if entries == [] {
      assert vs + [] == vs;
    } else {
      var init, last := entries[..|entries|-1], entries[|entries|-1];
      EntriesFollow(plan, w, vs, init);
      EntryFollows(plan, PlaceEntries(plan, w, init), vs + EntriesVisits(plan, init), last);
      assert vs + EntriesVisits(plan, init) + EntryVisits(plan, last) == vs + EntriesVisits(plan, entries);
    }
  }

  lemma NothingFollows()
    ensures Follows(EMPTY.shelves, [])
  {
  }

  lemma WorkFollows(bank: Bank, rules: Rules, entries: seq<Entry>)
    ensures Follows(WorkOf(bank, rules, entries).shelves, Visits(bank, rules, entries))
  {
    hide Follows, PlanOf, AllStock, PlaceItems, PlaceEntries;
    var plan, stock := PlanOf(bank, rules, entries), AllStock(bank);
    NothingFollows();
    ItemsFollow(plan, EMPTY, stock);
    EntriesFollow(plan, PlaceItems(plan, EMPTY, stock), StockVisits(plan, stock), entries);
  }

  // --- the order of any two categories ------------------------------------------------------------

  /** Does a category come before another on the menu? */
  ghost predicate StandsBefore(m: Menu, a: CategoryKey, b: CategoryKey) {
    exists i, j :: 0 <= i < j < |m.categories| && m.categories[i].key == a && m.categories[j].key == b
  }

  lemma {:induction false} FilledInOrder(cats: map<CategoryKey, BuildCategory>, order: seq<CategoryKey>,
                                         a: CategoryKey, b: CategoryKey)
    requires forall k <- order :: k in cats && cats[k].key == k
    requires a in cats && b in cats && cats[a].key == a && cats[b].key == b
    requires cats[a].items != [] && cats[b].items != []
    ensures Before(Filled(cats, order), SortedItems(cats[a]), SortedItems(cats[b])) <==> Before(order, a, b)
    ensures SortedItems(cats[b]) in Filled(cats, order) <==> b in order
    decreases |order|
  {
    hide Before, SortBy;
    var x, y := SortedItems(cats[a]), SortedItems(cats[b]);
    if order == [] {
      NothingBefore(a, b);
      NothingBefore(x, y);
    } else {
      var init, last := order[..|order|-1], order[|order|-1];
      assert order == init + [last];
      FilledInOrder(cats, init, a, b);
      BeforeOneMore(init, last, a, b);
      BeforeOneMore(Filled(cats, init), SortedItems(cats[last]), x, y);
      assert Filled(cats, init) + [] == Filled(cats, init);
    }
  }

  lemma DistinctBefore<T>(s: seq<T>, i: nat, j: nat)
    requires i < |s| && j < |s| && forall k, l :: 0 <= k < l < |s| ==> s[k] != s[l]
    ensures Before(s, s[i], s[j]) <==> i < j
  {
    if Before(s, s[i], s[j]) {
      var k :| 0 <= k < |s| && s[k] == s[i] && s[j] !in s[..k+1];
      assert k == i;
    }
    if i < j { assert s[j] !in s[..i+1]; }
  }

  /** A category stands at the position its first visit gave it. */
  lemma CategoryIsVisited(bank: Bank, rules: Rules, entries: seq<Entry>, i: nat)
    requires i < |Compiled(bank, rules, entries).categories|
    ensures var c, first := Compiled(bank, rules, entries).categories[i],
                            FirstVisit(Visits(bank, rules, entries), Compiled(bank, rules, entries).categories[i].key);
            first.Some? && first.value.spot.position == c.position
  {
    hide WorkOf, Compiled, SortBy, Visits, FirstVisit, VisitKeys, Firsts;
    WorkFollows(bank, rules, entries);
    CategoryComesFromItsShelf(bank, rules, entries, i);
  }

  /** Of two categories the one at the lower position comes first, or at equal positions the one visited first. */
  lemma CategoriesStandAsVisited(bank: Bank, rules: Rules, entries: seq<Entry>, i: nat, j: nat)
    requires var cs := Compiled(bank, rules, entries).categories; i < |cs| && j < |cs| && i != j
    ensures var cs, vs := Compiled(bank, rules, entries).categories, Visits(bank, rules, entries);
            i < j <==> || cs[i].position < cs[j].position
                       || (cs[i].position == cs[j].position && Before(VisitKeys(vs), cs[i].key, cs[j].key))
  {
    hide WorkOf, Filled, SortBy, Visits, Before, FirstVisit, VisitKeys, Firsts;
    var cs, vs := Compiled(bank, rules, entries).categories, Visits(bank, rules, entries);
    var sh := WorkOf(bank, rules, entries).shelves;
    WorkIsWellKept(bank, rules, entries);
    WorkFollows(bank, rules, entries);
    CategoriesAreOrdered(bank, rules, entries);
    CategoryComesFromItsShelf(bank, rules, entries, i);
    CategoryComesFromItsShelf(bank, rules, entries, j);
    if cs[i].position == cs[j].position {
      SortByIsStable(Filled(sh.cats, sh.order), CategoryPosition, cs[i], cs[j]);
      FilledInOrder(sh.cats, sh.order, cs[i].key, cs[j].key);
      FirstsKeepTheOrder(VisitKeys(vs), cs[i].key, cs[j].key);
      DistinctBefore(cs, i, j);
    }
  }

  lemma CategoryComesFromItsShelf(bank: Bank, rules: Rules, entries: seq<Entry>, i: nat)
    requires i < |Compiled(bank, rules, entries).categories|
    ensures WellKept(WorkOf(bank, rules, entries).shelves)
    ensures var c, sh := Compiled(bank, rules, entries).categories[i], WorkOf(bank, rules, entries).shelves;
            c.key in sh.cats && sh.cats[c.key].items != [] && c == SortedItems(sh.cats[c.key])
  {
    hide WorkOf, Filled, SortBy;
    WorkIsWellKept(bank, rules, entries);
    var sh := WorkOf(bank, rules, entries).shelves;
    FilledCategories(sh.cats, sh.order);
    var filled := Filled(sh.cats, sh.order);
    SortByMembers(filled, CategoryPosition);
    var c := Compiled(bank, rules, entries).categories[i];
    assert c in SortBy(filled, CategoryPosition);
    SortByIsSorted(sh.cats[c.key].items, ItemPosition);
  }

  // --- categories of the bank ---------------------------------------------------------------------

  /** A category the view shows, with an id of its own. */
  predicate OnShow(rules: Rules, aisles: seq<Aisle>, i: nat)
    requires i < |aisles|
  {
    Shows(rules, aisles[i]) && forall j :: 0 <= j < |aisles| && j != i ==> aisles[j].category.id != aisles[i].category.id
  }

  function KeyOf(a: Aisle): CategoryKey {
    BankKey(a.category.id)
  }

  lemma {:induction false} WhereStockStands(aisles: seq<Aisle>, s: Stock)
    requires s in StockOf(aisles)
    ensures exists k :: 0 <= k < |aisles| && s.aisle == aisles[k] && s.place == OnCount(aisles[..k+1])
    decreases |aisles|
  {
    var init := aisles[..|aisles|-1];
    if s in StockOf(init) {
      WhereStockStands(init, s);
      var k :| 0 <= k < |init| && s.aisle == init[k] && s.place == OnCount(init[..k+1]);
      assert init[..k+1] == aisles[..k+1];
    } else {
      assert s in Shelf(aisles[|init|], OnCount(aisles));
      assert aisles[..|init|+1] == aisles;
    }
  }

  /** The name an entry finds a category by. */
  function Folded(a: Aisle): string {
    Lower(Trim(a.category.name))
  }

  /** The first category the view shows under a folded name. */
  ghost predicate FirstNamed(rules: Rules, aisles: seq<Aisle>, k: int, name: string) {
    && 0 <= k < |aisles| && Shows(rules, aisles[k]) && Folded(aisles[k]) == name != ""
    && forall j :: 0 <= j < k && Shows(rules, aisles[j]) ==> Folded(aisles[j]) != name
  }

  lemma {:induction false} WhereNamesLead(rules: Rules, aisles: seq<Aisle>, name: string)
    ensures name in BankCats(rules, aisles) ==>
              exists k :: FirstNamed(rules, aisles, k, name)
                          && BankCats(rules, aisles)[name] == Spot(KeyOf(aisles[k]), aisles[k].category.name, k + 1)
    ensures name !in BankCats(rules, aisles) ==> forall k :: !FirstNamed(rules, aisles, k, name)
    decreases |aisles|
  {
    hide Shows, Trim, Lower;
    if aisles != [] {
      var init, a := aisles[..|aisles|-1], aisles[|aisles|-1];
      WhereNamesLead(rules, init, name);
      if name in BankCats(rules, init) {
        var k :| FirstNamed(rules, init, k, name)
                 && BankCats(rules, init)[name] == Spot(KeyOf(init[k]), init[k].category.name, k + 1);
        assert FirstNamed(rules, aisles, k, name);
      } else {
        if name != "" { NoneNamedBefore(rules, init, |init|, name); }
        if name in BankCats(rules, aisles) { assert FirstNamed(rules, aisles, |init|, name); }
        forall k ensures FirstNamed(rules, aisles, k, name) ==> k == |init| {
          assert k < |init| && FirstNamed(rules, aisles, k, name) ==> FirstNamed(rules, init, k, name);
        }
      }
    }
  }

  /** Without a first of a name there is none of the name. */
  lemma {:induction false} NoneNamedBefore(rules: Rules, aisles: seq<Aisle>, n: nat, name: string)
    requires n <= |aisles| && name != "" && forall k :: !FirstNamed(rules, aisles, k, name)
    ensures forall j :: 0 <= j < n && Shows(rules, aisles[j]) ==> Folded(aisles[j]) != name
  {
    hide Shows, Folded;
    if n > 0 {
      NoneNamedBefore(rules, aisles, n - 1, name);
      assert !FirstNamed(rules, aisles, n - 1, name);
    }
  }

  lemma {:induction false} WherePlacesLead(rules: Rules, aisles: seq<Aisle>, id: Id)
    ensures id in CatPos(rules, aisles) ==>
              exists k :: 0 <= k < |aisles| && aisles[k].category.id == id
                          && CatPos(rules, aisles)[id] == OnCount(aisles[..k+1])
    decreases |aisles|
  {
    hide Shows, OnCount;
    if aisles != [] {
      var init := aisles[..|aisles|-1];
      WherePlacesLead(rules, init, id);
      assert aisles[..|aisles|] == aisles;
      if id in CatPos(rules, init) {
        var k :| 0 <= k < |init| && init[k].category.id == id && CatPos(rules, init)[id] == OnCount(init[..k+1]);
        assert init[..k+1] == aisles[..k+1];
      }
    }
  }

  /** A category's place counted over all menus, and over those that are on. */
  function BankPlace(i: nat): int {
    i + 1
  }

  function ShownPlace(aisles: seq<Aisle>, i: nat): int
    requires i < |aisles|
  {
    OnCount(aisles[..i+1])
  }

  /** Which category of the bank a name in an entry leads to, and at which place. */
  lemma WhereAMoveGoes(bank: Bank, rules: Rules, entries: seq<Entry>, i: nat, name: string, later: int)
    requires i < |Aisles(bank.menus)| && OnShow(rules, Aisles(bank.menus), i)
    ensures var aisles, spot := Aisles(bank.menus), NamedSpot(PlanOf(bank, rules, entries), name, later);
            && (spot.key == KeyOf(aisles[i]) <==> FirstNamed(rules, aisles, i, Lower(name)))
            && (spot.key == KeyOf(aisles[i]) ==> spot.position == BankPlace(i))
  {
    hide Aisles, Trim, Lower, ByItem, Sellable, ViewHidden, BankCats, CatPos, AllStock, Shows;
    WhereNamesLead(rules, Aisles(bank.menus), Lower(name));
  }

  /** Is the visit to the category at the place it should have: counted over all menus when it is named there? */
  ghost predicate WellPlaced(aisles: seq<Aisle>, i: nat, v: Visit)
    requires i < |aisles|
  {
    v.spot.key == KeyOf(aisles[i]) ==> v.spot.position == if v.named then BankPlace(i) else ShownPlace(aisles, i)
  }

  lemma OwnIsWellPlaced(rules: Rules, aisles: seq<Aisle>, i: nat, s: Stock)
    requires i < |aisles| && OnShow(rules, aisles, i) && s in StockOf(aisles)
    ensures WellPlaced(aisles, i, Visit(OwnSpot(s), false))
  {
    hide StockOf, OnCount, Shows;
    WhereStockStands(aisles, s);
  }

  lemma ItemVisitsAreWellPlaced(bank: Bank, rules: Rules, entries: seq<Entry>, i: nat, s: Stock)
    requires i < |Aisles(bank.menus)| && OnShow(rules, Aisles(bank.menus), i) && s in AllStock(bank)
    ensures forall v <- ItemVisits(PlanOf(bank, rules, entries), s) :: WellPlaced(Aisles(bank.menus), i, v)
  {
    hide Aisles, PlanOf, StockOf, OnShow, NamedSpot, ShownAlone, Trim, KeyOf, OwnSpot;
    var plan := PlanOf(bank, rules, entries);
    OwnIsWellPlaced(rules, Aisles(bank.menus), i, s);
    if Moved(plan, s) { WhereAMoveGoes(bank, rules, entries, i, Trim(plan.byItem[s.item.id].category), s.place); }
  }

  lemma RestsWellPlaced(rules: Rules, aisles: seq<Aisle>, i: nat, id: Id)
    requires i < |aisles| && OnShow(rules, aisles, i) && id in CatPos(rules, aisles)
    ensures forall name :: WellPlaced(aisles, i, Visit(Spot(BankKey(id), name, CatPos(rules, aisles)[id]), false))
  {
    hide OnCount, Shows, CatPos;
    WherePlacesLead(rules, aisles, id);
  }

  lemma EntryVisitsAreWellPlaced(bank: Bank, rules: Rules, entries: seq<Entry>, i: nat, e: Entry)
    requires i < |Aisles(bank.menus)| && OnShow(rules, Aisles(bank.menus), i)
    ensures forall v <- EntryVisits(PlanOf(bank, rules, entries), e) :: WellPlaced(Aisles(bank.menus), i, v)
  {
    hide Aisles, ByItem, Sellable, ViewHidden, BankCats, CatPos, AllStock, Merged, OnShow, NamedSpot, Adds, FirstOf, Trim,
         OnCount, KeyOf;
    var plan, first := PlanOf(bank, rules, entries), FirstOf(PlanOf(bank, rules, entries), e);
    if Trim(e.category) != "" {
      WhereAMoveGoes(bank, rules, entries, i, Trim(e.category), LAST);
    } else if first.Some? && first.value.aisle.category.id in plan.catPos {
      RestsWellPlaced(rules, Aisles(bank.menus), i, first.value.aisle.category.id);
    }
  }

  lemma {:induction false} StockVisitsAreWellPlaced(bank: Bank, rules: Rules, entries: seq<Entry>, i: nat, stock: seq<Stock>)
    requires i < |Aisles(bank.menus)| && OnShow(rules, Aisles(bank.menus), i) && forall s <- stock :: s in AllStock(bank)
    ensures forall v <- StockVisits(PlanOf(bank, rules, entries), stock) :: WellPlaced(Aisles(bank.menus), i, v)
    decreases |stock|
  {
    hide Aisles, PlanOf, StockOf, AllStock, OnShow, ItemVisits, WellPlaced;
    if stock != [] {
      assert stock[|stock|-1] in stock;
      StockVisitsAreWellPlaced(bank, rules, entries, i, stock[..|stock|-1]);
      ItemVisitsAreWellPlaced(bank, rules, entries, i, stock[|stock|-1]);
    }
  }

  lemma {:induction false} EntriesVisitsAreWellPlaced(bank: Bank, rules: Rules, entries: seq<Entry>, i: nat, some: seq<Entry>)
    requires i < |Aisles(bank.menus)| && OnShow(rules, Aisles(bank.menus), i)
    ensures forall v <- EntriesVisits(PlanOf(bank, rules, entries), some) :: WellPlaced(Aisles(bank.menus), i, v)
    decreases |some|
  {
    hide Aisles, PlanOf, OnShow, EntryVisits, WellPlaced;
    if some != [] {
      EntriesVisitsAreWellPlaced(bank, rules, entries, i, some[..|some|-1]);
      EntryVisitsAreWellPlaced(bank, rules, entries, i, some[|some|-1]);
    }
  }

  lemma {:induction false} PlacesAgree(aisles: seq<Aisle>)
    ensures OnCount(aisles) <= |aisles|
    ensures OnCount(aisles) == |aisles| <==> forall a <- aisles :: a.menuOn
    decreases |aisles|
  {
    if aisles != [] {
      PlacesAgree(aisles[..|aisles|-1]);
      assert aisles == aisles[..|aisles|-1] + [aisles[|aisles|-1]];
    }
  }

  /** Did an entry's name open the category before any item of its own did? */
  predicate OpenedByName(vs: seq<Visit>, key: CategoryKey) {
    FirstVisit(vs, key).Some? && FirstVisit(vs, key).value.named
  }

  /**
   * A bank category on the menu stands at its place among the menus that are on, or, when an entry's name opened it, at
   * its place over all menus; the two differ exactly when a menu up to it is off.
   */
  lemma WhereACategoryStands(bank: Bank, rules: Rules, entries: seq<Entry>, i: nat, c: BuildCategory)
    requires i < |Aisles(bank.menus)| && OnShow(rules, Aisles(bank.menus), i)
    requires c in Compiled(bank, rules, entries).categories && c.key == KeyOf(Aisles(bank.menus)[i])
    ensures var aisles, vs := Aisles(bank.menus), Visits(bank, rules, entries);
            && c.position == (if OpenedByName(vs, c.key) then BankPlace(i) else ShownPlace(aisles, i))
            && (c.position != ShownPlace(aisles, i)
                <==> OpenedByName(vs, c.key) && exists a <- aisles[..i+1] :: !a.menuOn)
  {
    hide Aisles, PlanOf, AllStock, OnShow, Compiled, StockVisits, EntriesVisits, FirstVisit, KeyOf, OnCount;
    var aisles, vs := Aisles(bank.menus), Visits(bank, rules, entries);
    var cs := Compiled(bank, rules, entries).categories;
    var at :| 0 <= at < |cs| && cs[at] == c;
    CategoryIsVisited(bank, rules, entries, at);
    StockVisitsAreWellPlaced(bank, rules, entries, i, AllStock(bank));
    EntriesVisitsAreWellPlaced(bank, rules, entries, i, entries);
    assert WellPlaced(aisles, i, FirstVisit(vs, c.key).value);
    PlacesAgree(aisles[..i+1]);
  }

  lemma {:induction false} CountsGrow(aisles: seq<Aisle>, i: nat, j: nat)
    requires i < j < |aisles| && aisles[j].menuOn
    ensures ShownPlace(aisles, i) < ShownPlace(aisles, j)
    decreases j
  {
    assert aisles[..j+1][..j] == aisles[..j];
    CountsDoNotShrink(aisles, i + 1, j);
  }

  lemma {:induction false} CountsDoNotShrink(aisles: seq<Aisle>, m: nat, n: nat)
    requires m <= n <= |aisles|
    ensures OnCount(aisles[..m]) <= OnCount(aisles[..n])
    decreases n
  {
    if m < n {
      assert aisles[..n][..n-1] == aisles[..n-1];
      CountsDoNotShrink(aisles, m, n - 1);
    }
  }

  /** A name opened i and none j, and j's place is below i's over all menus, or the same and j was visited first. */
  ghost predicate Overtakes(aisles: seq<Aisle>, vs: seq<Visit>, i: nat, j: nat)
    requires i < j < |aisles|
  {
    var a, b := KeyOf(aisles[i]), KeyOf(aisles[j]);
    && OpenedByName(vs, a) && !OpenedByName(vs, b)
    && (ShownPlace(aisles, j) < BankPlace(i) || (ShownPlace(aisles, j) == BankPlace(i) && !Before(VisitKeys(vs), a, b)))
  }

  /**
   * Two categories of the bank stand in the bank's order exactly when the second does not overtake the first: which
   * takes a name that opened the first, none that opened the second, and j - i categories of menus that are off up to j.
   */
  lemma WhenTheBankOrderIsKept(bank: Bank, rules: Rules, entries: seq<Entry>, i: nat, j: nat, x: nat, y: nat)
    requires i < j < |Aisles(bank.menus)|
    requires OnShow(rules, Aisles(bank.menus), i) && OnShow(rules, Aisles(bank.menus), j)
    requires var cs := Compiled(bank, rules, entries).categories;
             && x < |cs| && cs[x].key == KeyOf(Aisles(bank.menus)[i])
             && y < |cs| && cs[y].key == KeyOf(Aisles(bank.menus)[j])
    ensures x < y <==> !Overtakes(Aisles(bank.menus), Visits(bank, rules, entries), i, j)
  {
    hide Aisles, Compiled, Visits, FirstVisit, Before, VisitKeys, OnCount, OpenedByName;
    var aisles, cs := Aisles(bank.menus), Compiled(bank, rules, entries).categories;
    WhereACategoryStands(bank, rules, entries, i, cs[x]);
    WhereACategoryStands(bank, rules, entries, j, cs[y]);
    CategoriesStandAsVisited(bank, rules, entries, x, y);
    CountsGrow(aisles, i, j);
    PlacesAgree(aisles[..i+1]);
    PlacesAgree(aisles[..j+1]);
  }

  /** With every menu on, moved items never change the order: the bank's categories stand in the bank's order. */
  lemma EveryMenuOnKeepsTheOrder(bank: Bank, rules: Rules, entries: seq<Entry>, i: nat, j: nat, x: nat, y: nat)
    requires i < j < |Aisles(bank.menus)| && forall a <- Aisles(bank.menus) :: a.menuOn
    requires OnShow(rules, Aisles(bank.menus), i) && OnShow(rules, Aisles(bank.menus), j)
    requires var cs := Compiled(bank, rules, entries).categories;
             && x < |cs| && cs[x].key == KeyOf(Aisles(bank.menus)[i])
             && y < |cs| && cs[y].key == KeyOf(Aisles(bank.menus)[j])
    ensures x < y
  {
    hide Aisles, Compiled, Visits, FirstVisit, Before, VisitKeys, OnCount, OnShow;
    WhenTheBankOrderIsKept(bank, rules, entries, i, j, x, y);
    PlacesAgree(Aisles(bank.menus)[..j+1]);
  }

  // --- where items land -----------------------------------------------------------------------------

  /** Is the item on the shelf? */
  predicate On(sh: Shelves, key: CategoryKey, bi: BuildItem) {
    key in sh.cats && bi in sh.cats[key].items
  }

  lemma OpeningKeeps(sh: Shelves, spot: Spot, key: CategoryKey, bi: BuildItem)
    requires On(sh, key, bi)
    ensures On(Opened(sh, spot), key, bi)
  {
  }

  lemma PuttingKeeps(sh: Shelves, spot: Spot, more: BuildItem, key: CategoryKey, bi: BuildItem)
    requires On(sh, key, bi) || (key == spot.key && bi == more)
    ensures On(Put(sh, spot, more), key, bi)
  {
    hide Opened;
    if On(sh, key, bi) { OpeningKeeps(sh, spot, key, bi); }
  }

  lemma {:induction false} ItemsLand(plan: Plan, w: Work, stock: seq<Stock>, s: Stock)
    requires s in stock && ShownAlone(plan, s)
    ensures On(PlaceItems(plan, w, stock).shelves, TargetOf(plan, s).key, ItemShown(plan, s.item))
    decreases |stock|
  {
    hide On, ShownAlone, ItemShown, ListGroups, Put, Opened, TargetOf;
    var init, last := stock[..|stock|-1], stock[|stock|-1];
    var before, key, bi := PlaceItems(plan, w, init).shelves, TargetOf(plan, s).key, ItemShown(plan, s.item);
    if s in init {
      ItemsLand(plan, w, init, s);
      OpeningKeeps(before, OwnSpot(last), key, bi);
    }
    PuttingKeeps(Opened(before, OwnSpot(last)), TargetOf(plan, last), ItemShown(plan, last.item), key, bi);
  }

  lemma {:induction false} EntriesKeep(plan: Plan, w: Work, entries: seq<Entry>, key: CategoryKey, bi: BuildItem)
    requires On(w.shelves, key, bi)
    ensures On(PlaceEntries(plan, w, entries).shelves, key, bi)
    decreases |entries|
  {
    hide On, PlaceEntry, Adds, EntrySpot, FirstOf, Put;
    if entries != [] {
      var init, last := entries[..|entries|-1], entries[|entries|-1];
      EntriesKeep(plan, w, init, key, bi);
      var before := PlaceEntries(plan, w, init);
      EntryShelves(plan, before, last);
      if Adds(plan, last).Some? {
        PuttingKeeps(before.shelves, EntrySpot(plan, last, FirstOf(plan, last)).value, Adds(plan, last).value, key, bi);
      }
    }
  }

  lemma {:induction false} OnTheMenu(cats: map<CategoryKey, BuildCategory>, order: seq<CategoryKey>, key: CategoryKey)
    requires (forall k <- order :: k in cats) && key in order && cats[key].items != []
    ensures SortedItems(cats[key]) in Filled(cats, order)
    decreases |order|
  {
    hide SortBy;
    if key != order[|order|-1] { OnTheMenu(cats, order[..|order|-1], key); }
  }

  lemma OnAShelfOnTheMenu(bank: Bank, rules: Rules, entries: seq<Entry>, key: CategoryKey, bi: BuildItem)
    requires On(WorkOf(bank, rules, entries).shelves, key, bi)
    ensures exists c <- Compiled(bank, rules, entries).categories :: c.key == key && bi in c.items
  {
    hide WorkOf, Filled, SortBy;
    var sh := WorkOf(bank, rules, entries).shelves;
    WorkIsWellKept(bank, rules, entries);
    OnTheMenu(sh.cats, sh.order, key);
    SortByMembers(Filled(sh.cats, sh.order), CategoryPosition);
    SortByMembers(sh.cats[key].items, ItemPosition);
    assert SortedItems(sh.cats[key]) in Compiled(bank, rules, entries).categories;
  }

  /** An item that shows alone is in the category its entry names, or in its own. */
  lemma ItemsLandWhereTheyAreSent(bank: Bank, rules: Rules, entries: seq<Entry>, s: Stock)
    requires s in AllStock(bank) && ShownAlone(PlanOf(bank, rules, entries), s)
    ensures var plan := PlanOf(bank, rules, entries);
            exists c <- Compiled(bank, rules, entries).categories ::
              c.key == TargetOf(plan, s).key && ItemShown(plan, s.item) in c.items
  {
    hide PlanOf, AllStock, PlaceItems, PlaceEntries, TargetOf, ItemShown, ShownAlone, Filled, SortBy;
    var plan := PlanOf(bank, rules, entries);
    var key, bi := TargetOf(plan, s).key, ItemShown(plan, s.item);
    ItemsLand(plan, EMPTY, AllStock(bank), s);
    EntriesKeep(plan, PlaceItems(plan, EMPTY, AllStock(bank)), entries, key, bi);
    OnAShelfOnTheMenu(bank, rules, entries, key, bi);
  }

  lemma {:induction false} EntriesLand(plan: Plan, w: Work, entries: seq<Entry>, e: Entry)
    requires e in entries && Adds(plan, e).Some?
    ensures EntrySpot(plan, e, FirstOf(plan, e)).Some?
    ensures On(PlaceEntries(plan, w, entries).shelves, EntrySpot(plan, e, FirstOf(plan, e)).value.key, Adds(plan, e).value)
    decreases |entries|
  {
    hide On, PlaceEntry, Adds, EntrySpot, FirstOf, Put;
    var init, last := entries[..|entries|-1], entries[|entries|-1];
    var before := PlaceEntries(plan, w, init);
    EntryShelves(plan, before, e);
    EntryShelves(plan, before, last);
    var key, bi := EntrySpot(plan, e, FirstOf(plan, e)).value.key, Adds(plan, e).value;
    if e in init { EntriesLand(plan, w, init, e); }
    if Adds(plan, last).Some? {
      PuttingKeeps(before.shelves, EntrySpot(plan, last, FirstOf(plan, last)).value, Adds(plan, last).value, key, bi);
    }
  }

  /** A merge or augment is in the category it names, or in its first item's. */
  lemma AdditionsLandWhereTheyAreSent(bank: Bank, rules: Rules, entries: seq<Entry>, e: Entry)
    requires e in entries && Adds(PlanOf(bank, rules, entries), e).Some?
    ensures var plan := PlanOf(bank, rules, entries);
            && EntrySpot(plan, e, FirstOf(plan, e)).Some?
            && exists c <- Compiled(bank, rules, entries).categories ::
                 c.key == EntrySpot(plan, e, FirstOf(plan, e)).value.key && Adds(plan, e).value in c.items
  {
    hide PlanOf, AllStock, PlaceItems, PlaceEntries, Adds, EntrySpot, FirstOf, Filled, SortBy;
    var plan := PlanOf(bank, rules, entries);
    EntriesLand(plan, PlaceItems(plan, EMPTY, AllStock(bank)), entries, e);
    OnAShelfOnTheMenu(bank, rules, entries, EntrySpot(plan, e, FirstOf(plan, e)).value.key, Adds(plan, e).value);
  }

  // --- a move that changes the order ------------------------------------------------------------------

  function Dish(id: Id): BankItem {
    BankItem(id, "dish", 500, true, 0, [], [])
  }

  /** A menu of two categories that is off, and one of A, B and C that is on. */
  const OFF := BankMenu(false, [BankCategory(1, "X", true, []), BankCategory(2, "Y", true, [])])
  const A := BankCategory(3, "A", true, [Dish(11)])
  const B := BankCategory(4, "B", true, [Dish(12)])
  const C := BankCategory(5, "C", true, [Dish(13)])
  const DINER := Bank([], [OFF, BankMenu(true, [A, B, C])], map[])

  /** Moves A's dish to B. */
  const MOVE := Entry(21, ItemEntry, [11], "", false, "B", 0, false, None, map[], map[])

  const PLAIN := Rules(0, false, [])

  const DINER_AISLES :=
    [Aisle(OFF.categories[0], false), Aisle(OFF.categories[1], false), Aisle(A, true), Aisle(B, true), Aisle(C, true)]

  const DINER_STOCK :=
    [Stock(Aisle(A, true), 1, Dish(11)), Stock(Aisle(B, true), 2, Dish(12)), Stock(Aisle(C, true), 3, Dish(13))]

  lemma TheAisles()
    ensures Aisles(DINER.menus) == DINER_AISLES
  {
    var off, menu := OFF, DINER.menus[1];
    assert DINER.menus[..1] == [off] && [off][..0] == [];
    assert AislesOf(off) == DINER_AISLES[..2] && AislesOf(menu) == DINER_AISLES[2..];
    assert Aisles([off]) == AislesOf(off);
  }

  lemma OneAisleMore(aisles: seq<Aisle>, a: Aisle)
    ensures OnCount(aisles + [a]) == OnCount(aisles) + if a.menuOn then 1 else 0
    ensures StockOf(aisles + [a]) == StockOf(aisles) + Shelf(a, OnCount(aisles + [a]))
  {
    assert (aisles + [a])[..|aisles|] == aisles;
  }

  lemma TheStock()
    ensures StockOf(DINER_AISLES) == DINER_STOCK
    ensures OnCount(DINER_AISLES) == 3
  {
    hide StockOf, OnCount;
    var s := DINER_AISLES;
    assert StockOf([]) == [] && OnCount([]) == 0 by { NoAisles(); }
    OneAisleMore([], s[0]);
    OneAisleMore([s[0]], s[1]);
    OneAisleMore(s[..2], s[2]);
    OneAisleMore(s[..3], s[3]);
    OneAisleMore(s[..4], s[4]);
    assert [] + [s[0]] == [s[0]] && [s[0]] + [s[1]] == s[..2] && s[..2] + [s[2]] == s[..3];
    assert s[..3] + [s[3]] == s[..4] && s[..4] + [s[4]] == s;
  }

  lemma NoAisles()
    ensures StockOf([]) == [] && OnCount([]) == 0
  {
  }

  lemma BAndCAreOnShow()
    ensures OnShow(PLAIN, DINER_AISLES, 3) && OnShow(PLAIN, DINER_AISLES, 4)
    ensures FirstNamed(PLAIN, DINER_AISLES, 3, Lower(Trim("B")))
  {
    hide Trim, Lower;
    OneLetter('A');
    OneLetter('B');
  }

  /** Without item entries no item is moved. */
  lemma {:induction false} NoNamesWithoutMoves(plan: Plan, stock: seq<Stock>)
    requires plan.byItem == map[]
    ensures forall v <- StockVisits(plan, stock) :: !v.named
    decreases |stock|
  {
    hide ShownAlone, OwnSpot, TargetOf;
    if stock != [] { NoNamesWithoutMoves(plan, stock[..|stock|-1]); }
  }

  /** In both compilations the dishes of B and C show where they are. */
  lemma BAndCShow(entries: seq<Entry>)
    requires entries == [] || entries == [MOVE]
    ensures var menu := Compiled(DINER, PLAIN, entries);
            exists x, y :: 0 <= x < |menu.categories| && 0 <= y < |menu.categories|
                           && menu.categories[x].key == BankKey(4) && menu.categories[y].key == BankKey(5)
  {
    hide Compiled, Aisles, StockOf, BankCats, CatPos, Sellable, ViewHidden, FindStock, ItemShown, Trim;
    TheAisles();
    TheStock();
    var plan, menu := PlanOf(DINER, PLAIN, entries), Compiled(DINER, PLAIN, entries);
    OnlyElevenIsMoved(entries);
    assert DINER_STOCK[1] in AllStock(DINER) && DINER_STOCK[2] in AllStock(DINER);
    ItemsLandWhereTheyAreSent(DINER, PLAIN, entries, DINER_STOCK[1]);
    ItemsLandWhereTheyAreSent(DINER, PLAIN, entries, DINER_STOCK[2]);
    var b :| b in menu.categories && b.key == BankKey(4);
    var c :| c in menu.categories && c.key == BankKey(5);
    var x :| 0 <= x < |menu.categories| && menu.categories[x] == b;
    var y :| 0 <= y < |menu.categories| && menu.categories[y] == c;
  }

  lemma OnlyElevenIsMoved(entries: seq<Entry>)
    requires entries == [] || entries == [MOVE]
    ensures Merged(entries) == {}
    ensures ByItem(DINER, entries) == if entries == [] then map[] else map[11 := MOVE]
  {
    hide Aisles, StockOf, FindStock;
    TheAisles();
    TheStock();
    FoundById(AllStock(DINER), DINER_STOCK[0]);
    assert [MOVE][..0] == [];
    assert ByItem(DINER, []) == map[];
  }

  lemma VisitsOfThree(plan: Plan, x: Stock, y: Stock, z: Stock)
    ensures StockVisits(plan, [x, y, z]) == ItemVisits(plan, x) + ItemVisits(plan, y) + ItemVisits(plan, z)
  {
    hide ItemVisits;
    assert [x, y, z][..2] == [x, y] && [x, y][..1] == [x] && [x][..0] == [];
    assert StockVisits(plan, [x]) == ItemVisits(plan, x);
  }

  lemma NoVisits(plan: Plan, e: Entry)
    requires e.kind == ItemEntry
    ensures EntriesVisits(plan, [e]) == []
  {
    hide EntrySpot, FirstOf;
    assert [e][..0] == [];
  }

  /** What each dish asks for when A's is moved: B's category is first asked for by name, C's by its own dish. */
  lemma TheDishesVisit()
    ensures var plan, s := PlanOf(DINER, PLAIN, [MOVE]), DINER_STOCK;
            && ItemVisits(plan, s[0]) == [Visit(OwnSpot(s[0]), false), Visit(TargetOf(plan, s[0]), true)]
            && ItemVisits(plan, s[1]) == [Visit(OwnSpot(s[1]), false)]
            && ItemVisits(plan, s[2]) == [Visit(OwnSpot(s[2]), false)]
            && TargetOf(plan, s[0]).key == BankKey(4)
  {
    hide Aisles, StockOf, BankCats, CatPos, Sellable, ViewHidden, FindStock, NamedSpot, Lower, OnShow, FirstNamed, AllStock;
    TheAisles();
    OnlyElevenIsMoved([MOVE]);
    BAndCAreOnShow();
    OneLetter('B');
    WhereAMoveGoes(DINER, PLAIN, [MOVE], 3, Trim("B"), 1);
  }

  lemma TheVisits()
    ensures var vs := Visits(DINER, PLAIN, [MOVE]);
            OpenedByName(vs, BankKey(4)) && !OpenedByName(vs, BankKey(5))
  {
    hide Aisles, StockOf, PlanOf, ItemVisits, StockVisits, EntriesVisits, TargetOf, FirstVisit;
    TheAisles();
    TheStock();
    TheDishesVisit();
    var plan, s := PlanOf(DINER, PLAIN, [MOVE]), DINER_STOCK;
    VisitsOfThree(plan, s[0], s[1], s[2]);
    NoVisits(plan, MOVE);
    var a, b := Visit(OwnSpot(s[0]), false), Visit(TargetOf(plan, s[0]), true);
    var c, d := Visit(OwnSpot(s[1]), false), Visit(OwnSpot(s[2]), false);
    assert Visits(DINER, PLAIN, [MOVE]) == [a, b, c, d];
    FirstOfFour(a, b, c, d, BankKey(4));
    FirstOfFour(a, b, c, d, BankKey(5));
  }

  lemma FirstOneMore(vs: seq<Visit>, v: Visit, key: CategoryKey)
    ensures FirstVisit(vs + [v], key)
         == if FirstVisit(vs, key).Some? then FirstVisit(vs, key) else if v.spot.key == key then Some(v) else None
  {
    OneVisitMore(vs, v, key);
  }

  lemma FirstOfFour(a: Visit, b: Visit, c: Visit, d: Visit, key: CategoryKey)
    ensures FirstVisit([a, b, c, d], key)
         == if a.spot.key == key then Some(a) else if b.spot.key == key then Some(b)
            else if c.spot.key == key then Some(c) else if d.spot.key == key then Some(d) else None
  {
    assert FirstVisit([], key) == None;
    hide FirstVisit, VisitKeys;
    FirstOneMore([], a, key);
    FirstOneMore([a], b, key);
    FirstOneMore([a, b], c, key);
    FirstOneMore([a, b, c], d, key);
    assert [] + [a] == [a] && [a] + [b] == [a, b] && [a, b] + [c] == [a, b, c] && [a, b, c] + [d] == [a, b, c, d];
  }

  /** Moving A's dish to B puts C before B. */
  lemma AMoveChangesTheOrder()
    ensures StandsBefore(Compiled(DINER, PLAIN, []), BankKey(4), BankKey(5))
    ensures StandsBefore(Compiled(DINER, PLAIN, [MOVE]), BankKey(5), BankKey(4))
  {
    hide Compiled, Aisles, StockVisits, StockOf, OnCount, PlanOf, Visits, OnShow, FirstNamed;
    TheAisles();
    TheStock();
    BAndCAreOnShow();
    forall entries | entries == [] || entries == [MOVE]
      ensures if entries == [] then StandsBefore(Compiled(DINER, PLAIN, entries), BankKey(4), BankKey(5))
              else StandsBefore(Compiled(DINER, PLAIN, entries), BankKey(5), BankKey(4))
    {
      BAndCShow(entries);
      var menu := Compiled(DINER, PLAIN, entries);
      var x, y :| 0 <= x < |menu.categories| && 0 <= y < |menu.categories|
                  && menu.categories[x].key == BankKey(4) && menu.categories[y].key == BankKey(5);
      WhenTheBankOrderIsKept(DINER, PLAIN, entries, 3, 4, x, y);
      WhenItIsOvertaken(entries);
    }
  }

  lemma WhenItIsOvertaken(entries: seq<Entry>)
    requires entries == [] || entries == [MOVE]
    ensures Overtakes(DINER_AISLES, Visits(DINER, PLAIN, entries), 3, 4) <==> entries == [MOVE]
  {
    hide Aisles, StockVisits, StockOf, OnCount, ByItem, Before, AllStock;
    if entries == [] {
      OnlyElevenIsMoved([]);
      var plan := PlanOf(DINER, PLAIN, []);
      NoNamesWithoutMoves(plan, AllStock(DINER));
      assert Visits(DINER, PLAIN, []) == StockVisits(plan, AllStock(DINER));
    } else {
      TheVisits();
      TheStock();
      assert DINER_AISLES[..5] == DINER_AISLES;
    }
  }
}
