/** Compiling a view: the bank, the view's rules and its entries make the menu a channel shows. */
module MenuView {
  import opened Options
  import opened Sequences
  import opened MenuBuild
  import opened MenuBank
  import opened Text

  datatype Rules = Rules(markupBps: int, ceil99: bool, hiddenCategories: seq<Id>)

  datatype EntryKind = ItemEntry | MergeEntry | AugmentEntry | MapEntry

  /** An entry of a view; itemIds names the bank items it is about. */
  datatype Entry = Entry(
    id: Id, kind: EntryKind, itemIds: seq<Id>, displayName: string, photo: bool, category: string, position: int,
    hidden: bool, priceOverrideCents: Option<int>, sizePrices: map<Id, int>, labels: map<Id, string>)

  /** The position of the view categories that merges and augments make: behind all others. */
  const LAST := 0x4000_0000

  // --- prices -------------------------------------------------------------------------------

  /** A view's price: marked up with cents rounded upward, then lifted to an amount ending in 99. */
  function ApplyRule(cents: int, markupBps: int, ceil99: bool): int {
    if cents <= 0 then cents
    else
      var p := if markupBps != 0 then GoDiv(cents * (10000 + markupBps) + 9999, 10000) else cents;
      if ceil99 && (markupBps != 0 || p % 100 != 99) then GoDiv(p, 100) * 100 + 99 else p
  }

  function PriceOf(rules: Rules, cents: int): int {
    ApplyRule(cents, rules.markupBps, rules.ceil99)
  }

  /** Options are marked up only. */
  function OptionPriceOf(rules: Rules, cents: int): int {
    ApplyRule(cents, rules.markupBps, false)
  }

  function SizesOf(bank: Bank, rules: Rules, sizes: seq<ItemSize>, override: map<Id, int>): seq<BuildItemSize>
    decreases |sizes|
  {
    if sizes == [] then []
    else
      var s := sizes[|sizes|-1];
      SizesOf(bank, rules, sizes[..|sizes|-1], override)
      + match FindBankSize(bank.sizes, s.sizeId)
        case None => []
        case Some(size) =>
          [BuildItemSize(s.sizeId, size.name,
                         if s.sizeId in override then override[s.sizeId] else PriceOf(rules, s.priceCents))]
  }

  function PricesOf(rules: Rules, prices: seq<OptionPrice>): seq<OptionPrice>
    decreases |prices|
  {
    if prices == [] then []
    else
      var p := prices[|prices|-1];
      PricesOf(rules, prices[..|prices|-1]) + [OptionPrice(p.sizeId, OptionPriceOf(rules, p.priceCents))]
  }

  function OptionsOf(rules: Rules, options: seq<BankOption>): seq<BuildOption>
    decreases |options|
  {
    if options == [] then []
    else
      var o := options[|options|-1];
      OptionsOf(rules, options[..|options|-1])
      + [BuildOption(o.id, o.name, OptionPriceOf(rules, o.priceDeltaCents), PricesOf(rules, o.prices), o.isDefault,
                     !o.inStock)]
  }

  function GroupOf(rules: Rules, g: BankGroup): BuildGroup {
    BuildGroup(g.id, g.name, g.required, g.minSelect, g.maxSelect, g.allowMultiple, g.portions,
               OptionsOf(rules, g.options))
  }

  /** An item's group ids, without those the bank has dropped. */
  function KnownGroups(bank: Bank, ids: seq<Id>): seq<Id>
    decreases |ids|
  {
    if ids == [] then []
    else
      var id := ids[|ids|-1];
      KnownGroups(bank, ids[..|ids|-1]) + if id in bank.groups then [id] else []
  }

  // --- what the entries and rules say ---------------------------------------------------------

  /** Where a category stands. */
  datatype Spot = Spot(key: CategoryKey, name: string, position: int)

  /** Everything looked up while compiling. */
  datatype Plan = Plan(
    bank: Bank, rules: Rules, byItem: map<Id, Entry>, merged: set<Id>, sellable: map<Id, bool>, viewHidden: set<Id>,
    bankCats: map<string, Spot>, catPos: map<Id, int>)

  /** Which entry changes an item: the last that names it and nothing else. */
  function ByItem(bank: Bank, entries: seq<Entry>): map<Id, Entry>
    decreases |entries|
  {
    if entries == [] then map[]
    else
      var e, before := entries[|entries|-1], ByItem(bank, entries[..|entries|-1]);
      if e.kind == ItemEntry && |e.itemIds| == 1 && FindStock(AllStock(bank), e.itemIds[0]).Some? then
        before[e.itemIds[0] := e]
      else before
  }

  /** Every bank item some merge anchors. */
  function Merged(entries: seq<Entry>): set<Id> {
    set e, id | e in entries && e.kind == MergeEntry && id in e.itemIds :: id
  }

  function Sellable(stock: seq<Stock>): map<Id, bool> {
    if stock == [] then map[]
    else
      var s := stock[|stock|-1];
      Sellable(stock[..|stock|-1])[s.item.id := s.aisle.On()]
  }

  predicate HidesItem(rules: Rules, byItem: map<Id, Entry>, s: Stock) {
    s.aisle.category.id in rules.hiddenCategories || (s.item.id in byItem && byItem[s.item.id].hidden)
  }

  function ViewHidden(rules: Rules, byItem: map<Id, Entry>, stock: seq<Stock>): set<Id> {
    set s | s in stock && HidesItem(rules, byItem, s) :: s.item.id
  }

  predicate Shows(rules: Rules, a: Aisle) {
    a.On() && a.category.id !in rules.hiddenCategories
  }

  /** Categories the view shows, under their folded names; of equal names the first, at its count over the whole bank. */
  function BankCats(rules: Rules, aisles: seq<Aisle>): map<string, Spot>
    decreases |aisles|
  {
    if aisles == [] then map[]
    else
      var a, before := aisles[|aisles|-1], BankCats(rules, aisles[..|aisles|-1]);
      var folded := Lower(Trim(a.category.name));
      if Shows(rules, a) && folded != "" && folded !in before then
        before[folded := Spot(BankKey(a.category.id), a.category.name, |aisles|)]
      else before
  }

  /** The shown bank categories' places among those of menus that are on. */
  function CatPos(rules: Rules, aisles: seq<Aisle>): map<Id, int>
    decreases |aisles|
  {
    if aisles == [] then map[]
    else
      var a, before := aisles[|aisles|-1], CatPos(rules, aisles[..|aisles|-1]);
      if Shows(rules, a) then before[a.category.id := OnCount(aisles)] else before
  }

  function PlanOf(bank: Bank, rules: Rules, entries: seq<Entry>): Plan {
    var byItem := ByItem(bank, entries);
    Plan(bank, rules, byItem, Merged(entries), Sellable(AllStock(bank)), ViewHidden(rules, byItem, AllStock(bank)),
         BankCats(rules, Aisles(bank.menus)), CatPos(rules, Aisles(bank.menus)))
  }

  predicate CanSell(plan: Plan, id: Id) {
    id in plan.sellable && plan.sellable[id]
  }

  /** Does the bank item show on its own? */
  predicate ShownAlone(plan: Plan, s: Stock) {
    && Shows(plan.rules, s.aisle)
    && s.item.id !in plan.merged
    && (s.item.id in plan.byItem ==> !plan.byItem[s.item.id].hidden)
  }

  // --- what is built --------------------------------------------------------------------------

  /** A bank item under its entry's changes. */
  function ItemShown(plan: Plan, it: BankItem): BuildItem {
    var sizes := SizesOf(plan.bank, plan.rules, it.sizes, map[]);
    var bi := BuildItem(it.id, it.name, false, [it.id], PriceOf(plan.rules, it.priceCents), sizes, !it.inStock,
                        KnownGroups(plan.bank, it.groupIds), [], it.position);
    if it.id !in plan.byItem then bi
    else
      var e := plan.byItem[it.id];
      bi.(name := if Trim(e.displayName) != "" then Trim(e.displayName) else it.name,
          photo := e.photo,
          position := e.position,
          priceCents := if e.priceOverrideCents.Some? then e.priceOverrideCents.value else bi.priceCents,
          sizes := if e.sizePrices != map[] then SizesOf(plan.bank, plan.rules, it.sizes, e.sizePrices) else sizes)
  }

  /** What a merge's anchors come to: its first sellable item, its choices, and whether all of them are out. */
  datatype Merging = Merging(first: Option<Stock>, choices: seq<BuildChoice>, allOut: bool)

  function ChoiceOf(plan: Plan, e: Entry, it: BankItem): BuildChoice {
    var title := if it.id in e.labels then Trim(e.labels[it.id]) else "";
    BuildChoice(it.id, if title != "" then title else it.name, PriceOf(plan.rules, it.priceCents),
                SizesOf(plan.bank, plan.rules, it.sizes, map[]), !it.inStock)
  }

  function MergeAnchors(plan: Plan, e: Entry, ids: seq<Id>): Merging
    decreases |ids|
  {
    if ids == [] then Merging(None, [], true)
    else
      var id, before := ids[|ids|-1], MergeAnchors(plan, e, ids[..|ids|-1]);
      match FindStock(AllStock(plan.bank), id)
      case None => before
      case Some(s) =>
        if !CanSell(plan, id) || id in plan.viewHidden then before
        else
          Merging(if before.first.None? then Some(s) else before.first,
                  before.choices + [ChoiceOf(plan, e, s.item)],
                  before.allOut && !s.item.inStock)
  }

  /** What an augment's anchors come to: its first item and whether any is out; None when one is gone or can't be sold. */
  datatype Augmenting = Augmenting(first: Option<Stock>, soldOut: bool)

  function AugmentAnchors(plan: Plan, ids: seq<Id>): Option<Augmenting>
    decreases |ids|
  {
    if ids == [] then Some(Augmenting(None, false))
    else
      match AugmentAnchors(plan, ids[..|ids|-1])
      case None => None
      case Some(before) =>
        match FindStock(AllStock(plan.bank), ids[|ids|-1])
        case None => None
        case Some(s) =>
          if !CanSell(plan, ids[|ids|-1]) then None
          else Some(Augmenting(if before.first.None? then Some(s) else before.first, before.soldOut || !s.item.inStock))
  }

  function MergeShown(plan: Plan, e: Entry, m: Merging): BuildItem
    requires m.first.Some?
  {
    var first := m.first.value.item;
    BuildItem(e.id, if Trim(e.displayName) != "" then Trim(e.displayName) else first.name, e.photo, e.itemIds,
              if e.priceOverrideCents.Some? then e.priceOverrideCents.value else PriceOf(plan.rules, first.priceCents),
              SizesOf(plan.bank, plan.rules, first.sizes, map[]), m.allOut,
              KnownGroups(plan.bank, first.groupIds), m.choices, e.position)
  }

  predicate GoodAugment(e: Entry) {
    Trim(e.displayName) != "" && e.priceOverrideCents.Some? && e.itemIds != []
  }

  function AugmentShown(e: Entry, a: Augmenting): BuildItem
    requires GoodAugment(e)
  {
    BuildItem(e.id, Trim(e.displayName), e.photo, e.itemIds, e.priceOverrideCents.value, [], a.soldOut, [], [], e.position)
  }

  // --- the shelves and the group list -----------------------------------------------------------

  datatype Shelves = Shelves(cats: map<CategoryKey, BuildCategory>, order: seq<CategoryKey>)

  datatype Listing = Listing(seen: set<Id>, groups: seq<BuildGroup>)

  datatype Work = Work(shelves: Shelves, listing: Listing)

  function Opened(sh: Shelves, spot: Spot): (r: Shelves)
    ensures spot.key in r.cats
  {
    if spot.key in sh.cats then sh
    else Shelves(sh.cats[spot.key := BuildCategory(spot.key, spot.name, spot.position, [])], sh.order + [spot.key])
  }

  function Put(sh: Shelves, spot: Spot, bi: BuildItem): Shelves {
    var r := Opened(sh, spot);
    var cat := r.cats[spot.key];
    r.(cats := r.cats[spot.key := cat.(items := cat.items + [bi])])
  }

  function ListGroups(bank: Bank, rules: Rules, l: Listing, ids: seq<Id>): Listing
    decreases |ids|
  {
    if ids == [] then l
    else
      var id, before := ids[|ids|-1], ListGroups(bank, rules, l, ids[..|ids|-1]);
      if id !in bank.groups || id in before.seen then before
      else Listing(before.seen + {id}, before.groups + [GroupOf(rules, bank.groups[id])])
  }

  /** Where a category name given in an entry leads. */
  function NamedSpot(plan: Plan, name: string, position: int): Spot {
    if Lower(name) in plan.bankCats then plan.bankCats[Lower(name)] else Spot(ViewKey(name), name, position)
  }

  function OwnSpot(s: Stock): Spot {
    Spot(BankKey(s.aisle.category.id), s.aisle.category.name, s.place)
  }

  function TargetOf(plan: Plan, s: Stock): Spot {
    if s.item.id in plan.byItem && Trim(plan.byItem[s.item.id].category) != "" then
      NamedSpot(plan, Trim(plan.byItem[s.item.id].category), s.place)
    else OwnSpot(s)
  }

  function PlaceItem(plan: Plan, w: Work, s: Stock): Work {
    if !ShownAlone(plan, s) then w
    else
      Work(Put(Opened(w.shelves, OwnSpot(s)), TargetOf(plan, s), ItemShown(plan, s.item)),
           ListGroups(plan.bank, plan.rules, w.listing, s.item.groupIds))
  }

  function PlaceItems(plan: Plan, w: Work, stock: seq<Stock>): Work
    decreases |stock|
  {
    if stock == [] then w else PlaceItem(plan, PlaceItems(plan, w, stock[..|stock|-1]), stock[|stock|-1])
  }

  /** The shelf for what an entry built: the one it names, or that of its first item if the view shows it (None: neither). */
  function EntrySpot(plan: Plan, e: Entry, first: Option<Stock>): Option<Spot> {
    if e.hidden then None
    else if Trim(e.category) != "" then Some(NamedSpot(plan, Trim(e.category), LAST))
    else
      match first
      case None => None
      case Some(s) =>
        var cat := s.aisle.category;
        if cat.id in plan.catPos then Some(Spot(BankKey(cat.id), cat.name, plan.catPos[cat.id])) else None
  }

  function PutAt(sh: Shelves, spot: Option<Spot>, bi: BuildItem): Shelves {
    if spot.Some? then Put(sh, spot.value, bi) else sh
  }

  function PlaceMerge(plan: Plan, w: Work, e: Entry): Work {
    var m := MergeAnchors(plan, e, e.itemIds);
    if |e.itemIds| < 2 || m.first.None? then w
    else
      Work(PutAt(w.shelves, EntrySpot(plan, e, m.first), MergeShown(plan, e, m)),
           ListGroups(plan.bank, plan.rules, w.listing, m.first.value.item.groupIds))
  }

  function PlaceAugment(plan: Plan, w: Work, e: Entry): Work {
    var a := AugmentAnchors(plan, e.itemIds);
    if !GoodAugment(e) || a.None? then w
    else w.(shelves := PutAt(w.shelves, EntrySpot(plan, e, a.value.first), AugmentShown(e, a.value)))
  }

  function PlaceEntry(plan: Plan, w: Work, e: Entry): Work {
    match e.kind
    case MergeEntry => PlaceMerge(plan, w, e)
    case AugmentEntry => PlaceAugment(plan, w, e)
    case ItemEntry => w
    case MapEntry => w
  }

  function PlaceEntries(plan: Plan, w: Work, entries: seq<Entry>): Work
    decreases |entries|
  {
    if entries == [] then w else PlaceEntry(plan, PlaceEntries(plan, w, entries[..|entries|-1]), entries[|entries|-1])
  }

  // --- the menu -----------------------------------------------------------------------------

  function ItemPosition(bi: BuildItem): int {
    bi.position
  }

  function CategoryPosition(c: BuildCategory): int {
    c.position
  }

  function SortedItems(c: BuildCategory): BuildCategory {
    c.(items := SortBy(c.items, ItemPosition))
  }

  /** The categories that hold something, in the order they were opened. */
  function Filled(cats: map<CategoryKey, BuildCategory>, order: seq<CategoryKey>): seq<BuildCategory>
    requires forall k <- order :: k in cats
    decreases |order|
  {
    if order == [] then []
    else
      var c := cats[order[|order|-1]];
      Filled(cats, order[..|order|-1]) + if c.items == [] then [] else [SortedItems(c)]
  }

  ghost predicate WellKept(sh: Shelves) {
    && (forall k <- sh.order :: k in sh.cats)
    && (forall k <- sh.cats :: k in sh.order && sh.cats[k].key == k)
    && (forall i, j :: 0 <= i < j < |sh.order| ==> sh.order[i] != sh.order[j])
  }

  const EMPTY := Work(Shelves(map[], []), Listing({}, []))

  function WorkOf(bank: Bank, rules: Rules, entries: seq<Entry>): Work {
    var plan := PlanOf(bank, rules, entries);
    PlaceEntries(plan, PlaceItems(plan, EMPTY, AllStock(bank)), entries)
  }

  function MenuOf(w: Work): Menu
    requires WellKept(w.shelves)
  {
    Menu(SortBy(Filled(w.shelves.cats, w.shelves.order), CategoryPosition), w.listing.groups)
  }

  // --- the shelves stay well kept ---------------------------------------------------------------

  lemma OpenedIsWellKept(sh: Shelves, spot: Spot)
    requires WellKept(sh)
    ensures WellKept(Opened(sh, spot))
  {
  }

  lemma PutIsWellKept(sh: Shelves, spot: Spot, bi: BuildItem)
    requires WellKept(sh)
    ensures WellKept(Put(sh, spot, bi))
  {
    OpenedIsWellKept(sh, spot);
    hide Opened;
  }

  lemma {:induction false} ItemsKeepTheShelves(plan: Plan, w: Work, stock: seq<Stock>)
    requires WellKept(w.shelves)
    ensures WellKept(PlaceItems(plan, w, stock).shelves)
    decreases |stock|
  {
    hide WellKept, Put, Opened, ShownAlone;
    if stock != [] {
      var s, before := stock[|stock|-1], PlaceItems(plan, w, stock[..|stock|-1]);
      ItemsKeepTheShelves(plan, w, stock[..|stock|-1]);
      OpenedIsWellKept(before.shelves, OwnSpot(s));
      PutIsWellKept(Opened(before.shelves, OwnSpot(s)), TargetOf(plan, s), ItemShown(plan, s.item));
    }
  }

  lemma PutAtIsWellKept(sh: Shelves, spot: Option<Spot>, bi: BuildItem)
    requires WellKept(sh)
    ensures WellKept(PutAt(sh, spot, bi))
  {
    if spot.Some? { PutIsWellKept(sh, spot.value, bi); }
  }

  lemma {:induction false} EntriesKeepTheShelves(plan: Plan, w: Work, entries: seq<Entry>)
    requires WellKept(w.shelves)
    ensures WellKept(PlaceEntries(plan, w, entries).shelves)
    decreases |entries|
  {
    hide WellKept, PutAt, EntrySpot, MergeAnchors, AugmentAnchors, GoodAugment, MergeShown, AugmentShown;
    if entries != [] {
      var e, before := entries[|entries|-1], PlaceEntries(plan, w, entries[..|entries|-1]);
      EntriesKeepTheShelves(plan, w, entries[..|entries|-1]);
      var m, a := MergeAnchors(plan, e, e.itemIds), AugmentAnchors(plan, e.itemIds);
      if e.kind == MergeEntry && m.first.Some? {
        PutAtIsWellKept(before.shelves, EntrySpot(plan, e, m.first), MergeShown(plan, e, m));
      } else if e.kind == AugmentEntry && GoodAugment(e) && a.Some? {
        PutAtIsWellKept(before.shelves, EntrySpot(plan, e, a.value.first), AugmentShown(e, a.value));
      }
    }
  }

  lemma WorkIsWellKept(bank: Bank, rules: Rules, entries: seq<Entry>)
    ensures WellKept(WorkOf(bank, rules, entries).shelves)
  {
    hide PlanOf, PlaceItems, PlaceEntries, AllStock;
    var plan := PlanOf(bank, rules, entries);
    ItemsKeepTheShelves(plan, EMPTY, AllStock(bank));
    EntriesKeepTheShelves(plan, PlaceItems(plan, EMPTY, AllStock(bank)), entries);
  }

  function Compiled(bank: Bank, rules: Rules, entries: seq<Entry>): Menu {
    WorkIsWellKept(bank, rules, entries);
    MenuOf(WorkOf(bank, rules, entries))
  }
}
