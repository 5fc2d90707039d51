/** The importer at work on the repository, row by row, for real or as a dry run. */
module MenuImport {
  import opened Options
  import opened Sequences
  import opened Text
  import opened Upserts
  import opened MenuCsv
  import opened MenuCsvLaws

  /** Where a category is: its menu's place in the listing, and its own in the menu. */
  datatype At = At(menu: nat, category: nat)

  predicate Has(menus: seq<Menu>, at: At) {
    at.menu < |menus| && at.category < |menus[at.menu].categories|
  }

  function CategoryAt(menus: seq<Menu>, at: At): Category
    requires Has(menus, at)
  {
    menus[at.menu].categories[at.category]
  }

  function WithCategory(menus: seq<Menu>, at: At, c: Category): seq<Menu>
    requires Has(menus, at)
  {
    var m := menus[at.menu];
    menus[at.menu := m.(categories := m.categories[at.category := c])]
  }

  /** The menus as stored. Ids are places: what is created goes last, and only DeleteMenu moves anything. */
  class Repository {
    var menus: seq<Menu>

    constructor (menus: seq<Menu>)
      ensures this.menus == menus
    {
      this.menus := menus;
    }

    method DeleteMenu(i: nat)
      requires i < |menus|
      modifies this
      ensures menus == old(menus)[..i] + old(menus)[i+1..]
    {
      menus := menus[..i] + menus[i+1..];
    }

    method CreateMenu(name: string) returns (i: nat)
      modifies this
      ensures menus == old(menus) + [Menu(name, [])] && i == |old(menus)|
    {
      i := |menus|;
      menus := menus + [Menu(name, [])];
    }

    method CreateCategory(i: nat, name: string, default: Option<Id>) returns (at: At)
      requires i < |menus|
      modifies this
      ensures menus == old(menus)[i := Menu(old(menus)[i].name, old(menus)[i].categories + [Category(name, default, [])])]
      ensures at == At(i, |old(menus)[i].categories|)
    {
      at := At(i, |menus[i].categories|);
      menus := menus[i := Menu(menus[i].name, menus[i].categories + [Category(name, default, [])])];
    }

    method SetDefault(at: At, default: Option<Id>)
      requires Has(menus, at)
      modifies this
      ensures menus == WithCategory(old(menus), at, CategoryAt(old(menus), at).(defaultPrinter := default))
    {
      menus := WithCategory(menus, at, CategoryAt(menus, at).(defaultPrinter := default));
    }

    method CreateItem(at: At, it: Item)
      requires Has(menus, at)
      modifies this
      ensures var c := CategoryAt(old(menus), at); menus == WithCategory(old(menus), at, c.(items := c.items + [it]))
    {
      var c := CategoryAt(menus, at);
      menus := WithCategory(menus, at, c.(items := c.items + [it]));
    }

    method UpdateItem(at: At, i: nat, priceCents: int, description: string)
      requires Has(menus, at) && i < |CategoryAt(menus, at).items|
      modifies this
      ensures var c := CategoryAt(old(menus), at);
              menus == WithCategory(old(menus), at, c.(items :=
                c.items[i := c.items[i].(priceCents := priceCents, description := description)]))
    {
      var c := CategoryAt(menus, at);
      menus := WithCategory(menus, at, c.(items :=
        c.items[i := c.items[i].(priceCents := priceCents, description := description)]));
    }

    method SetItemPrinter(at: At, i: nat, printer: Option<Id>)
      requires Has(menus, at) && i < |CategoryAt(menus, at).items|
      modifies this
      ensures var c := CategoryAt(old(menus), at);
              menus == WithCategory(old(menus), at, c.(items := c.items[i := c.items[i].(printer := printer)]))
    {
      var c := CategoryAt(menus, at);
      menus := WithCategory(menus, at, c.(items := c.items[i := c.items[i].(printer := printer)]));
    }
  }

  /** The most common printer, with a running count for each. */
  method CommonPrinter(rows: seq<Row>, ids: Ids) returns (best: Option<Id>)
    ensures best == MostCommon(ids, rows)
  {
    best := None;
    var counts: map<Id, nat> := map[];
    for i := 0 to |rows|
      invariant best == MostCommon(ids, rows[..i])
      invariant forall id :: CountOf(ids, rows[..i], id) == if id in counts then counts[id] else 0
      invariant best.Some? ==> best.value in counts
    {
      PrefixOfPrefix(rows, i);
      if !Names(rows[i]) { continue; }
      var id := PrinterOf(ids, rows[i]);
      counts := counts[id := 1 + if id in counts then counts[id] else 0];
      if best.None? || counts[id] > counts[best.value] { best := Some(id); }
    }
    assert rows[..|rows|] == rows;
  }

  /** In a dry run the repository keeps what it has. */
  function Kept(menus: seq<Menu>, dryRun: bool, at: Option<At>, c: Category): seq<Menu>
    requires !dryRun ==> at.Some? && Has(menus, at.value)
  {
    if dryRun then menus else WithCategory(menus, at.value, c)
  }

  lemma KeptAsIs(menus: seq<Menu>, dryRun: bool, at: Option<At>, c: Category)
    requires !dryRun ==> at.Some? && Has(menus, at.value) && CategoryAt(menus, at.value) == c
    ensures Kept(menus, dryRun, at, c) == menus
  {
    if !dryRun {
      var cats := menus[at.value.menu].categories;
      assert cats[at.value.category := c] == cats;
    }
  }

  lemma KeptHas(menus: seq<Menu>, dryRun: bool, at: Option<At>, c: Category)
    requires !dryRun ==> at.Some? && Has(menus, at.value)
    ensures !dryRun ==> Has(Kept(menus, dryRun, at, c), at.value) && CategoryAt(Kept(menus, dryRun, at, c), at.value) == c
  {
  }

  lemma KeptTwice(menus: seq<Menu>, dryRun: bool, at: Option<At>, c: Category, d: Category)
    requires !dryRun ==> at.Some? && Has(menus, at.value)
    ensures !dryRun ==> Has(Kept(menus, dryRun, at, c), at.value)
    ensures Kept(Kept(menus, dryRun, at, c), dryRun, at, d) == Kept(menus, dryRun, at, d)
  {
    if !dryRun {
      var m := menus[at.value.menu];
      assert m.categories[at.value.category := c][at.value.category := d] == m.categories[at.value.category := d];
    }
  }

  /** The item of a row: created with what the row gives, or changed where the row says otherwise. */
  method ImportItem(repo: Repository, at: Option<At>, dryRun: bool, c: Category, r: Row, t0: Tally)
    returns (t: Tally, items: seq<Item>, place: nat)
    requires !dryRun ==> at.Some? && Has(repo.menus, at.value) && CategoryAt(repo.menus, at.value) == c
    modifies repo
    ensures place == PlaceOf(c.items, r) && t == NoteItem(t0, c.items, r)
    ensures items == if Find(c.items, ItemKey, RowItem(r)).None? then c.items + [Priced(BlankItem(r), r)]
                     else c.items[place := Priced(c.items[place], r)]
    ensures repo.menus == Kept(old(repo.menus), dryRun, at, c.(items := items))
  {
    hide Norm, CategoryAt, WithCategory, Has;
    KeptAsIs(repo.menus, dryRun, at, c);
    items, t := c.items, t0;
    var found := Find(items, ItemKey, RowItem(r));
    if found.None? {
      var it := Priced(BlankItem(r), r);
      t := Noted(t.(items := t.items + 1), ItemAdded(r.item, it.priceCents));
      if !dryRun { repo.CreateItem(at.value, it); }
      items, place := items + [it], |items|;
    } else {
      place := found.value;
      var next := Priced(items[place], r);
      if Changes(items[place], r) {
        t := Noted(t.(itemsUpdated := t.itemsUpdated + 1), ItemChanged(next.name, next.priceCents));
        if !dryRun { repo.UpdateItem(at.value, place, next.priceCents, next.description); }
        items := items[place := next];
      } else {
        assert items[place := next] == items;
        assert c.(items := items) == c;
      }
    }
  }

  /** Sends an item to its row's printer, unless the row names none or the item prints there already. */
  method ImportPrinter(repo: Repository, at: Option<At>, dryRun: bool, ids: Ids, c: Category, place: nat, r: Row, t0: Tally)
    returns (t: Tally, items: seq<Item>)
    requires place < |c.items|
    requires !dryRun ==> at.Some? && Has(repo.menus, at.value) && CategoryAt(repo.menus, at.value) == c
    modifies repo
    ensures t == NotePrinter(ids, c.defaultPrinter, t0, c.items[place], r)
    ensures items == c.items[place := if Names(r) then c.items[place].(printer := Target(ids, c.defaultPrinter, r))
                                      else c.items[place]]
    ensures repo.menus == Kept(old(repo.menus), dryRun, at, c.(items := items))
  {
    hide PrinterOf, CategoryAt, WithCategory, Has;
    KeptAsIs(repo.menus, dryRun, at, c);
    assert c.items[place := c.items[place]] == c.items;
    items, t := c.items, t0;
    assert c.(items := items) == c;
    if !Names(r) { return; }
    var target := Target(ids, c.defaultPrinter, r);
    if target == items[place].printer { return; }
    t := Noted(t.(itemPrinters := t.itemPrinters + 1), ItemPrinterSet(items[place].name, target));
    if !dryRun { repo.SetItemPrinter(at.value, place, target); }
    items := items[place := items[place].(printer := target)];
  }

  /** One row on the items of its category. */
  method ImportRow(repo: Repository, at: Option<At>, dryRun: bool, ids: Ids, c: Category, r: Row, t0: Tally)
    returns (t: Tally, items: seq<Item>, place: nat)
    requires !dryRun ==> at.Some? && Has(repo.menus, at.value) && CategoryAt(repo.menus, at.value) == c
    modifies repo
    ensures items == Upsert(ItemKeeping(ids, c.defaultPrinter), c.items, r)
    ensures place == PlaceOf(c.items, r)
    ensures t == NoteRow(ids, c.defaultPrinter, t0, c.items, r)
    ensures repo.menus == Kept(old(repo.menus), dryRun, at, c.(items := items))
  {
    hide Norm, PrinterOf, CategoryAt, WithCategory, Has, Kept, Target;
    t, items, place := ImportItem(repo, at, dryRun, c, r, t0);
    KeptHas(old(repo.menus), dryRun, at, c.(items := items));
    var before := c.(items := items);
    t, items := ImportPrinter(repo, at, dryRun, ids, before, place, r, t);
    KeptTwice(old(repo.menus), dryRun, at, before, c.(items := items));
  }

  /** A category's rows, and the printers its items then print on. */
  method ImportRows(repo: Repository, at: Option<At>, dryRun: bool, ids: Ids, c: Category, rows: seq<Row>, t0: Tally)
    returns (t: Tally)
    requires !dryRun ==> at.Some? && Has(repo.menus, at.value) && CategoryAt(repo.menus, at.value) == c
    modifies repo
    ensures var items, places := UpsertAll(ItemKeeping(ids, c.defaultPrinter), c.items, rows),
                                 Touched(ids, c.defaultPrinter, c.items, rows);
            && repo.menus == Kept(old(repo.menus), dryRun, at, c.(items := items))
            && Within(places, |items|)
            && t == NoteAllPrints(NoteRows(ids, c.defaultPrinter, t0, c.items, rows), c.defaultPrinter, items, places)
  {
    hide Norm, NoteRow, PlaceOf, Upsert, ItemKeeping, NotePrints, CategoryAt, WithCategory, Has, Kept;
    var items, places := c.items, [];
    t := t0;
    KeptAsIs(repo.menus, dryRun, at, c);
    for i := 0 to |rows|
      invariant items == UpsertAll(ItemKeeping(ids, c.defaultPrinter), c.items, rows[..i])
      invariant t == NoteRows(ids, c.defaultPrinter, t0, c.items, rows[..i])
      invariant places == Touched(ids, c.defaultPrinter, c.items, rows[..i])
      invariant repo.menus == Kept(old(repo.menus), dryRun, at, c.(items := items))
    {
      PrefixOfPrefix(rows, i);
      KeptHas(old(repo.menus), dryRun, at, c.(items := items));
      ghost var before := c.(items := items);
      var place;
      t, items, place := ImportRow(repo, at, dryRun, ids, c.(items := items), rows[i], t);
      KeptTwice(old(repo.menus), dryRun, at, before, c.(items := items));
      if place !in places { places := places + [place]; }
    }
    assert rows[..|rows|] == rows;
    TouchedAreThere(ids, c.defaultPrinter, c.items, rows);
    t := CountPrints(c.defaultPrinter, items, places, t);
  }

  method CountPrints(default: Option<Id>, items: seq<Item>, places: seq<nat>, t0: Tally) returns (t: Tally)
    requires Within(places, |items|)
    ensures t == NoteAllPrints(t0, default, items, places)
  {
    hide NotePrints;
    t := t0;
    for i := 0 to |places|
      invariant t == NoteAllPrints(t0, default, items, places[..i])
    {
      PrefixOfPrefix(places, i);
      t := NotePrints(t, default, items[places[i]]);
    }
    assert places[..|places|] == places;
  }

  /** The listing with a group's category put where it belongs. */
  function WithGroup(cats: seq<Category>, g: CatRows, c: Category): seq<Category> {
    match Find(cats, CategoryKey, Norm(g.name)) case None => cats + [c] case Some(i) => cats[i := c]
  }

  function GroupPlace(cats: seq<Category>, g: CatRows): nat {
    match Find(cats, CategoryKey, Norm(g.name)) case None => |cats| case Some(i) => i
  }

  function WithCategories(menus: seq<Menu>, i: nat, cats: seq<Category>): seq<Menu>
    requires i < |menus|
  {
    menus[i := Menu(menus[i].name, cats)]
  }

  function Defaulted(ids: Ids, c: Category, rows: seq<Row>): Category {
    c.(defaultPrinter := DefaultFor(ids, c.defaultPrinter, rows))
  }

  /** Does the listing hold the group's category as the menu holds it now? */
  ghost predicate UpToDate(cats: seq<Category>, now: seq<Category>, g: CatRows) {
    var found := Find(cats, CategoryKey, Norm(g.name));
    && found == Find(now, CategoryKey, Norm(g.name))
    && (found.Some? ==> cats[found.value] == now[found.value])
  }

  /** A group's category: created, or found and given the default it lacks. */
  method FindCategory(repo: Repository, menu: Option<nat>, dryRun: bool, ids: Ids, cats: seq<Category>,
                      ghost now: seq<Category>, g: CatRows, t0: Tally)
    returns (t: Tally, c: Category, at: Option<At>)
    requires UpToDate(cats, now, g)
    requires !dryRun ==> menu.Some? && menu.value < |repo.menus| && repo.menus[menu.value].categories == now
    requires dryRun && menu.Some? ==> menu.value < |repo.menus| && repo.menus[menu.value].categories == cats
    requires menu.None? ==> cats == []
    modifies repo
    ensures t == NoteFoundCategory(ids, t0, now, g)
    ensures c == Defaulted(ids, CategoryBefore(now, g), g.rows)
    ensures dryRun ==> repo.menus == old(repo.menus)
    ensures !dryRun ==> at == Some(At(menu.value, GroupPlace(now, g)))
    ensures !dryRun ==> repo.menus == WithCategories(old(repo.menus), menu.value, WithGroup(now, g, c))
  {
    hide Norm, MostCommon;
    var want := CommonPrinter(g.rows, ids);
    var found := Find(cats, CategoryKey, Norm(g.name));
    t, at := t0, None;
    if found.None? {
      t := Noted(t.(categories := t.categories + 1, categoryPrinters := t.categoryPrinters + if want.Some? then 1 else 0),
                 CategoryAdded(g.name, want));
      c := Category(g.name, want, []);
      if !dryRun {
        var created := repo.CreateCategory(menu.value, g.name, want);
        at := Some(created);
      }
    } else {
      at := Some(At(menu.value, found.value));
      c := cats[found.value].(items := CategoryAt(repo.menus, at.value).items);
      if c.defaultPrinter.None? && want.Some? {
        t := Noted(t.(categoryPrinters := t.categoryPrinters + 1), CategoryPrinterSet(c.name, want));
        if !dryRun { repo.SetDefault(at.value, want); }
        c := c.(defaultPrinter := want);
      } else {
        assert now[found.value := c] == now;
        assert !dryRun ==> WithCategories(repo.menus, menu.value, now) == repo.menus;
      }
    }
  }

  lemma DefaultedThenFilled(ids: Ids, c: Category, rows: seq<Row>)
    ensures var d := Defaulted(ids, c, rows);
            RowsOn(ids, c, rows) == d.(items := UpsertAll(ItemKeeping(ids, d.defaultPrinter), d.items, rows))
  {
    hide UpsertAll, DefaultFor;
  }

  lemma UpsertedCategory(ids: Ids, now: seq<Category>, g: CatRows)
    ensures Upsert(CategoryKeeping(ids), now, g) == WithGroup(now, g, RowsOn(ids, CategoryBefore(now, g), g.rows))
  {
    hide Norm, RowsOn;
  }

  lemma StoredCategory(menus: seq<Menu>, i: nat, ids: Ids, now: seq<Category>, g: CatRows, c: Category)
    requires i < |menus|
    ensures var at, found := At(i, GroupPlace(now, g)), WithCategories(menus, i, WithGroup(now, g, c));
            && Has(found, at) && CategoryAt(found, at) == c
            && WithCategory(found, at, RowsOn(ids, CategoryBefore(now, g), g.rows))
               == WithCategories(menus, i, Upsert(CategoryKeeping(ids), now, g))
  {
    hide Norm, RowsOn, Upsert;
    UpsertedCategory(ids, now, g);
    var d := RowsOn(ids, CategoryBefore(now, g), g.rows);
    assert WithGroup(now, g, c)[GroupPlace(now, g) := d] == WithGroup(now, g, d);
  }

  /**
   * One category's rows. The categories are looked up in the listing read before any of the menu's rows: in a real
   * run earlier groups have changed the stored ones since, in a dry run nothing has.
   */
  method ImportCategory(repo: Repository, menu: Option<nat>, dryRun: bool, ids: Ids, cats: seq<Category>,
                        ghost done: seq<CatRows>, g: CatRows, t0: Tally)
    returns (t: Tally)
    requires !dryRun ==> menu.Some? && menu.value < |repo.menus|
                         && repo.menus[menu.value].categories == UpsertAll(CategoryKeeping(ids), cats, done)
    requires dryRun && menu.Some? ==> menu.value < |repo.menus| && repo.menus[menu.value].categories == cats
    requires menu.None? ==> cats == []
    requires forall d <- done :: Norm(d.name) != Norm(g.name)
    modifies repo
    ensures t == NoteCategory(ids, t0, UpsertAll(CategoryKeeping(ids), cats, done), g)
    ensures repo.menus == if dryRun then old(repo.menus)
                          else WithCategories(old(repo.menus), menu.value,
                                 Upsert(CategoryKeeping(ids), UpsertAll(CategoryKeeping(ids), cats, done), g))
  {
    hide Norm, UpsertAll, NoteRows, NoteAllPrints, Touched, DefaultFor, Find, CategoryAt, WithCategory, Has,
         NoteFoundCategory, Upsert, WithCategories, WithGroup, CategoryBefore, Within, RowsOn, GroupPlace;
    ghost var now := UpsertAll(CategoryKeeping(ids), cats, done);
    CategoriesAreLawful(ids);
    OthersLeaveItAlone(CategoryKeeping(ids), cats, done, Norm(g.name));
    var c, at;
    t, c, at := FindCategory(repo, menu, dryRun, ids, cats, now, g, t0);
    if !dryRun { StoredCategory(old(repo.menus), menu.value, ids, now, g, c); }
    DefaultedThenFilled(ids, CategoryBefore(now, g), g.rows);
    t := ImportRows(repo, at, dryRun, ids, c, g.rows, t);
  }

  method ImportMenu(repo: Repository, dryRun: bool, ids: Ids, menus: seq<Menu>, ghost done: seq<MenuRows>,
                    g: MenuRows, listed: bool, t0: Tally)
    returns (t: Tally)
    requires DistinctKeys(g.cats, CatRowsKey) && forall d <- done :: Norm(d.name) != Norm(g.name)
    requires !dryRun ==> repo.menus == UpsertAll(MenuKeeping(ids), menus, done)
    requires dryRun ==> if listed then repo.menus == menus else menus == []
    modifies repo
    ensures t == NoteMenu(ids, t0, UpsertAll(MenuKeeping(ids), menus, done), g)
    ensures repo.menus == if dryRun then old(repo.menus)
                          else Upsert(MenuKeeping(ids), UpsertAll(MenuKeeping(ids), menus, done), g)
  {
    hide Norm, UpsertAll, NoteCategory, Upsert, Find;
    MenusAreLawful(ids);
    OthersLeaveItAlone(MenuKeeping(ids), menus, done, Norm(g.name));
    var found := Find(menus, MenuKey, Norm(g.name));
    t := t0;
    var menu := found;
    if found.None? {
      t := Noted(t.(menus := t.menus + 1), MenuAdded(g.name));
      if !dryRun {
        var created := repo.CreateMenu(g.name);
        menu := Some(created);
      }
    }
    t := ImportCategories(repo, menu, dryRun, ids, g.cats, t);
    if !dryRun { UpsertedMenu(ids, UpsertAll(MenuKeeping(ids), menus, done), g); }
  }

  lemma UpsertedMenu(ids: Ids, menus: seq<Menu>, g: MenuRows)
    ensures Upsert(MenuKeeping(ids), menus, g)
         == match Find(menus, MenuKey, Norm(g.name))
            case None => menus + [CategoriesOn(ids, Menu(g.name, []), g.cats)]
            case Some(i) => menus[i := CategoriesOn(ids, menus[i], g.cats)]
  {
    hide Norm, UpsertAll;
  }

  method ImportCategories(repo: Repository, menu: Option<nat>, dryRun: bool, ids: Ids, groups: seq<CatRows>, t0: Tally)
    returns (t: Tally)
    requires !dryRun ==> menu.Some?
    requires menu.Some? ==> menu.value < |repo.menus|
    requires DistinctKeys(groups, CatRowsKey)
    modifies repo
    ensures var cats := if menu.Some? then old(repo.menus)[menu.value].categories else [];
            && t == NoteCategories(ids, t0, cats, groups)
            && repo.menus == if dryRun then old(repo.menus)
                             else WithCategories(old(repo.menus), menu.value, UpsertAll(CategoryKeeping(ids), cats, groups))
  {
    hide Norm, UpsertAll, NoteCategory, Upsert, Find;
    var cats := if menu.Some? then repo.menus[menu.value].categories else [];
    t := t0;
    NoGroupsYet(ids, cats, groups);
    for i := 0 to |groups|
      invariant menu.Some? ==> menu.value < |repo.menus|
      invariant t == NoteCategories(ids, t0, cats, groups[..i])
      invariant repo.menus == if dryRun then old(repo.menus)
                              else WithCategories(old(repo.menus), menu.value,
                                                  UpsertAll(CategoryKeeping(ids), cats, groups[..i]))
    {
      PrefixOfPrefix(groups, i);
      OneGroupMore(ids, cats, groups, i);
      forall d <- groups[..i] ensures Norm(d.name) != Norm(groups[i].name) {
        var j :| 0 <= j < i && groups[j] == d;
        assert CatRowsKey(groups[j]) != CatRowsKey(groups[i]);
      }
      t := ImportCategory(repo, menu, dryRun, ids, cats, groups[..i], groups[i], t);
    }
    assert groups[..|groups|] == groups;
  }

  lemma NoGroupsYet(ids: Ids, cats: seq<Category>, groups: seq<CatRows>)
    ensures UpsertAll(CategoryKeeping(ids), cats, groups[..0]) == cats
  {
  }

  lemma OneGroupMore(ids: Ids, cats: seq<Category>, groups: seq<CatRows>, i: nat)
    requires i < |groups|
    ensures UpsertAll(CategoryKeeping(ids), cats, groups[..i+1])
         == Upsert(CategoryKeeping(ids), UpsertAll(CategoryKeeping(ids), cats, groups[..i]), groups[i])
  {
    PrefixOfPrefix(groups, i);
  }

  /** The printer names the store does not have, in the file's order, each once. */
  method UnknownPrinters(rows: seq<Row>, ids: Ids) returns (unknown: seq<string>)
    ensures unknown == Unknown(ids, rows)
  {
    hide Norm;
    unknown := [];
    var seen: set<string> := {};
    for i := 0 to |rows|
      invariant unknown == Unknown(ids, rows[..i])
      invariant forall k :: k in seen <==> exists u <- unknown :: Norm(u) == k
    {
      PrefixOfPrefix(rows, i);
      var k := Norm(rows[i].printer);
      if Names(rows[i]) && k !in ids && k !in seen {
        seen := seen + {k};
        unknown := unknown + [rows[i].printer];
      }
    }
    assert rows[..|rows|] == rows;
  }

  method GroupRows(rows: seq<Row>) returns (groups: seq<MenuRows>)
    ensures groups == Grouped(rows)
  {
    hide Norm, Upsert;
    groups := [];
    for i := 0 to |rows|
      invariant groups == Grouped(rows[..i])
    {
      PrefixOfPrefix(rows, i);
      groups := Upsert(ROWS_BY_MENU, groups, rows[i]);
    }
    assert rows[..|rows|] == rows;
  }

  method DeleteMenus(repo: Repository, dryRun: bool) returns (gone: seq<Change>)
    modifies repo
    ensures gone == Gone(old(repo.menus))
    ensures repo.menus == if dryRun then old(repo.menus) else []
  {
    var menus := repo.menus;
    gone := [];
    for i := 0 to |menus|
      invariant gone == Gone(menus[..i])
      invariant repo.menus == if dryRun then menus else menus[i..]
    {
      gone := gone + [MenuGone(menus[i].name)];
      if !dryRun { repo.DeleteMenu(0); }
    }
    assert menus[..|menus|] == menus;
  }

  /**
   * Imports rows. What is reported does not depend on dryRun, and so a dry run says what the real run would; only the
   * real run changes what is stored. An unknown printer refuses the file before anything is touched.
   */
  method ImportCSV(repo: Repository, printers: seq<Printer>, rows: seq<Row>, dryRun: bool, replace: bool)
    returns (out: Outcome)
    modifies repo
    ensures out == Reported(printers, old(repo.menus), rows, replace)
    ensures repo.menus == if dryRun || out.Refused? then old(repo.menus)
                          else Imported(printers, if replace then [] else old(repo.menus), rows)
  {
    hide Norm, Unknown, Grouped, PrinterIds, NoteMenu, Upsert, UpsertAll;
    var ids := PrinterIds(printers);
    var unknown := UnknownPrinters(rows, ids);
    if unknown != [] { return Refused(unknown); }
    var menus, gone := repo.menus, [];
    if replace {
      gone := DeleteMenus(repo, dryRun);
      menus := [];
    }
    var groups := GroupRows(rows);
    GroupedIsWellGrouped(rows);
    var t := ImportMenus(repo, dryRun, ids, menus, groups, !replace, NOTHING_YET.(changes := gone));
    out := Done(|gone|, t, Prints(printers, t.printsOn));
  }

  method ImportMenus(repo: Repository, dryRun: bool, ids: Ids, menus: seq<Menu>, groups: seq<MenuRows>, listed: bool,
                     t0: Tally)
    returns (t: Tally)
    requires WellGrouped(groups)
    requires !dryRun ==> repo.menus == menus
    requires dryRun ==> if listed then repo.menus == menus else menus == []
    modifies repo
    ensures t == NoteMenus(ids, t0, menus, groups)
    ensures repo.menus == if dryRun then old(repo.menus) else UpsertAll(MenuKeeping(ids), menus, groups)
  {
    hide Norm, NoteMenu, Upsert;
    t := t0;
    for i := 0 to |groups|
      invariant t == NoteMenus(ids, t0, menus, groups[..i])
      invariant repo.menus == if dryRun then old(repo.menus) else UpsertAll(MenuKeeping(ids), menus, groups[..i])
    {
      PrefixOfPrefix(groups, i);
      forall d <- groups[..i] ensures Norm(d.name) != Norm(groups[i].name) {
        var j :| 0 <= j < i && groups[j] == d;
        assert MenuRowsKey(groups[j]) != MenuRowsKey(groups[i]);
      }
      t := ImportMenu(repo, dryRun, ids, menus, groups[..i], groups[i], listed, t);
    }
    assert groups[..|groups|] == groups;
  }
}
