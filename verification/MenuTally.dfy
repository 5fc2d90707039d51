/** What an import reports against what it changes: counts, notes, and where the items print. */
module MenuTally {
  import opened Options
  import opened Sequences
  import opened Text
  import opened Upserts
  import opened MenuCsv

  // --- one row ------------------------------------------------------------------------------------

  /** A row sets the price and description it gives and leaves the others; an item it sends to a printer prints there. */
  lemma WhatARowSets(ids: Ids, default: Option<Id>, it: Item, r: Row)
    ensures var next := RowOn(ids, default, it, r);
      && next.name == it.name
      && next.priceCents == (match r.price case Some(p) => p case None => it.priceCents)
      && next.description == (match r.description case Some(d) => d case None => it.description)
      && (r.printer == "" ==> next.printer == it.printer)
      && (r.printer != "" ==>
            var p := if Norm(r.printer) in ids then ids[Norm(r.printer)] else NO_ID;
            Effective(default, next) == Some(p) && (next.printer == None <==> default == Some(p)))
  {
    hide Norm;
  }

  /** A category keeps the printer it has; one without takes the printer its rows name most. */
  lemma WhatACategoryPrintsOn(ids: Ids, c: Category, rows: seq<Row>)
    ensures var next := RowsOn(ids, c, rows);
      && next.name == c.name && |c.items| <= |next.items|
      && (c.defaultPrinter.Some? ==> next.defaultPrinter == c.defaultPrinter)
      && (c.defaultPrinter.None? ==> next.defaultPrinter == MostCommon(ids, rows))
  {
    hide ItemKeeping, MostCommon;
    RowsOnlyAdd(ItemKeeping(ids, DefaultFor(ids, c.defaultPrinter, rows)), c.items, rows);
  }

  lemma {:induction false} RowsOnlyAdd<T, R>(p: Keeping<T, R>, xs: seq<T>, rs: seq<R>)
    ensures |xs| <= |UpsertAll(p, xs, rs)|
    decreases |rs|
  {
    if rs != [] { RowsOnlyAdd(p, xs, rs[..|rs|-1]); }
  }

  function One(b: bool): nat {
    if b then 1 else 0
  }

  /** The item a row is about, as it was (None: the row makes it), and as it is after. */
  function Found(items: seq<Item>, r: Row): Option<Item> {
    match Find(items, ItemKey, RowItem(r)) case None => None case Some(i) => Some(items[i])
  }

  /** One row is reported as what it did: an item made, or one whose price or description changed, and a printer set. */
  lemma ARowIsReported(ids: Ids, default: Option<Id>, t: Tally, items: seq<Item>, r: Row)
    ensures var next, found := NoteRow(ids, default, t, items, r), Found(items, r);
      var before := if found.Some? then found.value else Item(r.item, 0, "", None);
      var after := RowOn(ids, default, before, r);
      var made, changed := found.None?, found.Some? && after.(printer := before.printer) != before;
      var moved := after.printer != before.printer;
      && next.items == t.items + One(made) && next.itemsUpdated == t.itemsUpdated + One(changed)
      && next.itemPrinters == t.itemPrinters + One(moved)
      && next.changes == t.changes + (if made then [ItemAdded(r.item, after.priceCents)] else [])
                                   + (if changed then [ItemChanged(before.name, after.priceCents)] else [])
                                   + (if moved then [ItemPrinterSet(before.name, after.printer)] else [])
      && next.(items := t.items, itemsUpdated := t.itemsUpdated, itemPrinters := t.itemPrinters, changes := t.changes) == t
  {
    hide Norm, Find;
    assert t.changes + [] == t.changes;
  }

  // --- all rows of a category -----------------------------------------------------------------------

  /** The items a category gains are those reported, and with nothing reported nothing has changed. */
  lemma {:induction false} RowsAreReported(ids: Ids, default: Option<Id>, t: Tally, items: seq<Item>, rows: seq<Row>)
    ensures var next, after := NoteRows(ids, default, t, items, rows), UpsertAll(ItemKeeping(ids, default), items, rows);
      && |after| == |items| + (next.items - t.items)
      && next.menus == t.menus && next.categories == t.categories && next.categoryPrinters == t.categoryPrinters
      && next.noPrinter == t.noPrinter && next.printsOn == t.printsOn
      && t.changes <= next.changes && (next.changes == t.changes ==> after == items)
    decreases |rows|
  {
    hide Norm, NoteRow, RowOn, Find;
    if rows != [] {
      var init, r := rows[..|rows|-1], rows[|rows|-1];
      RowsAreReported(ids, default, t, items, init);
      OneRowIsReported(ids, default, NoteRows(ids, default, t, items, init),
                       UpsertAll(ItemKeeping(ids, default), items, init), r);
    }
  }

  lemma OneRowIsReported(ids: Ids, default: Option<Id>, t: Tally, items: seq<Item>, r: Row)
    ensures var next, after := NoteRow(ids, default, t, items, r), Upsert(ItemKeeping(ids, default), items, r);
      && |after| == |items| + (next.items - t.items)
      && next.menus == t.menus && next.categories == t.categories && next.categoryPrinters == t.categoryPrinters
      && next.noPrinter == t.noPrinter && next.printsOn == t.printsOn
      && t.changes <= next.changes && (next.changes == t.changes ==> after == items)
  {
    hide Norm, NoteRow, RowOn;
    ARowIsReported(ids, default, t, items, r);
  }

  // --- where the items print --------------------------------------------------------------------------

  /** How many of the items at some places print on p (None: nowhere). */
  function Printing(default: Option<Id>, items: seq<Item>, places: seq<nat>, p: Option<Id>): nat
    requires Within(places, |items|)
  {
    if places == [] then 0
    else One(Effective(default, items[places[0]]) == p) + Printing(default, items, places[1..], p)
  }

  function PrintsOf(t: Tally, p: Id): nat {
    if p in t.printsOn then t.printsOn[p] else 0
  }

  lemma {:induction false} OnePlaceMore(default: Option<Id>, items: seq<Item>, places: seq<nat>, k: nat, p: Option<Id>)
    requires Within(places, |items|) && k < |items|
    ensures Within(places + [k], |items|)
    ensures Printing(default, items, places + [k], p)
         == Printing(default, items, places, p) + One(Effective(default, items[k]) == p)
  {
    if places == [] {
      assert [] + [k] == [k] && [k][1..] == [];
    } else {
      assert (places + [k])[1..] == places[1..] + [k];
      OnePlaceMore(default, items, places[1..], k, p);
    }
  }

  /** Each item the file names is counted once, under the printer it ends up on, or as printing nowhere. */
  lemma {:induction false} PrintsAreCounted(t: Tally, default: Option<Id>, items: seq<Item>, places: seq<nat>, p: Id)
    requires Within(places, |items|)
    ensures var next := NoteAllPrints(t, default, items, places);
      && PrintsOf(next, p) == PrintsOf(t, p) + Printing(default, items, places, Some(p))
      && next.noPrinter == t.noPrinter + Printing(default, items, places, None)
      && next == t.(noPrinter := next.noPrinter, printsOn := next.printsOn)
    decreases |places|
  {
    hide Effective;
    if places != [] {
      var init, k := places[..|places|-1], places[|places|-1];
      PrintsAreCounted(t, default, items, init, p);
      OnePlaceMore(default, items, init, k, Some(p));
      OnePlaceMore(default, items, init, k, None);
      assert places == init + [k];
    }
  }

  /** The places counted are those of the items the rows name, each once. */
  lemma {:induction false} PlacesAreOnce(ids: Ids, default: Option<Id>, items: seq<Item>, rows: seq<Row>)
    ensures Once(Touched(ids, default, items, rows))
    decreases |rows|
  {
    hide PlaceOf, ItemKeeping, UpsertAll, Once;
    if rows == [] {
      assert Once([]) by { NothingTwice(); }
    } else {
      var init := rows[..|rows|-1];
      PlacesAreOnce(ids, default, items, init);
      var before := Touched(ids, default, items, init);
      var place := PlaceOf(UpsertAll(ItemKeeping(ids, default), items, init), rows[|rows|-1]);
      if place !in before { OnceMore(before, place); }
    }
  }

  ghost predicate Once(places: seq<nat>) {
    forall i, j :: 0 <= i < j < |places| ==> places[i] != places[j]
  }

  lemma NothingTwice()
    ensures Once([])
  {
  }

  lemma OnceMore(places: seq<nat>, k: nat)
    requires Once(places) && k !in places
    ensures Once(places + [k])
  {
  }

  /** The printers reported are those of the store with some item on them, with their counts. */
  lemma {:induction false} PrintersAreListed(printers: seq<Printer>, on: map<Id, nat>)
    ensures var listed := Prints(printers, on);
      && (forall l <- listed :: l.items > 0 && exists p <- printers :: p.name == l.printer && p.id in on && on[p.id] == l.items)
      && forall p <- printers :: p.id in on && on[p.id] > 0 ==> PrinterItems(p.name, on[p.id]) in listed
    decreases |printers|
  {
    if printers != [] {
      var init, last := printers[..|printers|-1], printers[|printers|-1];
      PrintersAreListed(init, on);
      assert printers == init + [last];
    }
  }

  /** They are the places of the items that the rows name, and of no others. */
  lemma {:induction false} PlacesAreTheNamedItems(ids: Ids, default: Option<Id>, items: seq<Item>, rows: seq<Row>)
    ensures AreNamed(Touched(ids, default, items, rows), UpsertAll(ItemKeeping(ids, default), items, rows), rows)
    decreases |rows|
  {
    hide ItemKeeping, PlaceOf, Upsert, AreNamed;
    if rows == [] {
      NothingNamed(items);
    } else {
      var init, r := rows[..|rows|-1], rows[|rows|-1];
      var now := UpsertAll(ItemKeeping(ids, default), items, init);
      PlacesAreTheNamedItems(ids, default, items, init);
      ARowKeepsTheNames(ids, default, now, r);
      OneMoreNamed(Touched(ids, default, items, init), now, init, Upsert(ItemKeeping(ids, default), now, r), r, PlaceOf(now, r));
      assert rows == init + [r];
    }
  }

  ghost predicate EachNamed(places: seq<nat>, items: seq<Item>, rows: seq<Row>) {
    forall r <- rows :: exists k <- places :: k < |items| && ItemKey(items[k]) == RowItem(r)
  }

  ghost predicate NamedOnly(places: seq<nat>, items: seq<Item>, rows: seq<Row>) {
    forall k <- places :: k < |items| && exists r <- rows :: ItemKey(items[k]) == RowItem(r)
  }

  ghost predicate AreNamed(places: seq<nat>, items: seq<Item>, rows: seq<Row>) {
    EachNamed(places, items, rows) && NamedOnly(places, items, rows)
  }

  lemma NothingNamed(items: seq<Item>)
    ensures AreNamed([], items, [])
  {
  }

  function WithPlace(places: seq<nat>, place: nat): (r: seq<nat>)
    ensures place in r && forall k :: k in r <==> k in places || k == place
  {
    if place in places then places else places + [place]
  }

  lemma OneMoreNamed(places: seq<nat>, now: seq<Item>, rows: seq<Row>, after: seq<Item>, r: Row, place: nat)
    requires AreNamed(places, now, rows)
    requires |now| <= |after| && place < |after| && ItemKey(after[place]) == RowItem(r)
    requires forall k :: 0 <= k < |now| ==> ItemKey(after[k]) == ItemKey(now[k])
    ensures AreNamed(WithPlace(places, place), after, rows + [r])
  {
    hide ItemKey, RowItem, WithPlace, EachNamed, NamedOnly;
    assert EachNamed(WithPlace(places, place), after, rows + [r]) by {
      EachStaysNamed(places, now, rows, after, r, place);
    }
    assert NamedOnly(WithPlace(places, place), after, rows + [r]) by {
      OnlyNamedStay(places, now, rows, after, r, place);
    }
  }

  lemma EachStaysNamed(places: seq<nat>, now: seq<Item>, rows: seq<Row>, after: seq<Item>, r: Row, place: nat)
    requires EachNamed(places, now, rows)
    requires |now| <= |after| && place < |after| && ItemKey(after[place]) == RowItem(r)
    requires forall k :: 0 <= k < |now| ==> ItemKey(after[k]) == ItemKey(now[k])
    ensures EachNamed(WithPlace(places, place), after, rows + [r])
  {
    hide ItemKey, RowItem, WithPlace;
    forall q <- rows + [r] ensures exists k <- WithPlace(places, place) :: k < |after| && ItemKey(after[k]) == RowItem(q) {
      ANamedRow(places, now, rows, after, r, place, q);
    }
  }

  lemma OnlyNamedStay(places: seq<nat>, now: seq<Item>, rows: seq<Row>, after: seq<Item>, r: Row, place: nat)
    requires NamedOnly(places, now, rows)
    requires |now| <= |after| && place < |after| && ItemKey(after[place]) == RowItem(r)
    requires forall k :: 0 <= k < |now| ==> ItemKey(after[k]) == ItemKey(now[k])
    ensures NamedOnly(WithPlace(places, place), after, rows + [r])
  {
    hide ItemKey, RowItem, WithPlace;
    forall k <- WithPlace(places, place)
      ensures k < |after| && exists q <- rows + [r] :: ItemKey(after[k]) == RowItem(q)
    {
      ANamedPlace(places, now, rows, after, r, place, k);
    }
  }

  lemma ANamedRow(places: seq<nat>, now: seq<Item>, rows: seq<Row>, after: seq<Item>, r: Row, place: nat, q: Row)
    requires EachNamed(places, now, rows) && (q in rows || q == r)
    requires |now| <= |after| && place < |after| && ItemKey(after[place]) == RowItem(r)
    requires forall k :: 0 <= k < |now| ==> ItemKey(after[k]) == ItemKey(now[k])
    ensures exists k <- WithPlace(places, place) :: k < |after| && ItemKey(after[k]) == RowItem(q)
  {
    hide ItemKey, RowItem, WithPlace;
    if q in rows {
      var k :| k in places && k < |now| && ItemKey(now[k]) == RowItem(q);
      assert k in WithPlace(places, place) && ItemKey(after[k]) == RowItem(q);
    } else {
      assert place in WithPlace(places, place);
    }
  }

  lemma ANamedPlace(places: seq<nat>, now: seq<Item>, rows: seq<Row>, after: seq<Item>, r: Row, place: nat, k: nat)
    requires NamedOnly(places, now, rows) && (k in places || k == place)
    requires |now| <= |after| && place < |after| && ItemKey(after[place]) == RowItem(r)
    requires forall k :: 0 <= k < |now| ==> ItemKey(after[k]) == ItemKey(now[k])
    ensures k < |after| && exists q <- rows + [r] :: ItemKey(after[k]) == RowItem(q)
  {
    hide ItemKey, RowItem;
    if k in places {
      var q :| q in rows && ItemKey(now[k]) == RowItem(q);
      assert q in rows + [r];
    } else {
      assert r in rows + [r];
    }
  }

  lemma ARowKeepsTheNames(ids: Ids, default: Option<Id>, items: seq<Item>, r: Row)
    ensures var after, place := Upsert(ItemKeeping(ids, default), items, r), PlaceOf(items, r);
      && |items| <= |after| && place < |after| && ItemKey(after[place]) == RowItem(r)
      && forall k :: 0 <= k < |items| ==> ItemKey(after[k]) == ItemKey(items[k])
  {
    hide Norm;
  }

  // --- a category ---------------------------------------------------------------------------------

  /** A category is reported as made, with the printer it prints on in the end, or as given that printer, or not at all. */
  lemma ACategoryIsNoted(ids: Ids, t: Tally, cats: seq<Category>, g: CatRows)
    ensures var next, found := NoteFoundCategory(ids, t, cats, g), Find(cats, CategoryKey, Norm(g.name));
      var before := if found.Some? then cats[found.value] else Category(g.name, None, []);
      var printer := RowsOn(ids, before, g.rows).defaultPrinter;
      var made, moved := found.None?, printer != before.defaultPrinter;
      && next.categories == t.categories + One(made) && next.categoryPrinters == t.categoryPrinters + One(moved)
      && next.changes == t.changes + (if made then [CategoryAdded(g.name, printer)] else [])
                                   + (if moved && !made then [CategoryPrinterSet(before.name, printer)] else [])
      && next.(categories := t.categories, categoryPrinters := t.categoryPrinters, changes := t.changes) == t
  {
    hide Norm, Find, MostCommon, UpsertAll;
    assert t.changes + [] == t.changes;
  }

  /** Each item of a category that its rows name is counted once, where it prints after them: on p, or nowhere. */
  lemma ACategorysPrintsAreCounted(ids: Ids, t: Tally, c: Category, rows: seq<Row>, p: Id)
    ensures var next, after := NoteItems(ids, t, c, rows), RowsOn(ids, c, rows);
      var places := Touched(ids, after.defaultPrinter, c.items, rows);
      && Once(places) && Within(places, |after.items|)
      && PrintsOf(next, p) == PrintsOf(t, p) + Printing(after.defaultPrinter, after.items, places, Some(p))
      && next.noPrinter == t.noPrinter + Printing(after.defaultPrinter, after.items, places, None)
  {
    hide NoteRows, Touched, UpsertAll, ItemKeeping, MostCommon, Printing, Once, Within;
    var default := DefaultFor(ids, c.defaultPrinter, rows);
    RowsAreReported(ids, default, t, c.items, rows);
    TouchedAreThere(ids, default, c.items, rows);
    PlacesAreOnce(ids, default, c.items, rows);
    PrintsAreCounted(NoteRows(ids, default, t, c.items, rows), default,
                     UpsertAll(ItemKeeping(ids, default), c.items, rows), Touched(ids, default, c.items, rows), p);
  }

  /** How many of the items some groups name print on p (None: nowhere) once their rows are in. */
  function PrintingIn(ids: Ids, cats: seq<Category>, groups: seq<CatRows>, p: Option<Id>): nat
    decreases |groups|
  {
    if groups == [] then 0
    else
      var init, g := groups[..|groups|-1], groups[|groups|-1];
      var c := CategoryBefore(UpsertAll(CategoryKeeping(ids), cats, init), g);
      var after := RowsOn(ids, c, g.rows);
      var places := Touched(ids, after.defaultPrinter, c.items, g.rows);
      TouchedAreThere(ids, after.defaultPrinter, c.items, g.rows);
      PrintingIn(ids, cats, init, p) + Printing(after.defaultPrinter, after.items, places, p)
  }

  function PrintingOver(ids: Ids, menus: seq<Menu>, groups: seq<MenuRows>, p: Option<Id>): nat
    decreases |groups|
  {
    if groups == [] then 0
    else
      var init, g := groups[..|groups|-1], groups[|groups|-1];
      var now := UpsertAll(MenuKeeping(ids), menus, init);
      var cats := match Find(now, MenuKey, Norm(g.name)) case None => [] case Some(i) => now[i].categories;
      PrintingOver(ids, menus, init, p) + PrintingIn(ids, cats, g.cats, p)
  }

  lemma {:induction false} CategoriesPrintsAreCounted(ids: Ids, t: Tally, cats: seq<Category>, groups: seq<CatRows>, p: Id)
    ensures var next := NoteCategories(ids, t, cats, groups);
      && PrintsOf(next, p) == PrintsOf(t, p) + PrintingIn(ids, cats, groups, Some(p))
      && next.noPrinter == t.noPrinter + PrintingIn(ids, cats, groups, None)
    decreases |groups|
  {
    hide NoteItems, NoteFoundCategory, CategoryKeeping, UpsertAll, CategoryBefore, RowsOn, Touched, Printing, Within, Once;
    if groups != [] {
      var init, g := groups[..|groups|-1], groups[|groups|-1];
      var mid, now := NoteCategories(ids, t, cats, init), UpsertAll(CategoryKeeping(ids), cats, init);
      CategoriesPrintsAreCounted(ids, t, cats, init, p);
      ACategoryIsNoted(ids, mid, now, g);
      ACategorysPrintsAreCounted(ids, NoteFoundCategory(ids, mid, now, g), CategoryBefore(now, g), g.rows, p);
    }
  }

  lemma {:induction false} MenusPrintsAreCounted(ids: Ids, t: Tally, menus: seq<Menu>, groups: seq<MenuRows>, p: Id)
    ensures var next := NoteMenus(ids, t, menus, groups);
      && PrintsOf(next, p) == PrintsOf(t, p) + PrintingOver(ids, menus, groups, Some(p))
      && next.noPrinter == t.noPrinter + PrintingOver(ids, menus, groups, None)
    decreases |groups|
  {
    hide NoteCategories, MenuKeeping, UpsertAll, PrintingIn, Norm, Find;
    if groups != [] {
      var init, g := groups[..|groups|-1], groups[|groups|-1];
      var mid, now := NoteMenus(ids, t, menus, init), UpsertAll(MenuKeeping(ids), menus, init);
      MenusPrintsAreCounted(ids, t, menus, init, p);
      match Find(now, MenuKey, Norm(g.name))
      case None =>
        CategoriesPrintsAreCounted(ids, Noted(mid.(menus := mid.menus + 1), MenuAdded(g.name)), [], g.cats, p);
      case Some(i) =>
        CategoriesPrintsAreCounted(ids, mid, now[i].categories, g.cats, p);
    }
  }

  /** In every report: as many items print on each printer, and nowhere, as the file's items do once its rows are in. */
  lemma TheReportCountsThePrints(printers: seq<Printer>, menus: seq<Menu>, rows: seq<Row>, replace: bool, p: Id)
    requires Reported(printers, menus, rows, replace).Done?
    ensures var tally, start := Reported(printers, menus, rows, replace).tally, if replace then [] else menus;
      && PrintsOf(tally, p) == PrintingOver(PrinterIds(printers), start, Grouped(rows), Some(p))
      && tally.noPrinter == PrintingOver(PrinterIds(printers), start, Grouped(rows), None)
  {
    hide NoteMenus, Unknown, Grouped, PrinterIds, Prints, PrintingOver;
    var gone := if replace then Gone(menus) else [];
    MenusPrintsAreCounted(PrinterIds(printers), NOTHING_YET.(changes := gone), if replace then [] else menus, Grouped(rows), p);
  }

  // --- counts and notes -----------------------------------------------------------------------------

  datatype Kind = NewMenu | NewCategory | PrinterOfCategory | NewItem | UpdatedItem | PrinterOfItem

  /** Does a note say this? A category made with a printer says both. */
  predicate Says(c: Change, k: Kind) {
    match k
    case NewMenu => c.MenuAdded?
    case NewCategory => c.CategoryAdded?
    case PrinterOfCategory => c.CategoryPrinterSet? || (c.CategoryAdded? && c.printer.Some?)
    case NewItem => c.ItemAdded?
    case UpdatedItem => c.ItemChanged?
    case PrinterOfItem => c.ItemPrinterSet?
  }

  function CountOf(t: Tally, k: Kind): nat {
    match k
    case NewMenu => t.menus
    case NewCategory => t.categories
    case PrinterOfCategory => t.categoryPrinters
    case NewItem => t.items
    case UpdatedItem => t.itemsUpdated
    case PrinterOfItem => t.itemPrinters
  }

  function Saying(cs: seq<Change>, k: Kind): nat {
    if cs == [] then 0 else One(Says(cs[0], k)) + Saying(cs[1..], k)
  }

  lemma {:induction false} SayingMore(cs: seq<Change>, ds: seq<Change>, k: Kind)
    ensures Saying(cs + ds, k) == Saying(cs, k) + Saying(ds, k)
  {
    hide Says;
    if cs == [] {
      assert [] + ds == ds;
    } else {
      assert (cs + ds)[1..] == cs[1..] + ds;
      SayingMore(cs[1..], ds, k);
    }
  }

  lemma SayingOne(cs: seq<Change>, c: Change, k: Kind)
    ensures Saying(cs + [c], k) == Saying(cs, k) + One(Says(c, k))
  {
    hide Says;
    SayingMore(cs, [c], k);
    assert [c][1..] == [];
  }

  /** Between two tallies, as many are counted more as are noted more. */
  ghost predicate InStep(t: Tally, next: Tally) {
    forall k :: CountOf(next, k) - CountOf(t, k) == Saying(next.changes, k) - Saying(t.changes, k)
  }

  lemma ANoteInStep(t: Tally, next: Tally, c: Change)
    requires next.changes == t.changes + [c]
    requires forall k :: CountOf(next, k) == CountOf(t, k) + One(Says(c, k))
    ensures InStep(t, next)
  {
    hide CountOf, Says;
    forall k ensures CountOf(next, k) - CountOf(t, k) == Saying(next.changes, k) - Saying(t.changes, k) {
      SayingOne(t.changes, c, k);
    }
  }

  lemma AnItemInStep(t: Tally, items: seq<Item>, r: Row)
    ensures InStep(t, NoteItem(t, items, r))
  {
    hide Find, Norm, ItemBefore, Changes, InStep;
    var next := NoteItem(t, items, r);
    if next.changes == t.changes {
      assert InStep(t, next) by { NothingInStep(t, next); }
    } else {
      ANoteInStep(t, next, next.changes[|t.changes|]);
    }
  }

  lemma NothingInStep(t: Tally, next: Tally)
    requires next.changes == t.changes && forall k :: CountOf(next, k) == CountOf(t, k)
    ensures InStep(t, next)
  {
  }

  lemma APrinterInStep(ids: Ids, default: Option<Id>, t: Tally, it: Item, r: Row)
    ensures InStep(t, NotePrinter(ids, default, t, it, r))
  {
    hide Norm, Target, InStep;
    var next := NotePrinter(ids, default, t, it, r);
    if next == t {
      NothingInStep(t, next);
    } else {
      ANoteInStep(t, next, next.changes[|t.changes|]);
    }
  }

  lemma {:induction false} RowsInStep(ids: Ids, default: Option<Id>, t: Tally, items: seq<Item>, rows: seq<Row>)
    ensures InStep(t, NoteRows(ids, default, t, items, rows))
    decreases |rows|
  {
    hide NoteItem, NotePrinter, CountOf, Saying, UpsertAll, ItemBefore, ItemKeeping;
    if rows != [] {
      var init, r := rows[..|rows|-1], rows[|rows|-1];
      RowsInStep(ids, default, t, items, init);
      var mid, now := NoteRows(ids, default, t, items, init), UpsertAll(ItemKeeping(ids, default), items, init);
      AnItemInStep(mid, now, r);
      APrinterInStep(ids, default, NoteItem(mid, now, r), ItemBefore(now, r), r);
    }
  }

  lemma ItemsInStep(ids: Ids, t: Tally, c: Category, rows: seq<Row>)
    ensures InStep(t, NoteItems(ids, t, c, rows))
  {
    hide NoteRows, Touched, UpsertAll, ItemKeeping, MostCommon, Printing, Within, Saying;
    var default := DefaultFor(ids, c.defaultPrinter, rows);
    RowsInStep(ids, default, t, c.items, rows);
    TouchedAreThere(ids, default, c.items, rows);
    PrintsAreCounted(NoteRows(ids, default, t, c.items, rows), default,
                     UpsertAll(ItemKeeping(ids, default), c.items, rows), Touched(ids, default, c.items, rows), NO_ID);
  }

  lemma AFoundCategoryInStep(ids: Ids, t: Tally, cats: seq<Category>, g: CatRows)
    ensures InStep(t, NoteFoundCategory(ids, t, cats, g))
  {
    hide Norm, Find, MostCommon, InStep;
    var next := NoteFoundCategory(ids, t, cats, g);
    if next == t {
      NothingInStep(t, next);
    } else {
      ANoteInStep(t, next, next.changes[|t.changes|]);
    }
  }

  lemma {:induction false} CategoriesInStep(ids: Ids, t: Tally, cats: seq<Category>, groups: seq<CatRows>)
    ensures InStep(t, NoteCategories(ids, t, cats, groups))
    decreases |groups|
  {
    hide NoteFoundCategory, NoteItems, CountOf, Saying, UpsertAll, CategoryKeeping, CategoryBefore;
    if groups != [] {
      var init, g := groups[..|groups|-1], groups[|groups|-1];
      CategoriesInStep(ids, t, cats, init);
      var mid, now := NoteCategories(ids, t, cats, init), UpsertAll(CategoryKeeping(ids), cats, init);
      AFoundCategoryInStep(ids, mid, now, g);
      ItemsInStep(ids, NoteFoundCategory(ids, mid, now, g), CategoryBefore(now, g), g.rows);
    }
  }

  lemma AMenuInStep(ids: Ids, t: Tally, menus: seq<Menu>, g: MenuRows)
    ensures InStep(t, NoteMenu(ids, t, menus, g))
  {
    hide Norm, Find, NoteCategories, Saying;
    match Find(menus, MenuKey, Norm(g.name))
    case None =>
      var more := Noted(t.(menus := t.menus + 1), MenuAdded(g.name));
      assert InStep(t, more) by { ANoteInStep(t, more, MenuAdded(g.name)); }
      CategoriesInStep(ids, more, [], g.cats);
    case Some(i) =>
      CategoriesInStep(ids, t, menus[i].categories, g.cats);
  }

  lemma {:induction false} MenusInStep(ids: Ids, t: Tally, menus: seq<Menu>, groups: seq<MenuRows>)
    ensures InStep(t, NoteMenus(ids, t, menus, groups))
    decreases |groups|
  {
    hide NoteMenu, CountOf, Saying, UpsertAll, MenuKeeping;
    if groups != [] {
      var init, g := groups[..|groups|-1], groups[|groups|-1];
      MenusInStep(ids, t, menus, init);
      AMenuInStep(ids, NoteMenus(ids, t, menus, init), UpsertAll(MenuKeeping(ids), menus, init), g);
    }
  }

  lemma {:induction false} NothingSaid(cs: seq<Change>, k: Kind)
    requires forall c <- cs :: c.MenuGone?
    ensures Saying(cs, k) == 0
  {
    if cs != [] {
      assert cs[0] in cs;
      NothingSaid(cs[1..], k);
    }
  }

  /** The report's six counts are those of its notes: each thing counted is noted, and each thing noted counted. */
  lemma CountsAreTheNotes(printers: seq<Printer>, menus: seq<Menu>, rows: seq<Row>, replace: bool, k: Kind)
    requires Reported(printers, menus, rows, replace).Done?
    ensures var tally := Reported(printers, menus, rows, replace).tally; CountOf(tally, k) == Saying(tally.changes, k)
  {
    hide NoteMenus, Unknown, Grouped, PrinterIds, Prints, Saying;
    var gone := if replace then Gone(menus) else [];
    var start := NOTHING_YET.(changes := gone);
    MenusInStep(PrinterIds(printers), start, if replace then [] else menus, Grouped(rows));
    NothingSaid(gone, k);
    assert CountOf(start, k) == 0;
  }

  // --- a whole import ----------------------------------------------------------------------------------

  /** How many items, and how many categories, some menus hold. */
  function ItemsOf(cats: seq<Category>): nat {
    if cats == [] then 0 else |cats[0].items| + ItemsOf(cats[1..])
  }

  function AllItemsOf(menus: seq<Menu>): nat {
    if menus == [] then 0 else ItemsOf(menus[0].categories) + AllItemsOf(menus[1..])
  }

  function AllCategoriesOf(menus: seq<Menu>): nat {
    if menus == [] then 0 else |menus[0].categories| + AllCategoriesOf(menus[1..])
  }

  lemma {:induction false} OneCategoryChanged(cats: seq<Category>, i: nat, c: Category)
    requires i < |cats|
    ensures ItemsOf(cats[i := c]) == ItemsOf(cats) - |cats[i].items| + |c.items|
  {
    if i > 0 {
      assert cats[i := c][1..] == cats[1..][i-1 := c];
      OneCategoryChanged(cats[1..], i - 1, c);
    } else {
      assert cats[i := c][1..] == cats[1..];
    }
  }

  lemma {:induction false} OneCategoryMore(cats: seq<Category>, c: Category)
    ensures ItemsOf(cats + [c]) == ItemsOf(cats) + |c.items|
  {
    if cats == [] {
      assert [] + [c] == [c] && [c][1..] == [];
    } else {
      assert (cats + [c])[1..] == cats[1..] + [c];
      OneCategoryMore(cats[1..], c);
    }
  }

  lemma {:induction false} OneMenuChanged(menus: seq<Menu>, i: nat, m: Menu)
    requires i < |menus|
    ensures AllItemsOf(menus[i := m]) == AllItemsOf(menus) - ItemsOf(menus[i].categories) + ItemsOf(m.categories)
    ensures AllCategoriesOf(menus[i := m]) == AllCategoriesOf(menus) - |menus[i].categories| + |m.categories|
  {
    hide ItemsOf;
    if i > 0 {
      assert menus[i := m][1..] == menus[1..][i-1 := m];
      OneMenuChanged(menus[1..], i - 1, m);
    } else {
      assert menus[i := m][1..] == menus[1..];
    }
  }

  lemma {:induction false} OneMenuMore(menus: seq<Menu>, m: Menu)
    ensures AllItemsOf(menus + [m]) == AllItemsOf(menus) + ItemsOf(m.categories)
    ensures AllCategoriesOf(menus + [m]) == AllCategoriesOf(menus) + |m.categories|
  {
    hide ItemsOf;
    if menus == [] {
      assert [] + [m] == [m] && [m][1..] == [];
    } else {
      assert (menus + [m])[1..] == menus[1..] + [m];
      OneMenuMore(menus[1..], m);
    }
  }

  /** What the report says has come and changed agrees with the categories before and after. */
  ghost predicate CategoriesAgree(t: Tally, next: Tally, before: seq<Category>, after: seq<Category>) {
    && next.menus == t.menus
    && |after| == |before| + (next.categories - t.categories)
    && ItemsOf(after) == ItemsOf(before) + (next.items - t.items)
    && t.changes <= next.changes && (next.changes == t.changes ==> after == before)
  }

  lemma ItemsAreReported(ids: Ids, t: Tally, c: Category, rows: seq<Row>)
    ensures var next, after := NoteItems(ids, t, c, rows), RowsOn(ids, c, rows);
      && next.menus == t.menus && next.categories == t.categories
      && |after.items| == |c.items| + (next.items - t.items)
      && t.changes <= next.changes && (next.changes == t.changes ==> after.items == c.items)
  {
    hide NoteRows, Touched, ItemKeeping, MostCommon, Printing;
    var default := DefaultFor(ids, c.defaultPrinter, rows);
    RowsAreReported(ids, default, t, c.items, rows);
    TouchedAreThere(ids, default, c.items, rows);
    PrintsAreCounted(NoteRows(ids, default, t, c.items, rows), default,
                     UpsertAll(ItemKeeping(ids, default), c.items, rows), Touched(ids, default, c.items, rows), NO_ID);
  }

  lemma ACategoryIsReported(ids: Ids, t: Tally, cats: seq<Category>, g: CatRows)
    ensures CategoriesAgree(t, NoteCategory(ids, t, cats, g), cats, Upsert(CategoryKeeping(ids), cats, g))
  {
    hide NoteItems, Norm, MostCommon, ItemsOf, RowsOn;
    var c := CategoryBefore(cats, g);
    ItemsAreReported(ids, NoteFoundCategory(ids, t, cats, g), c, g.rows);
    WhatACategoryPrintsOn(ids, c, g.rows);
    match Find(cats, CategoryKey, Norm(g.name))
    case None =>
      OneCategoryMore(cats, RowsOn(ids, c, g.rows));
    case Some(i) =>
      OneCategoryChanged(cats, i, RowsOn(ids, cats[i], g.rows));
  }

  lemma {:induction false} CategoriesAreReported(ids: Ids, t: Tally, cats: seq<Category>, groups: seq<CatRows>)
    ensures CategoriesAgree(t, NoteCategories(ids, t, cats, groups), cats, UpsertAll(CategoryKeeping(ids), cats, groups))
    decreases |groups|
  {
    hide NoteCategory, CategoryKeeping, Upsert, ItemsOf;
    if groups != [] {
      var init, g := groups[..|groups|-1], groups[|groups|-1];
      CategoriesAreReported(ids, t, cats, init);
      ACategoryIsReported(ids, NoteCategories(ids, t, cats, init), UpsertAll(CategoryKeeping(ids), cats, init), g);
    }
  }

  ghost predicate MenusAgree(t: Tally, next: Tally, before: seq<Menu>, after: seq<Menu>) {
    && |after| == |before| + (next.menus - t.menus)
    && AllCategoriesOf(after) == AllCategoriesOf(before) + (next.categories - t.categories)
    && AllItemsOf(after) == AllItemsOf(before) + (next.items - t.items)
    && t.changes <= next.changes && (next.changes == t.changes ==> after == before)
  }

  lemma AMenuIsReported(ids: Ids, t: Tally, menus: seq<Menu>, g: MenuRows)
    ensures MenusAgree(t, NoteMenu(ids, t, menus, g), menus, Upsert(MenuKeeping(ids), menus, g))
  {
    hide NoteCategories, Norm, UpsertAll, ItemsOf, AllItemsOf, AllCategoriesOf, CategoryKeeping;
    match Find(menus, MenuKey, Norm(g.name))
    case None =>
      var m := CategoriesOn(ids, Menu(g.name, []), g.cats);
      CategoriesAreReported(ids, Noted(t.(menus := t.menus + 1), MenuAdded(g.name)), [], g.cats);
      OneMenuMore(menus, m);
      assert ItemsOf([]) == 0 by { NoItemsOf(); }
    case Some(i) =>
      CategoriesAreReported(ids, t, menus[i].categories, g.cats);
      OneMenuChanged(menus, i, CategoriesOn(ids, menus[i], g.cats));
  }

  lemma NoItemsOf()
    ensures ItemsOf([]) == 0
  {
  }

  lemma {:induction false} MenusAreReported(ids: Ids, t: Tally, menus: seq<Menu>, groups: seq<MenuRows>)
    ensures MenusAgree(t, NoteMenus(ids, t, menus, groups), menus, UpsertAll(MenuKeeping(ids), menus, groups))
    decreases |groups|
  {
    hide NoteMenu, MenuKeeping, Upsert, AllItemsOf, AllCategoriesOf;
    if groups != [] {
      var init, g := groups[..|groups|-1], groups[|groups|-1];
      MenusAreReported(ids, t, menus, init);
      AMenuIsReported(ids, NoteMenus(ids, t, menus, init), UpsertAll(MenuKeeping(ids), menus, init), g);
    }
  }

  /**
   * An import's report is true: the menus, categories and items it says it made are those there are more of, the menus it
   * says it deleted are all there were, and when it notes nothing the menus are as they were.
   */
  lemma TheReportIsTrue(printers: seq<Printer>, menus: seq<Menu>, rows: seq<Row>, replace: bool)
    requires Reported(printers, menus, rows, replace).Done?
    ensures var done, start := Reported(printers, menus, rows, replace), if replace then [] else menus;
      var result := Imported(printers, start, rows);
      && done.deleted == |menus| - |start|
      && |result| == |start| + done.tally.menus
      && AllCategoriesOf(result) == AllCategoriesOf(start) + done.tally.categories
      && AllItemsOf(result) == AllItemsOf(start) + done.tally.items
      && (done.tally.changes == [] ==> result == menus)
  {
    hide NoteMenus, Unknown, Grouped, PrinterIds, UpsertAll, MenuKeeping, Prints, AllItemsOf, AllCategoriesOf;
    var start, gone := if replace then [] else menus, if replace then Gone(menus) else [];
    MenusAreReported(PrinterIds(printers), NOTHING_YET.(changes := gone), start, Grouped(rows));
  }

  /** A file is refused exactly when it names a printer the store does not have; each such name is reported, and no other. */
  lemma {:induction false} WhyAFileIsRefused(ids: Ids, rows: seq<Row>)
    ensures Unknown(ids, rows) == [] <==> forall r <- rows :: r.printer == "" || Norm(r.printer) in ids
    ensures forall u <- Unknown(ids, rows) :: Norm(u) !in ids && exists r <- rows :: r.printer == u
    ensures forall r <- rows :: r.printer != "" && Norm(r.printer) !in ids ==>
              exists u <- Unknown(ids, rows) :: Norm(u) == Norm(r.printer)
    decreases |rows|
  {
    hide Norm;
    if rows != [] {
      var init, r := rows[..|rows|-1], rows[|rows|-1];
      WhyAFileIsRefused(ids, init);
      assert rows == init + [r];
    }
  }

  ghost predicate OnceEach(names: seq<string>) {
    forall i, j :: 0 <= i < j < |names| ==> Norm(names[i]) != Norm(names[j])
  }

  lemma NoNameTwice()
    ensures OnceEach([])
  {
  }

  lemma ANameMore(names: seq<string>, name: string)
    requires OnceEach(names) && !exists u <- names :: Norm(u) == Norm(name)
    ensures OnceEach(names + [name])
  {
    hide Norm;
    var more := names + [name];
    forall i, j | 0 <= i < j < |more| ensures Norm(more[i]) != Norm(more[j]) {
      assert names[i] in names && more[i] == names[i];
      if j < |names| { assert more[j] == names[j]; }
    }
  }

  /** No unknown printer is reported twice, however it is spelled. */
  lemma {:induction false} UnknownsAreReportedOnce(ids: Ids, rows: seq<Row>)
    ensures OnceEach(Unknown(ids, rows))
    decreases |rows|
  {
    hide Norm, OnceEach;
    if rows == [] {
      NoNameTwice();
    } else {
      var before, name := Unknown(ids, rows[..|rows|-1]), rows[|rows|-1].printer;
      UnknownsAreReportedOnce(ids, rows[..|rows|-1]);
      if !exists u <- before :: Norm(u) == Norm(name) { ANameMore(before, name); }
    }
  }
}
