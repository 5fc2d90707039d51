/**
 * An exported menu, imported with replace, comes back: exactly when no category mixes items with and without a printer
 * and every description is trimmed.
 */
module MenuRoundTrip {
  import opened Options
  import opened Sequences
  import opened Text
  import opened Upserts
  import opened MenuCsv
  import opened MenuCsvLaws

  // --- what there is to bring back ------------------------------------------------------------------

  /** One line of the menu as the kitchen and the customer know it. */
  datatype Line = Line(
    menu: string, category: string, item: string, priceCents: int, printer: Option<Id>, description: string)

  function LineOf(m: string, c: Category, it: Item): Line {
    Line(m, c.name, it.name, it.priceCents, Effective(c.defaultPrinter, it), it.description)
  }

  function CategoryLines(m: string, c: Category): seq<Line> {
    seq(|c.items|, i requires 0 <= i < |c.items| => LineOf(m, c, c.items[i]))
  }

  function MenuLines(m: string, cats: seq<Category>): seq<Line>
    decreases |cats|
  {
    if cats == [] then [] else MenuLines(m, cats[..|cats|-1]) + CategoryLines(m, cats[|cats|-1])
  }

  function Table(menus: seq<Menu>): seq<Line> {
    if menus == [] then []
    else Table(menus[..|menus|-1]) + MenuLines(menus[|menus|-1].name, menus[|menus|-1].categories)
  }

  predicate Tidy(s: string) {
    s != "" && Trim(s) == s
  }

  ghost predicate TidyCategory(c: Category) {
    Tidy(c.name) && DistinctKeys(c.items, ItemKey) && forall it <- c.items :: Tidy(it.name)
  }

  /** Names are trimmed, non-blank and, normalized, their own among their siblings. */
  ghost predicate TidyMenu(m: Menu) {
    Tidy(m.name) && DistinctKeys(m.categories, CategoryKey) && forall c <- m.categories :: TidyCategory(c)
  }

  ghost predicate TidyMenus(menus: seq<Menu>) {
    DistinctKeys(menus, MenuKey) && forall m <- menus :: TidyMenu(m)
  }

  ghost predicate GoodPrinters(printers: seq<Printer>) {
    && (forall p <- printers :: Tidy(p.name))
    && forall i, j :: 0 <= i < j < |printers| ==>
         printers[i].id != printers[j].id && Norm(printers[i].name) != Norm(printers[j].name)
  }

  predicate HasPrinter(printers: seq<Printer>, id: Id) {
    exists p <- printers :: p.id == id
  }

  /** The store has all the printers the category's items end up on. */
  ghost predicate PrintersKnown(printers: seq<Printer>, c: Category) {
    forall it <- c.items :: Effective(c.defaultPrinter, it).Some? ==> HasPrinter(printers, Effective(c.defaultPrinter, it).value)
  }

  /** Every item has an effective printer, or none has. */
  ghost predicate AllOrNone(c: Category) {
    || (forall it <- c.items :: Effective(c.defaultPrinter, it).Some?)
    || (forall it <- c.items :: Effective(c.defaultPrinter, it).None?)
  }

  /** Does every line of the category survive the file? Printers are all or none, and no description has blanks around it. */
  ghost predicate Survives(c: Category) {
    AllOrNone(c) && forall it <- c.items :: Trim(it.description) == it.description
  }

  // --- reading an export ------------------------------------------------------------------------------

  function RowFor(printers: seq<Printer>, m: string, c: Category, it: Item): Row {
    var p := Effective(c.defaultPrinter, it);
    Row(m, c.name, it.name, Some(it.priceCents), if p.Some? then PrinterName(printers, p.value) else "",
        if Trim(it.description) == "" then None else Some(Trim(it.description)))
  }

  function CategoryRowsOf(printers: seq<Printer>, m: string, c: Category, items: seq<Item>): (rows: seq<Row>)
    ensures |rows| == |items| && forall i :: 0 <= i < |items| ==> rows[i] == RowFor(printers, m, c, items[i])
  {
    seq(|items|, i requires 0 <= i < |items| => RowFor(printers, m, c, items[i]))
  }

  function MenuRowsOf(printers: seq<Printer>, m: string, cats: seq<Category>): seq<Row>
    decreases |cats|
  {
    if cats == [] then []
    else
      var c := cats[|cats|-1];
      MenuRowsOf(printers, m, cats[..|cats|-1]) + CategoryRowsOf(printers, m, c, c.items)
  }

  function RowsOf(printers: seq<Printer>, menus: seq<Menu>): seq<Row>
    decreases |menus|
  {
    if menus == [] then []
    else
      var m := menus[|menus|-1];
      RowsOf(printers, menus[..|menus|-1]) + MenuRowsOf(printers, m.name, m.categories)
  }

  lemma {:induction false} PrinterNameIsTidy(printers: seq<Printer>, id: Id)
    requires GoodPrinters(printers) && HasPrinter(printers, id)
    ensures Tidy(PrinterName(printers, id))
  {
    hide Norm, Trim;
    var init, last := printers[..|printers|-1], printers[|printers|-1];
    assert last in printers;
    if last.id != id { PrinterNameIsTidy(init, id); }
  }

  lemma ReadsBack(printers: seq<Printer>, m: string, c: Category, it: Item)
    requires GoodPrinters(printers) && Tidy(m) && TidyCategory(c) && PrintersKnown(printers, c) && it in c.items
    ensures Read(RecordOf(printers, m, c, it)) == Some(RowFor(printers, m, c, it))
  {
    hide Norm, Trim, PrinterName;
    var p := Effective(c.defaultPrinter, it);
    if p.Some? { PrinterNameIsTidy(printers, p.value); }
    TrimOfNothing();
  }

  lemma TrimOfNothing()
    ensures Trim("") == ""
  {
  }

  lemma {:induction false} ReadAllAppend(a: seq<Record>, b: seq<Record>)
    requires ReadAll(a).Some? && ReadAll(b).Some?
    ensures ReadAll(a + b) == Some(ReadAll(a).value + ReadAll(b).value)
    decreases |b|
  {
    hide Read;
    if b == [] {
      assert a + b == a;
      assert ReadAll(a).value + [] == ReadAll(a).value;
    } else {
      assert (a + b)[..|a + b|-1] == a + b[..|b|-1];
      ReadAllAppend(a, b[..|b|-1]);
      var before, r := ReadAll(b[..|b|-1]).value, Read(b[|b|-1]).value;
      assert ReadAll(a).value + (before + [r]) == ReadAll(a).value + before + [r];
    }
  }

  lemma {:induction false} ItemsReadBack(printers: seq<Printer>, m: string, c: Category, items: seq<Item>)
    requires GoodPrinters(printers) && Tidy(m) && TidyCategory(c) && PrintersKnown(printers, c)
    requires forall it <- items :: it in c.items
    ensures ReadAll(ItemRecords(printers, m, c, items)) == Some(CategoryRowsOf(printers, m, c, items))
    decreases |items|
  {
    hide Read, RowFor, RecordOf, GoodPrinters, TidyCategory, PrintersKnown, Tidy;
    if items != [] {
      var init, last := items[..|items|-1], items[|items|-1];
      ItemsReadBack(printers, m, c, init);
      assert last in items;
      ReadsBack(printers, m, c, last);
      var records := ItemRecords(printers, m, c, items);
      assert records[..|records|-1] == ItemRecords(printers, m, c, init);
      assert CategoryRowsOf(printers, m, c, items) == CategoryRowsOf(printers, m, c, init) + [RowFor(printers, m, c, last)];
    }
  }

  lemma {:induction false} CategoriesReadBack(printers: seq<Printer>, m: string, cats: seq<Category>)
    requires GoodPrinters(printers) && Tidy(m) && forall c <- cats :: TidyCategory(c) && PrintersKnown(printers, c)
    ensures ReadAll(CategoryRecords(printers, m, cats)) == Some(MenuRowsOf(printers, m, cats))
    decreases |cats|
  {
    hide ReadAll, GoodPrinters, TidyCategory, PrintersKnown, Tidy, ItemRecords, CategoryRowsOf;
    if cats == [] {
      ReadsNothing();
    } else {
      var init, last := cats[..|cats|-1], cats[|cats|-1];
      assert last in cats;
      CategoriesReadBack(printers, m, init);
      ItemsReadBack(printers, m, last, last.items);
      ReadAllAppend(CategoryRecords(printers, m, init), ItemRecords(printers, m, last, last.items));
    }
  }

  lemma ReadsNothing()
    ensures ReadAll([]) == Some([])
  {
  }

  ghost predicate Known(printers: seq<Printer>, menus: seq<Menu>) {
    forall m <- menus :: forall c <- m.categories :: PrintersKnown(printers, c)
  }

  /** A tidy menu's export reads back as a row for every item. */
  lemma {:induction false} ExportReadsBack(printers: seq<Printer>, menus: seq<Menu>)
    requires GoodPrinters(printers) && (forall m <- menus :: TidyMenu(m)) && Known(printers, menus)
    ensures ReadAll(Exported(printers, menus)) == Some(RowsOf(printers, menus))
    decreases |menus|
  {
    hide ReadAll, GoodPrinters, TidyCategory, PrintersKnown, Tidy, CategoryRecords, MenuRowsOf;
    if menus == [] {
      ReadsNothing();
    } else {
      var init, last := menus[..|menus|-1], menus[|menus|-1];
      assert last in menus;
      ExportReadsBack(printers, init);
      CategoriesReadBack(printers, last.name, last.categories);
      ReadAllAppend(Exported(printers, init), CategoryRecords(printers, last.name, last.categories));
    }
  }

  // --- printers come back -----------------------------------------------------------------------------

  /** A printer's name leads back to it. */
  lemma {:induction false} PrinterComesBack(printers: seq<Printer>, id: Id)
    requires GoodPrinters(printers) && HasPrinter(printers, id)
    ensures Norm(PrinterName(printers, id)) in PrinterIds(printers)
    ensures PrinterIds(printers)[Norm(PrinterName(printers, id))] == id
    decreases |printers|
  {
    hide Norm, Tidy;
    var init, last := printers[..|printers|-1], printers[|printers|-1];
    if last.id != id {
      PrinterComesBack(init, id);
      NameIsSomePrinters(init, id);
    }
  }

  lemma {:induction false} NameIsSomePrinters(printers: seq<Printer>, id: Id)
    requires HasPrinter(printers, id)
    ensures exists p <- printers :: p.name == PrinterName(printers, id)
    decreases |printers|
  {
    var init, last := printers[..|printers|-1], printers[|printers|-1];
    assert last in printers;
    if last.id != id { NameIsSomePrinters(init, id); }
  }

  lemma RowNamesItsPrinter(printers: seq<Printer>, m: string, c: Category, it: Item)
    requires GoodPrinters(printers) && PrintersKnown(printers, c) && it in c.items
    ensures var r, p, ids := RowFor(printers, m, c, it), Effective(c.defaultPrinter, it), PrinterIds(printers);
            && (Names(r) <==> p.Some?)
            && (p.Some? ==> Norm(r.printer) in ids && PrinterOf(ids, r) == p.value)
  {
    hide Norm, PrinterIds, PrinterName;
    var p := Effective(c.defaultPrinter, it);
    if p.Some? {
      PrinterComesBack(printers, p.value);
      PrinterNameIsTidy(printers, p.value);
    }
  }

  // --- one category back ------------------------------------------------------------------------------

  /** The category an import makes of a category's rows. */
  function Back(printers: seq<Printer>, m: string, c: Category): Category {
    RowsOn(PrinterIds(printers), Category(c.name, None, []), CategoryRowsOf(printers, m, c, c.items))
  }

  lemma RowKeys(printers: seq<Printer>, m: string, c: Category, ids: Ids, default: Option<Id>)
    requires DistinctKeys(c.items, ItemKey)
    ensures DistinctRows(ItemKeeping(ids, default), CategoryRowsOf(printers, m, c, c.items))
  {
    hide Norm, PrinterName;
    var p, rows := ItemKeeping(ids, default), CategoryRowsOf(printers, m, c, c.items);
    forall i, j | 0 <= i < j < |rows| ensures p.rowKey(rows[i]) != p.rowKey(rows[j]) {
      assert ItemKey(c.items[i]) != ItemKey(c.items[j]);
    }
  }

  lemma ItemsBack(printers: seq<Printer>, m: string, c: Category)
    requires DistinctKeys(c.items, ItemKey)
    ensures var back, rows := Back(printers, m, c), CategoryRowsOf(printers, m, c, c.items);
            && back.name == c.name
            && back.defaultPrinter == MostCommon(PrinterIds(printers), rows)
            && |back.items| == |c.items|
            && forall i :: 0 <= i < |c.items| ==>
                 back.items[i] == RowOn(PrinterIds(printers), back.defaultPrinter, BlankItem(rows[i]), rows[i])
  {
    hide Norm, PrinterIds, MostCommon, RowOn, RowFor;
    var ids, rows := PrinterIds(printers), CategoryRowsOf(printers, m, c, c.items);
    var default := MostCommon(ids, rows);
    RowKeys(printers, m, c, ids, default);
    ItemsAreLawful(ids, default);
    FromNothing(ItemKeeping(ids, default), rows);
  }

  /** An item comes back to its line, unless its description had blanks around it or only others of its category print. */
  lemma LineBack(printers: seq<Printer>, m: string, c: Category, i: nat)
    requires GoodPrinters(printers) && PrintersKnown(printers, c) && DistinctKeys(c.items, ItemKey) && i < |c.items|
    ensures var back := Back(printers, m, c);
            && |back.items| == |c.items|
            && (LineOf(m, back, back.items[i]) == LineOf(m, c, c.items[i])
                <==> && (Effective(c.defaultPrinter, c.items[i]).Some? || back.defaultPrinter.None?)
                     && Trim(c.items[i].description) == c.items[i].description)
  {
    hide Norm, Trim, PrinterIds, MostCommon, Back, PrinterOf, PrinterName, GoodPrinters, PrintersKnown, DistinctKeys;
    ItemsBack(printers, m, c);
    assert c.items[i] in c.items;
    RowNamesItsPrinter(printers, m, c, c.items[i]);
  }

  lemma DefaultBack(printers: seq<Printer>, m: string, c: Category)
    requires GoodPrinters(printers) && PrintersKnown(printers, c) && DistinctKeys(c.items, ItemKey)
    ensures Back(printers, m, c).defaultPrinter.None? <==> forall it <- c.items :: Effective(c.defaultPrinter, it).None?
  {
    hide Norm, PrinterIds, MostCommon, Back, GoodPrinters, PrintersKnown, DistinctKeys, RowFor;
    ItemsBack(printers, m, c);
    var ids, rows := PrinterIds(printers), CategoryRowsOf(printers, m, c, c.items);
    MostCommonIsMost(ids, rows);
    forall i | 0 <= i < |rows| ensures Names(rows[i]) <==> Effective(c.defaultPrinter, c.items[i]).Some? {
      RowNamesItsPrinter(printers, m, c, c.items[i]);
    }
    assert forall i :: 0 <= i < |rows| ==> rows[i] in rows && c.items[i] in c.items;
  }

  lemma CategoryBack(printers: seq<Printer>, m: string, c: Category)
    requires GoodPrinters(printers) && PrintersKnown(printers, c) && DistinctKeys(c.items, ItemKey)
    ensures |Back(printers, m, c).items| == |c.items|
    ensures CategoryLines(m, Back(printers, m, c)) == CategoryLines(m, c) <==> Survives(c)
  {
    hide Norm, Trim, Back, GoodPrinters, PrintersKnown, DistinctKeys, LineOf, Effective;
    var back := Back(printers, m, c);
    ItemsBack(printers, m, c);
    DefaultBack(printers, m, c);
    forall i | 0 <= i < |c.items|
      ensures LineOf(m, back, back.items[i]) == LineOf(m, c, c.items[i])
         <==> && (Effective(c.defaultPrinter, c.items[i]).Some? || back.defaultPrinter.None?)
              && Trim(c.items[i].description) == c.items[i].description
    {
      LineBack(printers, m, c, i);
    }
    SameLines(m, back, c);
  }

  lemma SameLines(m: string, a: Category, b: Category)
    requires |a.items| == |b.items|
    ensures CategoryLines(m, a) == CategoryLines(m, b)
       <==> forall i :: 0 <= i < |b.items| ==> LineOf(m, a, a.items[i]) == LineOf(m, b, b.items[i])
  {
    hide LineOf;
    var x, y := CategoryLines(m, a), CategoryLines(m, b);
    if x == y {
      forall i | 0 <= i < |b.items| ensures LineOf(m, a, a.items[i]) == LineOf(m, b, b.items[i]) { assert x[i] == y[i]; }
    }
  }

  // --- every category back ----------------------------------------------------------------------------

  function CategoryGroups(printers: seq<Printer>, m: string, cats: seq<Category>): seq<CatRows>
    decreases |cats|
  {
    if cats == [] then []
    else
      var c := cats[|cats|-1];
      CategoryGroups(printers, m, cats[..|cats|-1])
      + if c.items == [] then [] else [CatRows(c.name, CategoryRowsOf(printers, m, c, c.items))]
  }

  function CategoriesBack(printers: seq<Printer>, m: string, cats: seq<Category>): seq<Category>
    decreases |cats|
  {
    if cats == [] then []
    else
      var c := cats[|cats|-1];
      CategoriesBack(printers, m, cats[..|cats|-1]) + if c.items == [] then [] else [Back(printers, m, c)]
  }

  lemma {:induction false} GroupNames(printers: seq<Printer>, m: string, cats: seq<Category>, k: string)
    requires forall c <- cats :: CategoryKey(c) != k
    ensures forall g <- CategoryGroups(printers, m, cats) :: CatRowsKey(g) != k
    ensures forall c <- CategoriesBack(printers, m, cats) :: CategoryKey(c) != k
    decreases |cats|
  {
    hide Norm, CategoryRowsOf, PrinterIds, UpsertAll, DefaultFor;
    if cats != [] {
      assert cats[|cats|-1] in cats;
      GroupNames(printers, m, cats[..|cats|-1], k);
    }
  }

  lemma LastIsNew<T>(xs: seq<T>, key: T -> string)
    requires DistinctKeys(xs, key) && xs != []
    ensures DistinctKeys(xs[..|xs|-1], key) && forall x <- xs[..|xs|-1] :: key(x) != key(xs[|xs|-1])
  {
  }

  lemma {:induction false} RowsStayTogether(g: CatRows, rows: seq<Row>)
    requires forall r <- rows :: RowCategory(r) == CatRowsKey(g)
    ensures After(ROWS_BY_CATEGORY, g, rows) == CatRows(g.name, g.rows + rows)
    decreases |rows|
  {
    hide Norm;
    if rows == [] {
      assert g.rows + rows == g.rows;
    } else {
      assert rows[|rows|-1] in rows;
      RowsStayTogether(g, rows[..|rows|-1]);
      assert g.rows + rows == g.rows + rows[..|rows|-1] + [rows[|rows|-1]];
    }
  }

  /** A menu's exported rows group into its categories. */
  lemma {:induction false} RowsGroupByCategory(printers: seq<Printer>, m: string, cats: seq<Category>)
    requires DistinctKeys(cats, CategoryKey)
    ensures UpsertAll(ROWS_BY_CATEGORY, [], MenuRowsOf(printers, m, cats)) == CategoryGroups(printers, m, cats)
    decreases |cats|
  {
    hide Norm, UpsertAll, After, RowFor;
    if cats == [] {
      NothingUpserted(ROWS_BY_CATEGORY, []);
    } else {
      var init, c := cats[..|cats|-1], cats[|cats|-1];
      var rows, p := CategoryRowsOf(printers, m, c, c.items), ROWS_BY_CATEGORY;
      LastIsNew(cats, CategoryKey);
      RowsGroupByCategory(printers, m, init);
      GroupNames(printers, m, init, CategoryKey(c));
      UpsertAllAppend(p, [], MenuRowsOf(printers, m, init), rows);
      NothingUpserted(p, CategoryGroups(printers, m, init));
      if rows != [] {
        GroupsAreLawful();
        RowsNameTheirCategory(printers, m, c);
        RunOfOneName(p, CategoryGroups(printers, m, init), rows, CategoryKey(c));
        RowsStayTogether(NoRows(rows[0]), rows);
        assert [] + rows == rows;
      }
    }
  }

  lemma NothingUpserted<T, R>(p: Keeping<T, R>, xs: seq<T>)
    ensures UpsertAll(p, xs, []) == xs
  {
  }

  lemma RowsNameTheirCategory(printers: seq<Printer>, m: string, c: Category)
    ensures forall r <- CategoryRowsOf(printers, m, c, c.items) ::
              r.category == c.name && r.menu == m && RowCategory(r) == CategoryKey(c)
  {
    hide Norm;
  }

  lemma {:induction false} RowsNameTheirMenu(printers: seq<Printer>, m: string, cats: seq<Category>)
    ensures forall r <- MenuRowsOf(printers, m, cats) :: r.menu == m
    decreases |cats|
  {
    hide CategoryRowsOf;
    if cats != [] {
      RowsNameTheirMenu(printers, m, cats[..|cats|-1]);
      RowsNameTheirCategory(printers, m, cats[|cats|-1]);
    }
  }

  /** Imported into nothing, those groups make the categories again. */
  lemma {:induction false} CategoriesComeBack(printers: seq<Printer>, m: string, cats: seq<Category>)
    requires DistinctKeys(cats, CategoryKey)
    ensures UpsertAll(CategoryKeeping(PrinterIds(printers)), [], CategoryGroups(printers, m, cats))
         == CategoriesBack(printers, m, cats)
    decreases |cats|
  {
    hide Norm, RowsOn, CategoryRowsOf, PrinterIds;
    if cats != [] {
      var init, c := cats[..|cats|-1], cats[|cats|-1];
      LastIsNew(cats, CategoryKey);
      CategoriesComeBack(printers, m, init);
      GroupNames(printers, m, init, CategoryKey(c));
      var groups := CategoryGroups(printers, m, cats);
      if c.items != [] {
        assert groups[..|groups|-1] == CategoryGroups(printers, m, init);
      } else {
        assert groups == CategoryGroups(printers, m, init);
      }
    }
  }

  lemma {:induction false} MenuLinesBack(printers: seq<Printer>, m: string, cats: seq<Category>)
    requires GoodPrinters(printers) && forall c <- cats :: PrintersKnown(printers, c) && DistinctKeys(c.items, ItemKey)
    ensures |MenuLines(m, CategoriesBack(printers, m, cats))| == |MenuLines(m, cats)|
    ensures MenuLines(m, CategoriesBack(printers, m, cats)) == MenuLines(m, cats) <==> forall c <- cats :: Survives(c)
    decreases |cats|
  {
    hide Back, GoodPrinters, PrintersKnown, DistinctKeys, Survives, LineOf;
    if cats != [] {
      var init, c := cats[..|cats|-1], cats[|cats|-1];
      assert c in cats && cats == init + [c];
      MenuLinesBack(printers, m, init);
      CategoryBack(printers, m, c);
      var before, back := CategoriesBack(printers, m, init), CategoriesBack(printers, m, cats);
      if c.items == [] {
        NothingToPrint(c);
        assert back == before && MenuLines(m, cats) == MenuLines(m, init);
      } else {
        assert back[..|back|-1] == before;
        Blockwise(MenuLines(m, before), MenuLines(m, init), CategoryLines(m, Back(printers, m, c)), CategoryLines(m, c));
      }
    }
  }

  lemma NothingToPrint(c: Category)
    requires c.items == []
    ensures Survives(c)
  {
  }

  lemma Blockwise<T>(a: seq<T>, b: seq<T>, x: seq<T>, y: seq<T>)
    requires |a| == |b|
    ensures a + x == b + y <==> a == b && x == y
  {
    if a + x == b + y {
      assert a == (a + x)[..|a|] && b == (b + y)[..|b|];
      assert x == (a + x)[|a|..] && y == (b + y)[|b|..];
    }
  }

  // --- every menu back --------------------------------------------------------------------------------

  function MenuGroups(printers: seq<Printer>, menus: seq<Menu>): seq<MenuRows>
    decreases |menus|
  {
    if menus == [] then []
    else
      var m := menus[|menus|-1];
      MenuGroups(printers, menus[..|menus|-1])
      + if MenuRowsOf(printers, m.name, m.categories) == [] then []
        else [MenuRows(m.name, CategoryGroups(printers, m.name, m.categories))]
  }

  function MenusBack(printers: seq<Printer>, menus: seq<Menu>): seq<Menu>
    decreases |menus|
  {
    if menus == [] then []
    else
      var m := menus[|menus|-1];
      MenusBack(printers, menus[..|menus|-1])
      + if MenuRowsOf(printers, m.name, m.categories) == [] then []
        else [Menu(m.name, CategoriesBack(printers, m.name, m.categories))]
  }

  lemma {:induction false} RowsFileTogether(g: MenuRows, rows: seq<Row>)
    requires forall r <- rows :: RowMenu(r) == MenuRowsKey(g)
    ensures After(ROWS_BY_MENU, g, rows) == MenuRows(g.name, UpsertAll(ROWS_BY_CATEGORY, g.cats, rows))
    decreases |rows|
  {
    hide Norm, Upsert;
    if rows != [] {
      assert rows[|rows|-1] in rows;
      RowsFileTogether(g, rows[..|rows|-1]);
    }
  }

  lemma {:induction false} MenuNames(printers: seq<Printer>, menus: seq<Menu>, k: string)
    requires forall m <- menus :: MenuKey(m) != k
    ensures forall g <- MenuGroups(printers, menus) :: MenuRowsKey(g) != k
    ensures forall m <- MenusBack(printers, menus) :: MenuKey(m) != k
    decreases |menus|
  {
    hide Norm, MenuRowsOf, CategoryGroups, CategoriesBack;
    if menus != [] {
      assert menus[|menus|-1] in menus;
      MenuNames(printers, menus[..|menus|-1], k);
    }
  }

  /** An export's rows group into its menus and categories again. */
  lemma {:induction false} RowsGroupByMenu(printers: seq<Printer>, menus: seq<Menu>)
    requires DistinctKeys(menus, MenuKey) && forall m <- menus :: DistinctKeys(m.categories, CategoryKey)
    ensures Grouped(RowsOf(printers, menus)) == MenuGroups(printers, menus)
    decreases |menus|
  {
    hide Norm, UpsertAll, After, MenuRowsOf, CategoryGroups;
    if menus == [] {
      NothingUpserted(ROWS_BY_MENU, []);
    } else {
      var init, m := menus[..|menus|-1], menus[|menus|-1];
      var rows, p := MenuRowsOf(printers, m.name, m.categories), ROWS_BY_MENU;
      assert m in menus;
      LastIsNew(menus, MenuKey);
      RowsGroupByMenu(printers, init);
      MenuNames(printers, init, MenuKey(m));
      UpsertAllAppend(p, [], RowsOf(printers, init), rows);
      NothingUpserted(p, MenuGroups(printers, init));
      if rows != [] {
        GroupsAreLawful();
        RowsNameTheirMenu(printers, m.name, m.categories);
        RunOfOneName(p, MenuGroups(printers, init), rows, MenuKey(m));
        RowsFileTogether(NoCats(rows[0]), rows);
        RowsGroupByCategory(printers, m.name, m.categories);
      }
    }
  }

  lemma NewMenuIsLast(ids: Ids, menus: seq<Menu>, g: MenuRows)
    requires forall m <- menus :: MenuKey(m) != MenuRowsKey(g)
    ensures Upsert(MenuKeeping(ids), menus, g)
         == menus + [Menu(g.name, UpsertAll(CategoryKeeping(ids), [], g.cats))]
  {
    hide Norm, UpsertAll;
  }

  lemma {:induction false} MenusComeBack(printers: seq<Printer>, menus: seq<Menu>)
    requires DistinctKeys(menus, MenuKey) && forall m <- menus :: DistinctKeys(m.categories, CategoryKey)
    ensures UpsertAll(MenuKeeping(PrinterIds(printers)), [], MenuGroups(printers, menus)) == MenusBack(printers, menus)
    decreases |menus|
  {
    hide Norm, CategoryKeeping, CategoryGroups, CategoriesBack, PrinterIds, MenuRowsOf, MenuKeeping, Upsert;
    if menus != [] {
      var init, m := menus[..|menus|-1], menus[|menus|-1];
      assert m in menus;
      LastIsNew(menus, MenuKey);
      MenusComeBack(printers, init);
      MenuNames(printers, init, MenuKey(m));
      CategoriesComeBack(printers, m.name, m.categories);
      var groups := MenuGroups(printers, menus);
      if MenuRowsOf(printers, m.name, m.categories) != [] {
        NewMenuIsLast(PrinterIds(printers), MenusBack(printers, init),
                      MenuRows(m.name, CategoryGroups(printers, m.name, m.categories)));
        assert groups[..|groups|-1] == MenuGroups(printers, init);
      } else {
        assert groups == MenuGroups(printers, init);
      }
    }
  }

  lemma {:induction false} AsManyLinesAsRows(printers: seq<Printer>, m: string, cats: seq<Category>)
    ensures |MenuRowsOf(printers, m, cats)| == |MenuLines(m, cats)|
    decreases |cats|
  {
    if cats != [] { AsManyLinesAsRows(printers, m, cats[..|cats|-1]); }
  }

  lemma MenuBack(printers: seq<Printer>, m: Menu)
    requires GoodPrinters(printers) && TidyMenu(m) && forall c <- m.categories :: PrintersKnown(printers, c)
    ensures var back := CategoriesBack(printers, m.name, m.categories);
            && |MenuLines(m.name, back)| == |MenuLines(m.name, m.categories)|
            && (MenuLines(m.name, back) == MenuLines(m.name, m.categories) <==> AllSurvive(m))
  {
    hide GoodPrinters, PrintersKnown, Survives, Tidy, CategoriesBack, MenuLines;
    forall c <- m.categories ensures DistinctKeys(c.items, ItemKey) {
      assert TidyCategory(c);
    }
    MenuLinesBack(printers, m.name, m.categories);
  }

  ghost predicate AllSurvive(m: Menu) {
    forall c <- m.categories :: Survives(c)
  }

  lemma {:induction false} TableBack(printers: seq<Printer>, menus: seq<Menu>)
    requires GoodPrinters(printers) && Known(printers, menus) && forall m <- menus :: TidyMenu(m)
    ensures |Table(MenusBack(printers, menus))| == |Table(menus)|
    ensures Table(MenusBack(printers, menus)) == Table(menus) <==> forall m <- menus :: AllSurvive(m)
    decreases |menus|
  {
    hide GoodPrinters, PrintersKnown, TidyMenu, AllSurvive, CategoriesBack, MenuRowsOf, MenuLines;
    if menus != [] {
      var init, m := menus[..|menus|-1], menus[|menus|-1];
      assert m in menus && menus == init + [m];
      TableBack(printers, init);
      AsManyLinesAsRows(printers, m.name, m.categories);
      MenuBack(printers, m);
      var before, back := MenusBack(printers, init), MenusBack(printers, menus);
      if MenuRowsOf(printers, m.name, m.categories) == [] {
        assert MenuLines(m.name, m.categories) == [];
        assert back == before && Table(menus) == Table(init);
      } else {
        assert back[..|back|-1] == before;
        Blockwise(Table(before), Table(init), MenuLines(m.name, CategoriesBack(printers, m.name, m.categories)),
                  MenuLines(m.name, m.categories));
      }
    }
  }

  // --- the round trip ---------------------------------------------------------------------------------

  lemma {:induction false} NoUnknownPrinter(ids: Ids, rows: seq<Row>)
    requires forall r <- rows :: Names(r) ==> Norm(r.printer) in ids
    ensures Unknown(ids, rows) == []
    decreases |rows|
  {
    hide Norm;
    if rows != [] {
      assert rows[|rows|-1] in rows;
      NoUnknownPrinter(ids, rows[..|rows|-1]);
    }
  }

  lemma {:induction false} MenuRowsAreKnown(printers: seq<Printer>, m: string, cats: seq<Category>)
    requires GoodPrinters(printers) && forall c <- cats :: PrintersKnown(printers, c)
    ensures forall r <- MenuRowsOf(printers, m, cats) :: Names(r) ==> Norm(r.printer) in PrinterIds(printers)
    decreases |cats|
  {
    hide Norm, GoodPrinters, PrintersKnown, PrinterIds, RowFor;
    if cats != [] {
      var init, c := cats[..|cats|-1], cats[|cats|-1];
      assert c in cats;
      MenuRowsAreKnown(printers, m, init);
      forall r <- CategoryRowsOf(printers, m, c, c.items) ensures Names(r) ==> Norm(r.printer) in PrinterIds(printers) {
        var i :| 0 <= i < |c.items| && r == RowFor(printers, m, c, c.items[i]);
        assert c.items[i] in c.items;
        RowNamesItsPrinter(printers, m, c, c.items[i]);
      }
    }
  }

  lemma {:induction false} RowsAreKnown(printers: seq<Printer>, menus: seq<Menu>)
    requires GoodPrinters(printers) && Known(printers, menus)
    ensures forall r <- RowsOf(printers, menus) :: Names(r) ==> Norm(r.printer) in PrinterIds(printers)
    decreases |menus|
  {
    hide Norm, GoodPrinters, PrintersKnown, PrinterIds, MenuRowsOf;
    if menus != [] {
      var m := menus[|menus|-1];
      assert m in menus;
      RowsAreKnown(printers, menus[..|menus|-1]);
      MenuRowsAreKnown(printers, m.name, m.categories);
    }
  }

  /**
   * The export of a tidy menu reads back, is never refused, and imported with replace restores every line of the menu
   * exactly when in each category every item has an effective printer or none has, and every description is trimmed.
   */
  lemma ExportThenImportRestoresTheMenu(printers: seq<Printer>, menus: seq<Menu>)
    requires GoodPrinters(printers) && TidyMenus(menus) && Known(printers, menus)
    ensures ReadAll(Exported(printers, menus)).Some?
    ensures var rows := ReadAll(Exported(printers, menus)).value;
            && Reported(printers, menus, rows, true).Done?
            && (Table(Imported(printers, [], rows)) == Table(menus)
                <==> forall m <- menus :: AllSurvive(m))
  {
    hide Norm, GoodPrinters, Known, TidyCategory, Tidy, DistinctKeys, Survives, ReadAll, Exported, Grouped, PrinterIds,
         UpsertAll, Table, Unknown;
    ExportReadsBack(printers, menus);
    RowsAreKnown(printers, menus);
    NoUnknownPrinter(PrinterIds(printers), RowsOf(printers, menus));
    RowsGroupByMenu(printers, menus);
    MenusComeBack(printers, menus);
    TableBack(printers, menus);
  }

  // --- menus that do not come back ----------------------------------------------------------------------

  const PRINTER := Printer(7, "P")

  /** A prints on a printer of its own, B nowhere. */
  const MIXED := Category("C", None, [Item("A", 500, "", Some(7)), Item("B", 300, "", None)])

  /** One item with a blank for a description. */
  const PADDED := Category("C", None, [Item("A", 500, " ", None)])

  lemma OneCategory(c: Category)
    requires c == MIXED || c == PADDED
    ensures GoodPrinters([PRINTER]) && TidyMenus([Menu("M", [c])]) && Known([PRINTER], [Menu("M", [c])])
    ensures DistinctKeys(c.items, ItemKey) && PrintersKnown([PRINTER], c)
  {
    hide Norm, Trim;
    OneLetter('A');
    OneLetter('B');
    OneLetter('C');
    OneLetter('M');
    OneLetter('P');
    assert HasPrinter([PRINTER], 7) by { assert PRINTER in [PRINTER]; }
    assert TidyCategory(c);
    assert TidyMenu(Menu("M", [c]));
  }

  /** What an import with replace makes of a one-category menu's export. */
  lemma OneCategoryBack(c: Category)
    requires c == MIXED || c == PADDED
    ensures var menus := [Menu("M", [c])];
            && ReadAll(Exported([PRINTER], menus)).Some?
            && Imported([PRINTER], [], ReadAll(Exported([PRINTER], menus)).value)
               == [Menu("M", [Back([PRINTER], "M", c)])]
  {
    hide Norm, GoodPrinters, TidyCategory, Tidy, DistinctKeys, Known, Back, ReadAll, Exported, Grouped, PrinterIds, UpsertAll;
    var menus := [Menu("M", [c])];
    OneCategory(c);
    ExportReadsBack([PRINTER], menus);
    RowsGroupByMenu([PRINTER], menus);
    MenusComeBack([PRINTER], menus);
    assert menus[..0] == [] && [c][..0] == [];
    assert CategoriesBack([PRINTER], "M", [c]) == [Back([PRINTER], "M", c)];
    assert |CategoryRowsOf([PRINTER], "M", c, c.items)| > 0;
    assert MenuRowsOf([PRINTER], "M", [c]) == [] + CategoryRowsOf([PRINTER], "M", c, c.items);
  }

  lemma OneBadCategory(c: Category)
    requires !Survives(c)
    ensures !forall m <- [Menu("M", [c])] :: AllSurvive(m)
  {
    hide Survives;
    assert c in [c];
    assert !AllSurvive(Menu("M", [c]));
    assert Menu("M", [c]) in [Menu("M", [c])];
  }

  /** B comes back with the category's new default: from printing nowhere to printing where A does. */
  lemma AMixedCategoryComesBackOnOnePrinter()
    ensures var menus := [Menu("M", [MIXED])];
            && TidyMenus(menus) && ReadAll(Exported([PRINTER], menus)).Some?
            && var back := Imported([PRINTER], [], ReadAll(Exported([PRINTER], menus)).value);
               && Table(back) != Table(menus)
               && |back| == 1 && |back[0].categories| == 1 && |back[0].categories[0].items| == 2
               && Effective(MIXED.defaultPrinter, MIXED.items[1]) == None
               && Effective(back[0].categories[0].defaultPrinter, back[0].categories[0].items[1]) == Some(7)
  {
    hide Norm, GoodPrinters, TidyMenus, DistinctKeys, Known, Back, ReadAll, Exported, Imported, Table, RowOn, PrinterIds,
         MostCommon;
    var menus, it := [Menu("M", [MIXED])], MIXED.items[0];
    OneCategory(MIXED);
    ExportThenImportRestoresTheMenu([PRINTER], menus);
    OneCategoryBack(MIXED);
    assert MIXED.items[1] in MIXED.items && it in MIXED.items;
    OneBadCategory(MIXED);
    TheDefaultIsTheOnlyPrinter();
  }

  lemma TheDefaultIsTheOnlyPrinter()
    ensures var back := Back([PRINTER], "M", MIXED);
            |back.items| == 2 && back.defaultPrinter == Some(7) && back.items[1].printer == None
  {
    hide Norm, Trim, PrinterIds, GoodPrinters, DistinctKeys;
    var c, ids := MIXED, PrinterIds([PRINTER]);
    OneCategory(c);
    ItemsBack([PRINTER], "M", c);
    RowNamesItsPrinter([PRINTER], "M", c, c.items[0]);
    RowNamesItsPrinter([PRINTER], "M", c, c.items[1]);
    var a, b := RowFor([PRINTER], "M", c, c.items[0]), RowFor([PRINTER], "M", c, c.items[1]);
    assert CategoryRowsOf([PRINTER], "M", c, c.items) == [a, b];
    assert [a, b][..1] == [a] && [a][..0] == [];
    assert MostCommon(ids, [a]) == Some(7);
  }

  /** A description of a blank comes back as none. */
  lemma ABlankDescriptionIsLost()
    ensures var menus := [Menu("M", [PADDED])];
            && TidyMenus(menus) && ReadAll(Exported([PRINTER], menus)).Some?
            && Table(Imported([PRINTER], [], ReadAll(Exported([PRINTER], menus)).value)) != Table(menus)
  {
    hide Norm, GoodPrinters, TidyMenus, Known, ReadAll, Exported, Imported, Table;
    var menus := [Menu("M", [PADDED])];
    OneCategory(PADDED);
    ExportThenImportRestoresTheMenu([PRINTER], menus);
    assert TrimLeft(" ") == "" by { assert " "[1..] == ""; }
    assert PADDED.items[0] in PADDED.items && Trim(PADDED.items[0].description) == "";
    OneBadCategory(PADDED);
  }
}
