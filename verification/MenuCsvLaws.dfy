/** Laws of the menu file: importing twice is importing once, and an exported menu comes back. */
module MenuCsvLaws {
  import opened Options
  import opened Sequences
  import opened Text
  import opened Upserts
  import opened MenuCsv

  // --- the most common printer -----------------------------------------------------------------

  /** The printer picked is named most; none is picked only when no row names one. */
  lemma {:induction false} MostCommonIsMost(ids: Ids, rows: seq<Row>)
    ensures MostCommon(ids, rows).None? <==> forall r <- rows :: !Names(r)
    ensures MostCommon(ids, rows).Some? ==>
              CountOf(ids, rows, MostCommon(ids, rows).value) > 0
              && forall id :: CountOf(ids, rows, id) <= CountOf(ids, rows, MostCommon(ids, rows).value)
    decreases |rows|
  {
    if rows == [] {
    } else {
      var init, r := rows[..|rows|-1], rows[|rows|-1];
      MostCommonIsMost(ids, init);
      assert rows == init + [r];
      if MostCommon(ids, init).None? { forall id ensures CountOf(ids, init, id) == 0 { NoneNamed(ids, init, id); } }
    }
  }

  lemma {:induction false} NoneNamed(ids: Ids, rows: seq<Row>, id: Id)
    requires forall r <- rows :: !Names(r)
    ensures CountOf(ids, rows, id) == 0
    decreases |rows|
  {
    if rows != [] {
      assert rows[|rows|-1] in rows;
      NoneNamed(ids, rows[..|rows|-1], id);
    }
  }

  /** When the last row names the printer picked, that printer is ahead of every other. */
  lemma AheadOfAll(ids: Ids, rows: seq<Row>, other: Id)
    requires rows != [] && Names(rows[|rows|-1]) && other != PrinterOf(ids, rows[|rows|-1])
    requires MostCommon(ids, rows) == Some(PrinterOf(ids, rows[|rows|-1]))
    ensures CountOf(ids, rows, other) < CountOf(ids, rows, PrinterOf(ids, rows[|rows|-1]))
  {
    MostCommonIsMost(ids, rows[..|rows|-1]);
    if MostCommon(ids, rows[..|rows|-1]).None? { NoneNamed(ids, rows[..|rows|-1], other); }
  }

  /** Among printers named equally often, the one that got there first is picked. */
  lemma {:induction false} TiesGoToTheFirstToGetThere(ids: Ids, rows: seq<Row>, other: Id)
    requires MostCommon(ids, rows).Some? && other != MostCommon(ids, rows).value
    ensures var best := MostCommon(ids, rows).value;
            exists n :: 0 < n <= |rows|
              && CountOf(ids, rows[..n], best) == CountOf(ids, rows, best)
              && CountOf(ids, rows[..n], other) < CountOf(ids, rows, best)
    decreases |rows|
  {
    var init, r := rows[..|rows|-1], rows[|rows|-1];
    var best := MostCommon(ids, rows).value;
    if Names(r) && best == PrinterOf(ids, r) {
      AheadOfAll(ids, rows, other);
      assert rows[..|rows|] == rows;
    } else {
      TiesGoToTheFirstToGetThere(ids, init, other);
      var n :| 0 < n <= |init| && CountOf(ids, init[..n], best) == CountOf(ids, init, best)
               && CountOf(ids, init[..n], other) < CountOf(ids, init, best);
      assert init[..n] == rows[..n];
    }
  }

  /** Named at least as often as any other, and the first to be named that often. */
  ghost predicate GetsThereFirst(ids: Ids, rows: seq<Row>, id: Id) {
    CountOf(ids, rows, id) > 0 && forall other :: other != id ==> Beats(ids, rows, id, other)
  }

  ghost predicate Beats(ids: Ids, rows: seq<Row>, id: Id, other: Id) {
    CountOf(ids, rows, other) <= CountOf(ids, rows, id) && exists n :: AheadAfter(ids, rows, id, other, n)
  }

  /** After n rows id has been named as often as in all of them, and the other less often. */
  predicate AheadAfter(ids: Ids, rows: seq<Row>, id: Id, other: Id, n: nat) {
    n <= |rows| && CountOf(ids, rows[..n], id) == CountOf(ids, rows, id)
    && CountOf(ids, rows[..n], other) < CountOf(ids, rows, id)
  }

  lemma OneRowCounts(ids: Ids, rows: seq<Row>, id: Id, n: nat)
    requires n < |rows|
    ensures CountOf(ids, rows[..n], id) <= CountOf(ids, rows[..n+1], id)
  {
    hide PrinterOf, Names;
    PrefixOfPrefix(rows, n);
  }

  lemma {:induction false} CountsGrow(ids: Ids, rows: seq<Row>, id: Id, m: nat, n: nat)
    requires m <= n <= |rows|
    ensures CountOf(ids, rows[..m], id) <= CountOf(ids, rows[..n], id)
    decreases n
  {
    hide CountOf;
    if m < n {
      CountsGrow(ids, rows, id, m, n - 1);
      OneRowCounts(ids, rows, id, n - 1);
    }
  }

  lemma OnlyOneGetsThereFirst(ids: Ids, rows: seq<Row>, a: Id, b: Id)
    requires GetsThereFirst(ids, rows, a) && GetsThereFirst(ids, rows, b)
    ensures a == b
  {
    hide CountOf;
    if a != b {
      assert Beats(ids, rows, a, b) && Beats(ids, rows, b, a);
      var m :| AheadAfter(ids, rows, a, b, m);
      var n :| AheadAfter(ids, rows, b, a, n);
      if m <= n { CountsGrow(ids, rows, a, m, n); } else { CountsGrow(ids, rows, b, n, m); }
      assert false;
    }
  }

  /** A printer is picked exactly when it gets there first: so the one named first wins a tie only then. */
  lemma WhichPrinterIsPicked(ids: Ids, rows: seq<Row>, id: Id)
    ensures MostCommon(ids, rows) == Some(id) <==> GetsThereFirst(ids, rows, id)
  {
    hide CountOf, MostCommon;
    MostCommonIsMost(ids, rows);
    if MostCommon(ids, rows).Some? {
      var best := MostCommon(ids, rows).value;
      forall other | other != best ensures Beats(ids, rows, best, other) {
        TiesGoToTheFirstToGetThere(ids, rows, other);
        var n :| 0 < n <= |rows| && CountOf(ids, rows[..n], best) == CountOf(ids, rows, best)
                 && CountOf(ids, rows[..n], other) < CountOf(ids, rows, best);
        assert AheadAfter(ids, rows, best, other, n);
      }
      assert GetsThereFirst(ids, rows, best);
      if GetsThereFirst(ids, rows, id) { OnlyOneGetsThereFirst(ids, rows, id, best); }
    } else {
      NoneNamed(ids, rows, id);
    }
  }

  /** First named is not first to get there: of A, B, B, A the printer B is picked. */
  lemma FirstNamedNeedNotWinATie(ids: Ids, a: Row, b: Row)
    requires Names(a) && Names(b) && PrinterOf(ids, a) != PrinterOf(ids, b)
    ensures MostCommon(ids, [a, b, b, a]) == Some(PrinterOf(ids, b))
    ensures CountOf(ids, [a, b, b, a], PrinterOf(ids, a)) == CountOf(ids, [a, b, b, a], PrinterOf(ids, b))
  {
    var x, y := PrinterOf(ids, a), PrinterOf(ids, b);
    assert [a, b, b, a][..3] == [a, b, b] && [a, b, b][..2] == [a, b] && [a, b][..1] == [a] && [a][..0] == [];
    assert CountOf(ids, [a], x) == 1 && CountOf(ids, [a], y) == 0 && MostCommon(ids, [a]) == Some(x);
    assert CountOf(ids, [a, b], x) == 1 && CountOf(ids, [a, b], y) == 1 && MostCommon(ids, [a, b]) == Some(x);
    assert CountOf(ids, [a, b, b], x) == 1 && CountOf(ids, [a, b, b], y) == 2;
    assert MostCommon(ids, [a, b, b]) == Some(y);
  }

  // --- importing twice ----------------------------------------------------------------------------

  lemma ItemsAreLawful(ids: Ids, default: Option<Id>)
    ensures Lawful(ItemKeeping(ids, default))
  {
    hide Norm;
  }

  lemma CategoriesAreLawful(ids: Ids)
    ensures Lawful(CategoryKeeping(ids))
  {
    hide Norm;
  }

  lemma MenusAreLawful(ids: Ids)
    ensures Lawful(MenuKeeping(ids))
  {
    hide Norm;
  }

  lemma GroupsAreLawful()
    ensures Lawful(ROWS_BY_CATEGORY) && Lawful(ROWS_BY_MENU)
  {
    hide Norm;
  }

  /** Of two items of one name, the same rows set the same fields to the same values, and leave the same ones alone. */
  lemma {:induction false} SameRowsSetTheSame(ids: Ids, default: Option<Id>, x: Item, y: Item, rows: seq<Row>)
    requires ItemKey(x) == ItemKey(y)
    ensures var p := ItemKeeping(ids, default); var a, b := After(p, x, rows), After(p, y, rows);
            && a.name == x.name && b.name == y.name
            && (a.priceCents == b.priceCents || (a.priceCents == x.priceCents && b.priceCents == y.priceCents))
            && (a.description == b.description || (a.description == x.description && b.description == y.description))
            && (a.printer == b.printer || (a.printer == x.printer && b.printer == y.printer))
    decreases |rows|
  {
    hide Norm, Target;
    if rows != [] { SameRowsSetTheSame(ids, default, x, y, rows[..|rows|-1]); }
  }

  lemma ItemsSettle(ids: Ids, default: Option<Id>, x: Item, rows: seq<Row>)
    ensures var p := ItemKeeping(ids, default); After(p, After(p, x, rows), rows) == After(p, x, rows)
  {
    var p := ItemKeeping(ids, default);
    ItemsAreLawful(ids, default);
    AfterKeepsTheKey(p, x, rows);
    SameRowsSetTheSame(ids, default, x, After(p, x, rows), rows);
  }

  lemma CategoriesSettle(ids: Ids, c: Category, rows: seq<Row>)
    ensures RowsOn(ids, RowsOn(ids, c, rows), rows) == RowsOn(ids, c, rows)
  {
    hide UpsertAll, MostCommon;
    var default := DefaultFor(ids, c.defaultPrinter, rows);
    var p := ItemKeeping(ids, default);
    ItemsAreLawful(ids, default);
    forall x ensures After(p, After(p, x, rows), rows) == After(p, x, rows) { ItemsSettle(ids, default, x, rows); }
    AgainChangesNothing(p, c.items, rows);
  }

  /** Over groups of distinct names, elements settle when each group's update does. */
  lemma GroupsSettle<T(!new), R(!new)>(p: Keeping<T, R>, xs: seq<T>, groups: seq<R>)
    requires Lawful(p) && DistinctRows(p, groups)
    requires forall x, g :: p.update(p.update(x, g), g) == p.update(x, g)
    ensures UpsertAll(p, UpsertAll(p, xs, groups), groups) == UpsertAll(p, xs, groups)
  {
    hide UpsertAll;
    forall x ensures After(p, After(p, x, groups), groups) == After(p, x, groups) {
      AfterKeepsTheKey(p, x, groups);
      OneRowEach(p, x, groups);
      OneRowEach(p, After(p, x, groups), groups);
    }
    AgainChangesNothing(p, xs, groups);
  }

  lemma MenuSettles(ids: Ids, m: Menu, g: MenuRows)
    requires DistinctRows(CategoryKeeping(ids), g.cats)
    ensures CategoriesOn(ids, CategoriesOn(ids, m, g.cats), g.cats) == CategoriesOn(ids, m, g.cats)
  {
    hide UpsertAll, RowsOn;
    var p := CategoryKeeping(ids);
    CategoriesAreLawful(ids);
    forall c, cr ensures p.update(p.update(c, cr), cr) == p.update(c, cr) { CategoriesSettle(ids, c, cr.rows); }
    GroupsSettle(p, m.categories, g.cats);
  }

  // --- groups have names of their own ---------------------------------------------------------------

  ghost predicate DistinctKeys<T>(xs: seq<T>, key: T -> string) {
    forall i, j :: 0 <= i < j < |xs| ==> key(xs[i]) != key(xs[j])
  }

  lemma UpsertKeepsKeysDistinct<T(!new), R(!new)>(p: Keeping<T, R>, xs: seq<T>, r: R)
    requires Lawful(p) && DistinctKeys(xs, p.key)
    ensures DistinctKeys(Upsert(p, xs, r), p.key)
  {
  }

  ghost predicate WellGrouped(groups: seq<MenuRows>) {
    DistinctKeys(groups, MenuRowsKey) && forall i :: 0 <= i < |groups| ==> DistinctKeys(groups[i].cats, CatRowsKey)
  }

  lemma {:induction false} GroupedIsWellGrouped(rows: seq<Row>)
    ensures WellGrouped(Grouped(rows))
    decreases |rows|
  {
    hide Norm;
    if rows != [] {
      var init, last := rows[..|rows|-1], rows[|rows|-1];
      GroupedIsWellGrouped(init);
      OneRowGrouped(Grouped(init), last);
    }
  }

  lemma OneRowGrouped(groups: seq<MenuRows>, r: Row)
    requires WellGrouped(groups)
    ensures WellGrouped(Upsert(ROWS_BY_MENU, groups, r))
  {
    hide Norm, DistinctKeys;
    GroupsAreLawful();
    UpsertKeepsKeysDistinct(ROWS_BY_MENU, groups, r);
    match Find(groups, MenuRowsKey, RowMenu(r))
    case None =>
      assert DistinctKeys<CatRows>([], CatRowsKey) by { NoKeys(); }
      UpsertKeepsKeysDistinct(ROWS_BY_CATEGORY, [], r);
    case Some(i) =>
      UpsertKeepsKeysDistinct(ROWS_BY_CATEGORY, groups[i].cats, r);
  }

  lemma NoKeys()
    ensures DistinctKeys<CatRows>([], CatRowsKey)
  {
  }

  /** Importing the same rows a second time leaves every menu, default, item, price, description and printer alone. */
  lemma ImportingTwiceIsImportingOnce(printers: seq<Printer>, menus: seq<Menu>, rows: seq<Row>)
    ensures Imported(printers, Imported(printers, menus, rows), rows) == Imported(printers, menus, rows)
  {
    hide Grouped, UpsertAll, Norm, CategoriesOn;
    var ids, groups := PrinterIds(printers), Grouped(rows);
    GroupedIsWellGrouped(rows);
    MenusAreLawful(ids);
    MenusSettle(ids, menus, groups);
  }

  /** GroupsSettle needs every group to settle; only the ones in the file have distinct categories. */
  lemma MenusSettle(ids: Ids, menus: seq<Menu>, groups: seq<MenuRows>)
    requires WellGrouped(groups)
    ensures UpsertAll(MenuKeeping(ids), UpsertAll(MenuKeeping(ids), menus, groups), groups)
         == UpsertAll(MenuKeeping(ids), menus, groups)
  {
    hide UpsertAll, Norm, CategoriesOn, After;
    var p := MenuKeeping(ids);
    MenusAreLawful(ids);
    assert DistinctRows(p, groups);
    forall x ensures After(p, After(p, x, groups), groups) == After(p, x, groups) {
      AfterKeepsTheKey(p, x, groups);
      OneRowEach(p, x, groups);
      OneRowEach(p, After(p, x, groups), groups);
      if g :| g in groups && p.rowKey(g) == p.key(x) && After(p, x, groups) == p.update(x, g) {
        assert DistinctRows(CategoryKeeping(ids), g.cats);
        MenuSettles(ids, x, g);
      }
    }
    AgainChangesNothing(p, menus, groups);
  }

  /** A record needs a category and an item; blank cells are absent ones, and a menu without a name is the main one. */
  lemma WhatARecordReadsAs(r: Record)
    ensures Read(r) == None <==> Trim(r.category) == "" || Trim(r.item) == ""
    ensures Read(r).Some? ==>
      var row := Read(r).value;
      && row.category == Trim(r.category) && row.item == Trim(r.item) && row.printer == Trim(r.printer)
      && row.menu == (if Trim(r.menu) != "" then Trim(r.menu) else "Main")
      && row.price == Some(r.priceCents)
      && (row.description == None <==> Trim(r.description) == "")
      && (row.description.Some? ==> row.description.value == Trim(r.description))
  {
    hide Trim;
  }
}
