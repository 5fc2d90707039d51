/** Importing and exporting a menu as rows: what an import makes of the menu, what it reports, and what an export lists. */
module MenuCsv {
  import opened Options
  import opened Sequences
  import opened Text
  import opened Upserts

  /** One parsed row; a blank price or description is None, a blank printer "". */
  datatype Row = Row(
    menu: string, category: string, item: string, price: Option<int>, printer: string, description: Option<string>)

  datatype Printer = Printer(id: Id, name: string)

  datatype Item = Item(name: string, priceCents: int, description: string, printer: Option<Id>)

  datatype Category = Category(name: string, defaultPrinter: Option<Id>, items: seq<Item>)

  datatype Menu = Menu(name: string, categories: seq<Category>)

  datatype CatRows = CatRows(name: string, rows: seq<Row>)

  datatype MenuRows = MenuRows(name: string, cats: seq<CatRows>)

  /** Printers by normalized name; the last of a name counts. */
  type Ids = map<string, Id>

  function PrinterIds(printers: seq<Printer>): Ids {
    if printers == [] then map[]
    else PrinterIds(printers[..|printers|-1])[Norm(printers[|printers|-1].name) := printers[|printers|-1].id]
  }

  predicate Names(r: Row) {
    r.printer != ""
  }

  function PrinterOf(ids: Ids, r: Row): Id {
    if Norm(r.printer) in ids then ids[Norm(r.printer)] else NO_ID
  }

  // --- the most common printer -----------------------------------------------------------------

  function CountOf(ids: Ids, rows: seq<Row>, id: Id): nat
    decreases |rows|
  {
    if rows == [] then 0
    else
      var r := rows[|rows|-1];
      CountOf(ids, rows[..|rows|-1], id) + if Names(r) && PrinterOf(ids, r) == id then 1 else 0
  }

  function MostCommon(ids: Ids, rows: seq<Row>): Option<Id>
    decreases |rows|
  {
    if rows == [] then None
    else
      var r, before := rows[|rows|-1], MostCommon(ids, rows[..|rows|-1]);
      if !Names(r) then before
      else
        var id := PrinterOf(ids, r);
        if before.None? || CountOf(ids, rows, id) > CountOf(ids, rows, before.value) then Some(id) else before
  }

  // --- what rows do to the menu -------------------------------------------------------------------

  /** Where a row sends its item: its printer, or (the category's default already) nowhere of its own. */
  function Target(ids: Ids, default: Option<Id>, r: Row): Option<Id> {
    if default == Some(PrinterOf(ids, r)) then None else Some(PrinterOf(ids, r))
  }

  function Priced(it: Item, r: Row): Item {
    it.(priceCents := if r.price.Some? then r.price.value else it.priceCents,
        description := if r.description.Some? then r.description.value else it.description)
  }

  function RowOn(ids: Ids, default: Option<Id>, it: Item, r: Row): Item {
    if Names(r) then Priced(it, r).(printer := Target(ids, default, r)) else Priced(it, r)
  }

  function ItemKey(it: Item): string {
    Norm(it.name)
  }

  function RowItem(r: Row): string {
    Norm(r.item)
  }

  function BlankItem(r: Row): Item {
    Item(r.item, 0, "", None)
  }

  function ItemKeeping(ids: Ids, default: Option<Id>): Keeping<Item, Row> {
    Keeping(ItemKey, RowItem, BlankItem, (it, r) => RowOn(ids, default, it, r))
  }

  /** The default after an import: the old one, or else the most common printer of the rows. */
  function DefaultFor(ids: Ids, default: Option<Id>, rows: seq<Row>): Option<Id> {
    if default.None? then MostCommon(ids, rows) else default
  }

  function RowsOn(ids: Ids, c: Category, rows: seq<Row>): Category {
    var default := DefaultFor(ids, c.defaultPrinter, rows);
    Category(c.name, default, UpsertAll(ItemKeeping(ids, default), c.items, rows))
  }

  function CategoryKey(c: Category): string {
    Norm(c.name)
  }

  function CatRowsKey(g: CatRows): string {
    Norm(g.name)
  }

  function BlankCategory(g: CatRows): Category {
    Category(g.name, None, [])
  }

  function CategoryKeeping(ids: Ids): Keeping<Category, CatRows> {
    Keeping(CategoryKey, CatRowsKey, BlankCategory, (c: Category, g: CatRows) => RowsOn(ids, c, g.rows))
  }

  function MenuKey(m: Menu): string {
    Norm(m.name)
  }

  function MenuRowsKey(g: MenuRows): string {
    Norm(g.name)
  }

  function BlankMenu(g: MenuRows): Menu {
    Menu(g.name, [])
  }

  function CategoriesOn(ids: Ids, m: Menu, cats: seq<CatRows>): Menu {
    Menu(m.name, UpsertAll(CategoryKeeping(ids), m.categories, cats))
  }

  function MenuKeeping(ids: Ids): Keeping<Menu, MenuRows> {
    Keeping(MenuKey, MenuRowsKey, BlankMenu, (m: Menu, g: MenuRows) => CategoriesOn(ids, m, g.cats))
  }

  // --- grouping the rows --------------------------------------------------------------------------

  function RowCategory(r: Row): string {
    Norm(r.category)
  }

  function RowMenu(r: Row): string {
    Norm(r.menu)
  }

  function NoRows(r: Row): CatRows {
    CatRows(r.category, [])
  }

  function NoCats(r: Row): MenuRows {
    MenuRows(r.menu, [])
  }

  function OneRowMore(g: CatRows, r: Row): CatRows {
    CatRows(g.name, g.rows + [r])
  }

  const ROWS_BY_CATEGORY: Keeping<CatRows, Row> := Keeping(CatRowsKey, RowCategory, NoRows, OneRowMore)

  function FileRow(g: MenuRows, r: Row): MenuRows {
    MenuRows(g.name, Upsert(ROWS_BY_CATEGORY, g.cats, r))
  }

  const ROWS_BY_MENU: Keeping<MenuRows, Row> := Keeping(MenuRowsKey, RowMenu, NoCats, FileRow)

  /** Menu, category, rows, each in the order the file first names it. */
  function Grouped(rows: seq<Row>): seq<MenuRows> {
    UpsertAll(ROWS_BY_MENU, [], rows)
  }

  /** The menus an import of known printers makes. */
  function Imported(printers: seq<Printer>, menus: seq<Menu>, rows: seq<Row>): seq<Menu> {
    UpsertAll(MenuKeeping(PrinterIds(printers)), menus, Grouped(rows))
  }

  // --- what an import reports ---------------------------------------------------------------------

  datatype Change =
    | MenuGone(name: string) | MenuAdded(name: string)
    | CategoryAdded(name: string, printer: Option<Id>) | CategoryPrinterSet(name: string, printer: Option<Id>)
    | ItemAdded(name: string, priceCents: int) | ItemChanged(name: string, priceCents: int)
    | ItemPrinterSet(name: string, printer: Option<Id>)

  datatype Tally = Tally(
    menus: nat, categories: nat, categoryPrinters: nat, items: nat, itemsUpdated: nat, itemPrinters: nat,
    noPrinter: nat, printsOn: map<Id, nat>, changes: seq<Change>)

  const NOTHING_YET := Tally(0, 0, 0, 0, 0, 0, 0, map[], [])

  datatype PrinterItems = PrinterItems(printer: string, items: nat)

  datatype Outcome =
    | Refused(unknown: seq<string>)
    | Done(deleted: nat, tally: Tally, prints: seq<PrinterItems>)

  function Noted(t: Tally, c: Change): Tally {
    t.(changes := t.changes + [c])
  }

  predicate Changes(it: Item, r: Row) {
    (r.price.Some? && r.price.value != it.priceCents) || (r.description.Some? && r.description.value != it.description)
  }

  /** A row's price, description: its item as the row is reported on, before its printer. */
  function ItemBefore(items: seq<Item>, r: Row): Item {
    match Find(items, ItemKey, RowItem(r))
    case None => BlankItem(r)
    case Some(i) => items[i]
  }

  function NotePrinter(ids: Ids, default: Option<Id>, t: Tally, it: Item, r: Row): Tally {
    if !Names(r) || Target(ids, default, r) == it.printer then t
    else Noted(t.(itemPrinters := t.itemPrinters + 1), ItemPrinterSet(it.name, Target(ids, default, r)))
  }

  function NoteItem(t: Tally, items: seq<Item>, r: Row): Tally {
    var it := ItemBefore(items, r);
    if Find(items, ItemKey, RowItem(r)).None? then
      Noted(t.(items := t.items + 1), ItemAdded(r.item, Priced(it, r).priceCents))
    else if Changes(it, r) then
      Noted(t.(itemsUpdated := t.itemsUpdated + 1), ItemChanged(it.name, Priced(it, r).priceCents))
    else t
  }

  function NoteRow(ids: Ids, default: Option<Id>, t: Tally, items: seq<Item>, r: Row): Tally {
    NotePrinter(ids, default, NoteItem(t, items, r), ItemBefore(items, r), r)
  }

  function NoteRows(ids: Ids, default: Option<Id>, t: Tally, items: seq<Item>, rows: seq<Row>): Tally
    decreases |rows|
  {
    if rows == [] then t
    else
      var init, last := rows[..|rows|-1], rows[|rows|-1];
      NoteRow(ids, default, NoteRows(ids, default, t, items, init), UpsertAll(ItemKeeping(ids, default), items, init), last)
  }

  /** Where a row's item is, or will be. */
  function PlaceOf(items: seq<Item>, r: Row): nat {
    match Find(items, ItemKey, RowItem(r)) case None => |items| case Some(i) => i
  }

  /** The places of the items the rows name, each once. */
  function Touched(ids: Ids, default: Option<Id>, items: seq<Item>, rows: seq<Row>): seq<nat>
    decreases |rows|
  {
    if rows == [] then []
    else
      var init := rows[..|rows|-1];
      var before := Touched(ids, default, items, init);
      var place := PlaceOf(UpsertAll(ItemKeeping(ids, default), items, init), rows[|rows|-1]);
      if place in before then before else before + [place]
  }

  predicate Within(places: seq<nat>, n: nat) {
    forall k :: 0 <= k < |places| ==> places[k] < n
  }

  lemma PlaceIsThere(ids: Ids, default: Option<Id>, items: seq<Item>, r: Row)
    ensures PlaceOf(items, r) < |Upsert(ItemKeeping(ids, default), items, r)|
    ensures |items| <= |Upsert(ItemKeeping(ids, default), items, r)|
  {
    hide RowOn, Norm;
  }

  lemma {:induction false} TouchedAreThere(ids: Ids, default: Option<Id>, items: seq<Item>, rows: seq<Row>)
    ensures Within(Touched(ids, default, items, rows), |UpsertAll(ItemKeeping(ids, default), items, rows)|)
    decreases |rows|
  {
    hide ItemKeeping, PlaceOf, Upsert;
    if rows != [] {
      var init := rows[..|rows|-1];
      TouchedAreThere(ids, default, items, init);
      PlaceIsThere(ids, default, UpsertAll(ItemKeeping(ids, default), items, init), rows[|rows|-1]);
    }
  }

  /** Where an item prints in the end (None: nowhere). */
  function Effective(default: Option<Id>, it: Item): Option<Id> {
    if it.printer.Some? then it.printer else default
  }

  function NotePrints(t: Tally, default: Option<Id>, it: Item): Tally {
    match Effective(default, it)
    case None => t.(noPrinter := t.noPrinter + 1)
    case Some(p) => t.(printsOn := t.printsOn[p := 1 + if p in t.printsOn then t.printsOn[p] else 0])
  }

  function NoteAllPrints(t: Tally, default: Option<Id>, items: seq<Item>, places: seq<nat>): Tally
    requires Within(places, |items|)
    decreases |places|
  {
    if places == [] then t
    else NotePrints(NoteAllPrints(t, default, items, places[..|places|-1]), default, items[places[|places|-1]])
  }

  function NoteFoundCategory(ids: Ids, t: Tally, cats: seq<Category>, g: CatRows): Tally {
    var want := MostCommon(ids, g.rows);
    match Find(cats, CategoryKey, Norm(g.name))
    case None =>
      Noted(t.(categories := t.categories + 1, categoryPrinters := t.categoryPrinters + if want.Some? then 1 else 0),
            CategoryAdded(g.name, want))
    case Some(i) =>
      if cats[i].defaultPrinter.None? && want.Some? then
        Noted(t.(categoryPrinters := t.categoryPrinters + 1), CategoryPrinterSet(cats[i].name, want))
      else t
  }

  function CategoryBefore(cats: seq<Category>, g: CatRows): Category {
    match Find(cats, CategoryKey, Norm(g.name)) case None => BlankCategory(g) case Some(i) => cats[i]
  }

  function NoteItems(ids: Ids, t: Tally, c: Category, rows: seq<Row>): Tally {
    var default := DefaultFor(ids, c.defaultPrinter, rows);
    var places := Touched(ids, default, c.items, rows);
    TouchedAreThere(ids, default, c.items, rows);
    NoteAllPrints(NoteRows(ids, default, t, c.items, rows), default,
                  UpsertAll(ItemKeeping(ids, default), c.items, rows), places)
  }

  function NoteCategory(ids: Ids, t: Tally, cats: seq<Category>, g: CatRows): Tally {
    NoteItems(ids, NoteFoundCategory(ids, t, cats, g), CategoryBefore(cats, g), g.rows)
  }

  function NoteCategories(ids: Ids, t: Tally, cats: seq<Category>, groups: seq<CatRows>): Tally
    decreases |groups|
  {
    if groups == [] then t
    else
      var init := groups[..|groups|-1];
      NoteCategory(ids, NoteCategories(ids, t, cats, init), UpsertAll(CategoryKeeping(ids), cats, init),
                   groups[|groups|-1])
  }

  function NoteMenu(ids: Ids, t: Tally, menus: seq<Menu>, g: MenuRows): Tally {
    match Find(menus, MenuKey, Norm(g.name))
    case None => NoteCategories(ids, Noted(t.(menus := t.menus + 1), MenuAdded(g.name)), [], g.cats)
    case Some(i) => NoteCategories(ids, t, menus[i].categories, g.cats)
  }

  function NoteMenus(ids: Ids, t: Tally, menus: seq<Menu>, groups: seq<MenuRows>): Tally
    decreases |groups|
  {
    if groups == [] then t
    else
      var init := groups[..|groups|-1];
      NoteMenu(ids, NoteMenus(ids, t, menus, init), UpsertAll(MenuKeeping(ids), menus, init), groups[|groups|-1])
  }

  /** The printers some item prints on, in the store's order. */
  function Prints(printers: seq<Printer>, printsOn: map<Id, nat>): seq<PrinterItems> {
    if printers == [] then []
    else
      var p := printers[|printers|-1];
      Prints(printers[..|printers|-1], printsOn)
      + if p.id in printsOn && printsOn[p.id] > 0 then [PrinterItems(p.name, printsOn[p.id])] else []
  }

  /** The printer names of the rows that the store does not have, each once. */
  function Unknown(ids: Ids, rows: seq<Row>): seq<string>
    decreases |rows|
  {
    if rows == [] then []
    else
      var init, r := rows[..|rows|-1], rows[|rows|-1];
      var before := Unknown(ids, init);
      if Names(r) && Norm(r.printer) !in ids && !exists u <- before :: Norm(u) == Norm(r.printer) then
        before + [r.printer]
      else before
  }

  function Gone(menus: seq<Menu>): seq<Change> {
    seq(|menus|, i requires 0 <= i < |menus| => MenuGone(menus[i].name))
  }

  /** What an import reports: the same whether or not it is a dry run. */
  function Reported(printers: seq<Printer>, menus: seq<Menu>, rows: seq<Row>, replace: bool): Outcome {
    var ids := PrinterIds(printers);
    if Unknown(ids, rows) != [] then Refused(Unknown(ids, rows))
    else
      var start, gone := if replace then [] else menus, if replace then Gone(menus) else [];
      var t := NoteMenus(ids, NOTHING_YET.(changes := gone), start, Grouped(rows));
      Done(|gone|, t, Prints(printers, t.printsOn))
  }

  // --- exporting ----------------------------------------------------------------------------------

  /** One exported line. */
  datatype Record = Record(
    menu: string, category: string, item: string, priceCents: int, printer: string, description: string)

  /** The name an id is exported under: the last printer with that id. */
  function PrinterName(printers: seq<Printer>, id: Id): string {
    if printers == [] then ""
    else if printers[|printers|-1].id == id then printers[|printers|-1].name
    else PrinterName(printers[..|printers|-1], id)
  }

  function RecordOf(printers: seq<Printer>, m: string, c: Category, it: Item): Record {
    var p := Effective(c.defaultPrinter, it);
    Record(m, c.name, it.name, it.priceCents, if p.Some? then PrinterName(printers, p.value) else "", it.description)
  }

  function ItemRecords(printers: seq<Printer>, m: string, c: Category, items: seq<Item>): seq<Record>
    decreases |items|
  {
    if items == [] then []
    else ItemRecords(printers, m, c, items[..|items|-1]) + [RecordOf(printers, m, c, items[|items|-1])]
  }

  function CategoryRecords(printers: seq<Printer>, m: string, cats: seq<Category>): seq<Record>
    decreases |cats|
  {
    if cats == [] then []
    else
      var c := cats[|cats|-1];
      CategoryRecords(printers, m, cats[..|cats|-1]) + ItemRecords(printers, m, c, c.items)
  }

  function Exported(printers: seq<Printer>, menus: seq<Menu>): seq<Record>
    decreases |menus|
  {
    if menus == [] then []
    else
      var m := menus[|menus|-1];
      Exported(printers, menus[..|menus|-1]) + CategoryRecords(printers, m.name, m.categories)
  }

  const DEFAULT_MENU := "Main"

  /** A record as it is read back: cells trimmed, blank ones absent; a category and an item are needed. */
  function Read(r: Record): Option<Row> {
    if Trim(r.category) == "" || Trim(r.item) == "" then None
    else
      Some(Row(if Trim(r.menu) == "" then DEFAULT_MENU else Trim(r.menu), Trim(r.category), Trim(r.item),
               Some(r.priceCents), Trim(r.printer),
               if Trim(r.description) == "" then None else Some(Trim(r.description))))
  }

  function ReadAll(records: seq<Record>): Option<seq<Row>> {
    if records == [] then Some([])
    else
      match ReadAll(records[..|records|-1])
      case None => None
      case Some(before) =>
        match Read(records[|records|-1])
        case None => None
        case Some(r) => Some(before + [r])
  }
}
