/** A store's bank of menus, which every view is compiled from. */
module MenuBank {
  import opened Options
  import opened MenuBuild

  datatype Size = Size(id: Id, name: string)

  datatype ItemSize = ItemSize(sizeId: Id, priceCents: int)

  datatype BankItem = BankItem(
    id: Id, name: string, priceCents: int, inStock: bool, position: int, sizes: seq<ItemSize>, groupIds: seq<Id>)

  datatype BankCategory = BankCategory(id: Id, name: string, available: bool, items: seq<BankItem>)

  datatype BankMenu = BankMenu(available: bool, categories: seq<BankCategory>)

  datatype BankOption = BankOption(
    id: Id, name: string, priceDeltaCents: int, prices: seq<OptionPrice>, isDefault: bool, inStock: bool)

  datatype BankGroup = BankGroup(
    id: Id, name: string, required: bool, minSelect: int, maxSelect: int, allowMultiple: bool, portions: bool,
    options: seq<BankOption>)

  datatype Bank = Bank(sizes: seq<Size>, menus: seq<BankMenu>, groups: map<Id, BankGroup>)

  /** A category and whether its menu is on. */
  datatype Aisle = Aisle(category: BankCategory, menuOn: bool)
  {
    predicate On() {
      menuOn && category.available
    }
  }

  function AislesOf(m: BankMenu): seq<Aisle> {
    seq(|m.categories|, i requires 0 <= i < |m.categories| => Aisle(m.categories[i], m.available))
  }

  /** Every category, menu by menu. */
  function Aisles(menus: seq<BankMenu>): seq<Aisle> {
    if menus == [] then [] else Aisles(menus[..|menus|-1]) + AislesOf(menus[|menus|-1])
  }

  /** How many categories belong to menus that are on. */
  function OnCount(aisles: seq<Aisle>): nat {
    if aisles == [] then 0
    else OnCount(aisles[..|aisles|-1]) + if aisles[|aisles|-1].menuOn then 1 else 0
  }

  /** An item where it stands: its aisle, and the aisle's place among those of menus that are on. */
  datatype Stock = Stock(aisle: Aisle, place: int, item: BankItem)

  function Shelf(a: Aisle, place: int): seq<Stock> {
    seq(|a.category.items|, i requires 0 <= i < |a.category.items| => Stock(a, place, a.category.items[i]))
  }

  /** Every item, aisle by aisle. */
  function StockOf(aisles: seq<Aisle>): seq<Stock> {
    if aisles == [] then []
    else StockOf(aisles[..|aisles|-1]) + Shelf(aisles[|aisles|-1], OnCount(aisles))
  }

  function AllStock(bank: Bank): seq<Stock> {
    StockOf(Aisles(bank.menus))
  }

  /** The first item with an id. */
  function FindStock(stock: seq<Stock>, id: Id): (r: Option<Stock>)
    ensures r.Some? ==> r.value in stock && r.value.item.id == id
    ensures r.None? ==> forall s <- stock :: s.item.id != id
  {
    if stock == [] then None
    else
      match FindStock(stock[..|stock|-1], id)
      case Some(s) => Some(s)
      case None => if stock[|stock|-1].item.id == id then Some(stock[|stock|-1]) else None
  }

  function FindBankSize(sizes: seq<Size>, id: Id): (r: Option<Size>)
    ensures r.Some? ==> r.value in sizes && r.value.id == id
  {
    if sizes == [] then None else if sizes[0].id == id then Some(sizes[0]) else FindBankSize(sizes[1..], id)
  }

  /** A size is looked up by its id: the first with that id, and none only when there is no such size. */
  lemma {:induction false} WhichSizeIsMeant(sizes: seq<Size>, id: Id)
    ensures FindBankSize(sizes, id).None? ==> forall s <- sizes :: s.id != id
    ensures FindBankSize(sizes, id).Some? ==>
      exists i :: 0 <= i < |sizes| && FindBankSize(sizes, id).value == sizes[i] && forall j :: 0 <= j < i ==> sizes[j].id != id
  {
    if sizes != [] {
      WhichSizeIsMeant(sizes[1..], id);
      if sizes[0].id == id {
        assert FindBankSize(sizes, id).value == sizes[0];
      } else if FindBankSize(sizes[1..], id).Some? {
        var i :| 0 <= i < |sizes[1..]| && FindBankSize(sizes[1..], id).value == sizes[1..][i]
                 && forall j :: 0 <= j < i ==> sizes[1..][j].id != id;
        assert FindBankSize(sizes, id).value == sizes[i+1];
        forall j | 0 <= j < i + 1 ensures sizes[j].id != id { assert j > 0 ==> sizes[j] == sizes[1..][j-1]; }
      }
    }
  }
}
