/** A compiled menu view: what a channel shows and what pricing reads. */
module MenuBuild {
  import opened Options

  datatype BuildItemSize = BuildItemSize(sizeId: Id, name: string, priceCents: int)

  /** What a customer may choose under a merge: one of its bank items. */
  datatype BuildChoice =
    BuildChoice(itemId: Id, name: string, priceCents: int, sizes: seq<BuildItemSize>, soldOut: bool)

  /** An item on sale. Merges and augments go by their entry's id, all others by their bank item's; anchor names bank items. */
  datatype BuildItem = BuildItem(
    id: Id, name: string, photo: bool, anchor: seq<Id>, priceCents: int, sizes: seq<BuildItemSize>, soldOut: bool,
    groupIds: seq<Id>, choices: seq<BuildChoice>, position: int)

  datatype OptionPrice = OptionPrice(sizeId: Id, priceCents: int)

  datatype BuildOption =
    BuildOption(id: Id, name: string, priceCents: int, prices: seq<OptionPrice>, isDefault: bool, soldOut: bool)

  datatype BuildGroup = BuildGroup(
    id: Id, name: string, required: bool, minSelect: int, maxSelect: int, allowMultiple: bool, portions: bool,
    options: seq<BuildOption>)

  /** A category's key: a bank category's id, or the name of one the view made. */
  datatype CategoryKey = BankKey(id: Id) | ViewKey(name: string)

  datatype BuildCategory = BuildCategory(key: CategoryKey, name: string, position: int, items: seq<BuildItem>)

  datatype Menu = Menu(categories: seq<BuildCategory>, groups: seq<BuildGroup>)

  /** All the items of a list of categories. */
  function AllItems(cats: seq<BuildCategory>): seq<BuildItem> {
    if cats == [] then [] else AllItems(cats[..|cats|-1]) + cats[|cats|-1].items
  }
}
