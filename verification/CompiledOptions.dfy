/** The options of a priced selection on a compiled menu: each costs the markup of a bank option's price. */
module CompiledOptions {
  import opened Options
  import opened MenuBuild
  import opened MenuBank
  import opened MenuView
  import opened MenuPlacement
  import opened PricingTypes
  import opened PricingItem
  import opened CompiledPrices

  /** A default left off, or an option some pick names, at its price for the size. */
  ghost predicate OfTheMenu(m: Menu, size: Id, picks: seq<Pick>, o: ResolvedOption) {
    o.removedDefault || exists pk <- picks :: IsPick(m, size, o, pk)
  }

  predicate IsPick(m: Menu, size: Id, o: ResolvedOption, pk: Pick) {
    match FindGroup(m.groups, pk.groupId)
    case None => false
    case Some(g) =>
      match FindOption(g.options, pk.optionId)
      case None => false
      case Some(bo) => o.name == bo.name && o.priceCents == PickPrice(g, bo, size)
  }

  lemma {:induction false} PicksAreOfTheMenu(m: Menu, gid: Id, size: Id, all: seq<Pick>, c: Chosen, picks: seq<Pick>)
    requires FindGroup(m.groups, gid).Some? && forall o <- c.options :: OfTheMenu(m, size, all, o)
    requires forall pk <- picks :: pk in all && pk.groupId == gid
    ensures forall o <- TakePicks(FindGroup(m.groups, gid).value, size, c, picks).options :: OfTheMenu(m, size, all, o)
    decreases |picks|
  {
    hide FindGroup, FindOption, PickPrice;
    if picks != [] {
      var g, pk := FindGroup(m.groups, gid).value, picks[|picks|-1];
      PicksAreOfTheMenu(m, gid, size, all, c, picks[..|picks|-1]);
      var bo := FindOption(g.options, pk.optionId);
      if bo.Some? {
        assert IsPick(m, size, ResolvedOption(bo.value.name, PortionOf(g, pk), PickPrice(g, bo.value, size), false, false),
                      pk);
      }
    }
  }

  lemma {:induction false} PicksInAreOfTheGroup(picks: seq<Pick>, gid: Id)
    ensures forall pk <- PicksIn(picks, gid) :: pk in picks && pk.groupId == gid
    decreases |picks|
  {
    if picks != [] { PicksInAreOfTheGroup(picks[..|picks|-1], gid); }
  }

  lemma {:induction false} LeftOffIsRemoved(options: seq<BuildOption>, seen: set<Id>)
    ensures forall o <- LeftOff(options, seen) :: o.removedDefault
  {
    if options != [] { LeftOffIsRemoved(options[..|options|-1], seen); }
  }

  lemma {:induction false} GroupsAreOfTheMenu(m: Menu, size: Id, picks: seq<Pick>, c: Chosen, gids: seq<Id>)
    requires forall o <- c.options :: OfTheMenu(m, size, picks, o)
    ensures forall o <- TakeGroups(m, size, picks, c, gids).options :: OfTheMenu(m, size, picks, o)
    decreases |gids|
  {
    hide FindGroup, TakePicks, LeftOff, PicksIn, SeenIds, IsPick;
    if gids != [] {
      var gid, before := gids[|gids|-1], TakeGroups(m, size, picks, c, gids[..|gids|-1]);
      GroupsAreOfTheMenu(m, size, picks, c, gids[..|gids|-1]);
      var g := FindGroup(m.groups, gid);
      if g.Some? {
        PicksInAreOfTheGroup(picks, gid);
        PicksAreOfTheMenu(m, gid, size, picks, before, PicksIn(picks, gid));
        LeftOffIsRemoved(g.value.options, SeenIds(g.value, PicksIn(picks, gid)));
      }
    }
  }

  lemma {:induction false} MarkingKeepsTheRest(options: seq<ResolvedOption>, cs: seq<Charged>, i: nat)
    requires (forall c :: c in cs ==> c.index < |options|) && i < |options|
    ensures MarkIncluded(options, cs)[i].(included := options[i].included) == options[i]
    decreases |cs|
  {
    if cs != [] { MarkingKeepsTheRest(options, cs[..|cs|-1], i); }
  }

  lemma IncludingKeepsThem(m: Menu, size: Id, picks: seq<Pick>, options: seq<ResolvedOption>, free: int)
    requires forall o <- options :: OfTheMenu(m, size, picks, o)
    ensures forall o <- WithIncluded(options, free) :: OfTheMenu(m, size, picks, o)
  {
    hide FindGroup, FindOption, PickPrice, MarkIncluded, ChargedOf;
    var marked := WithIncluded(options, free);
    forall i | 0 <= i < |marked| ensures OfTheMenu(m, size, picks, marked[i]) {
      MarkingKeepsTheRest(options, Take(ByPrice(options), free), i);
      assert OfTheMenu(m, size, picks, options[i]);
      if !options[i].removedDefault {
        var pk :| pk in picks && IsPick(m, size, options[i], pk);
        assert IsPick(m, size, marked[i], pk);
      }
    }
  }

  /** Every option on a priced item is of the menu, at its price for the size sold. */
  lemma PricedOptionsAreOfTheMenu(m: Menu, sel: Selection, free: int)
    ensures var p := PriceItem(m, sel, free); forall o <- p.options :: OfTheMenu(m, p.sizeId, sel.options, o)
  {
    hide OfTheMenu, TakeGroups, WithIncluded, AllItems, ChargeBeyond, StrayPick;
    var p := PriceItem(m, sel, free);
    match FindItem(AllItems(m.categories), sel.itemId)
    case None =>
    case Some(it) =>
      match OfferOf(it, sel.choiceId)
      case None =>
      case Some(offer) =>
        var start := Chosen([], [], if offer.soldOut then [SoldOut] else []);
        GroupsAreOfTheMenu(m, p.sizeId, sel.options, start, it.groupIds);
        IncludingKeepsThem(m, p.sizeId, sel.options, TakeGroups(m, p.sizeId, sel.options, start, it.groupIds).options,
                           free);
  }

  /** The bank option a pick names, and what the view's rule makes of its price for a size. */
  predicate CostsTheMarkup(bank: Bank, rules: Rules, size: Id, o: ResolvedOption, pk: Pick) {
    && pk.groupId in bank.groups
    && match FindBankOption(bank.groups[pk.groupId].options, pk.optionId)
       case None => false
       case Some(bo) =>
         o.name == bo.name && o.priceCents == OptionPriceOf(rules, PriceForSize(bo.priceDeltaCents, bo.prices, size))
  }

  /** Every option on a compiled menu's priced item is one a pick names, at the markup of the bank's price for the size. */
  lemma PickedOptionsCostTheMarkup(bank: Bank, rules: Rules, entries: seq<Entry>, sel: Selection, free: int)
    requires WellFiled(bank)
    ensures var p := PriceItem(Compiled(bank, rules, entries), sel, free);
            forall o <- p.options :: !o.removedDefault ==>
              exists pk <- sel.options :: CostsTheMarkup(bank, rules, p.sizeId, o, pk)
  {
    hide Compiled, PriceItem, WellFiled, CostsTheMarkup, IsPick;
    var m := Compiled(bank, rules, entries);
    var p := PriceItem(m, sel, free);
    PricedOptionsAreOfTheMenu(m, sel, free);
    forall o <- p.options
      ensures !o.removedDefault ==> exists pk <- sel.options :: CostsTheMarkup(bank, rules, p.sizeId, o, pk)
    {
      if !o.removedDefault {
        var pk :| pk in sel.options && IsPick(m, p.sizeId, o, pk);
        PickCostsTheMarkup(bank, rules, entries, p.sizeId, o, pk);
      }
    }
  }

  lemma PickCostsTheMarkup(bank: Bank, rules: Rules, entries: seq<Entry>, size: Id, o: ResolvedOption, pk: Pick)
    requires WellFiled(bank) && IsPick(Compiled(bank, rules, entries), size, o, pk)
    ensures CostsTheMarkup(bank, rules, size, o, pk)
  {
    hide Compiled, WellFiled, OptionPriceOf, PriceForSize, OptionsOf, FindOption, FindGroup, PickPrice;
    OptionsCostTheMarkup(bank, rules, entries, pk.groupId, pk.optionId, size);
    OptionsComeFromTheBank(rules, bank.groups[pk.groupId].options, pk.optionId);
  }
}
