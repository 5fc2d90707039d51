/** When a selection can be ordered: every issue a priced item or a bundle has, said of the menu and the picks. */
module PricingRules {
  import opened Options
  import opened Sequences
  import opened MenuBuild
  import opened PricingTypes
  import opened PricingItem
  import opened PricingCart

  // --- one group's picks ------------------------------------------------------------------------

  predicate IsKnown(g: BuildGroup, pk: Pick) {
    FindOption(g.options, pk.optionId).Some?
  }

  predicate IsOut(g: BuildGroup, pk: Pick) {
    IsKnown(g, pk) && FindOption(g.options, pk.optionId).value.soldOut
  }

  /** Some option is picked twice, in a group where that is not allowed. */
  ghost predicate Repeats(g: BuildGroup, picks: seq<Pick>) {
    !g.allowMultiple
    && exists a, b :: 0 <= a < b < |picks| && picks[a].optionId == picks[b].optionId && IsKnown(g, picks[b])
  }

  lemma RepeatsOneMore(g: BuildGroup, picks: seq<Pick>, pk: Pick)
    ensures Repeats(g, picks + [pk])
       <==> Repeats(g, picks) || (!g.allowMultiple && IsKnown(g, pk) && exists p <- picks :: p.optionId == pk.optionId)
  {
    hide IsKnown;
    var all := picks + [pk];
    if Repeats(g, picks) {
      var a, b :| 0 <= a < b < |picks| && picks[a].optionId == picks[b].optionId && IsKnown(g, picks[b]);
      assert all[a].optionId == all[b].optionId && IsKnown(g, all[b]);
    }
    if p :| p in picks && p.optionId == pk.optionId {
      var a :| 0 <= a < |picks| && picks[a] == p;
      assert all[a].optionId == all[|picks|].optionId;
    }
  }

  /** What some picks of a group have wrong. */
  ghost predicate PicksHave(g: BuildGroup, picks: seq<Pick>, i: Issue) {
    match i
    case UnknownOption => exists pk <- picks :: !IsKnown(g, pk)
    case SoldOut => exists pk <- picks :: IsOut(g, pk)
    case OptionRules => Repeats(g, picks)
    case _ => false
  }

  /** What one more pick has wrong, after some others. */
  ghost predicate PickHas(g: BuildGroup, before: seq<Pick>, pk: Pick, i: Issue) {
    match i
    case UnknownOption => !IsKnown(g, pk)
    case SoldOut => IsOut(g, pk)
    case OptionRules => !g.allowMultiple && IsKnown(g, pk) && exists p <- before :: p.optionId == pk.optionId
    case _ => false
  }

  lemma IssuesOfAPick(g: BuildGroup, size: Id, before: seq<Pick>, c: Chosen, pk: Pick, i: Issue)
    ensures i in TakePick(g, size, SeenIds(g, before), c, pk).issues <==> i in c.issues || PickHas(g, before, pk, i)
  {
    hide PickPrice;
    SeenBefore(g, before, pk);
    hide SeenIds;
  }

  lemma OnePickMore(g: BuildGroup, picks: seq<Pick>, pk: Pick, i: Issue)
    ensures PicksHave(g, picks + [pk], i) <==> PicksHave(g, picks, i) || PickHas(g, picks, pk, i)
  {
    hide Repeats, IsKnown, IsOut;
    RepeatsOneMore(g, picks, pk);
    assert pk in picks + [pk] && forall p <- picks :: p in picks + [pk];
  }

  lemma {:induction false} IssuesOfPicks(g: BuildGroup, size: Id, c: Chosen, picks: seq<Pick>, i: Issue)
    ensures i in TakePicks(g, size, c, picks).issues <==> i in c.issues || PicksHave(g, picks, i)
    decreases |picks|
  {
    hide PickHas, TakePick, SeenIds;
    if picks == [] {
      NothingRepeats(g);
    } else {
      hide PicksHave;
      var init, pk := picks[..|picks|-1], picks[|picks|-1];
      IssuesOfPicks(g, size, c, init, i);
      IssuesOfAPick(g, size, init, TakePicks(g, size, c, init), pk, i);
      OnePickMore(g, init, pk, i);
      assert picks == init + [pk];
    }
  }

  lemma NothingRepeats(g: BuildGroup)
    ensures !Repeats(g, [])
  {
  }

  lemma SeenBefore(g: BuildGroup, picks: seq<Pick>, pk: Pick)
    ensures IsKnown(g, pk) ==> (pk.optionId in SeenIds(g, picks) <==> exists p <- picks :: p.optionId == pk.optionId)
  {
  }

  // --- an item's groups ---------------------------------------------------------------------------

  /** The least and the most picks of a group; at least one when it is required. */
  predicate RightNumber(g: BuildGroup, n: nat) {
    && n >= g.minSelect && (g.required ==> n >= 1)
    && (g.maxSelect > 0 ==> n <= g.maxSelect)
  }

  lemma IssuesOfCounts(g: BuildGroup, n: nat, i: Issue)
    ensures i in CountIssues(g, n) <==> i == OptionRules && !RightNumber(g, n)
  {
  }

  /** What the picks for one of an item's groups have wrong; picks for a group the menu lacks are not looked at. */
  ghost predicate GroupHas(m: Menu, picks: seq<Pick>, gid: Id, i: Issue) {
    match FindGroup(m.groups, gid)
    case None => false
    case Some(g) =>
      var mine := PicksIn(picks, gid);
      PicksHave(g, mine, i) || (i == OptionRules && !RightNumber(g, |mine|))
  }

  lemma IssuesOfAGroup(m: Menu, size: Id, picks: seq<Pick>, c: Chosen, gid: Id, i: Issue)
    ensures i in TakeGroup(m, size, picks, c, gid).issues <==> i in c.issues || GroupHas(m, picks, gid, i)
  {
    hide TakePicks, PicksHave, PicksIn, CountIssues, RightNumber, FindGroup, LeftOff, SeenIds;
    var g := FindGroup(m.groups, gid);
    if g.Some? {
      IssuesOfPicks(g.value, size, c, PicksIn(picks, gid), i);
      IssuesOfCounts(g.value, |PicksIn(picks, gid)|, i);
    }
  }

  lemma {:induction false} IssuesOfGroups(m: Menu, size: Id, picks: seq<Pick>, c: Chosen, gids: seq<Id>, i: Issue)
    ensures i in TakeGroups(m, size, picks, c, gids).issues
       <==> i in c.issues || exists gid <- gids :: GroupHas(m, picks, gid, i)
    decreases |gids|
  {
    hide TakeGroup, GroupHas;
    if gids != [] {
      var init, gid := gids[..|gids|-1], gids[|gids|-1];
      IssuesOfGroups(m, size, picks, c, init, i);
      assert gids == init + [gid];
      IssuesOfAGroup(m, size, picks, TakeGroups(m, size, picks, c, init), gid, i);
    }
  }

  lemma {:induction false} PicksOfAGroup(picks: seq<Pick>, gid: Id, pk: Pick)
    ensures pk in PicksIn(picks, gid) <==> pk in picks && pk.groupId == gid
    decreases |picks|
  {
    if picks != [] {
      PicksOfAGroup(picks[..|picks|-1], gid, pk);
      assert picks == picks[..|picks|-1] + [picks[|picks|-1]];
    }
  }

  // --- an item -------------------------------------------------------------------------------------

  /** The size a selection is sold in, if there is one: the one named, the first if none is, or no size of an item without. */
  predicate SizeFound(sizes: seq<BuildItemSize>, id: Id) {
    if sizes == [] then id == NO_ID else id == NO_ID || exists s <- sizes :: s.sizeId == id
  }

  lemma {:induction false} SizesAreFound(sizes: seq<BuildItemSize>, id: Id)
    ensures FindSize(sizes, id).Some? <==> exists s <- sizes :: s.sizeId == id
    decreases |sizes|
  {
    if sizes != [] {
      SizesAreFound(sizes[..|sizes|-1], id);
      assert sizes == sizes[..|sizes|-1] + [sizes[|sizes|-1]];
    }
  }

  /** Everything that can be wrong with a selection of an item on the menu. */
  ghost predicate ItemHas(m: Menu, sel: Selection, it: BuildItem, i: Issue) {
    match OfferOf(it, sel.choiceId)
    case None => i == OptionRules
    case Some(offer) =>
      if !SizeFound(offer.sizes, sel.sizeId) then i == UnknownSize
      else
        || (i == SoldOut && offer.soldOut)
        || (exists gid <- it.groupIds :: GroupHas(m, sel.options, gid, i))
        || (i == UnknownOption && exists pk <- sel.options :: pk.groupId !in it.groupIds)
  }

  lemma IssuesOfConfigured(m: Menu, it: BuildItem, offer: Offer, base: int, size: Id, name: string, picks: seq<Pick>,
                           free: int, i: Issue)
    ensures i in Configure(m, it, offer, base, size, name, picks, free).issues <==>
      || (i == SoldOut && offer.soldOut)
      || (exists gid <- it.groupIds :: GroupHas(m, picks, gid, i))
      || (i == UnknownOption && exists pk <- picks :: pk.groupId !in it.groupIds)
  {
    hide TakeGroups, ChargeBeyond, WithIncluded, GroupHas;
    IssuesOfGroups(m, size, picks, Chosen([], [], if offer.soldOut then [SoldOut] else []), it.groupIds, i);
    if pk :| pk in picks && pk.groupId !in it.groupIds {
      var k :| 0 <= k < |picks| && picks[k] == pk;
    }
  }

  /** An item has exactly the issues its selection earns it: the item, the choice and the size first, then the options. */
  lemma WhyAnItemCannotBeOrdered(m: Menu, sel: Selection, free: int, i: Issue)
    ensures i in PriceItem(m, sel, free).issues <==>
      match FindItem(AllItems(m.categories), sel.itemId)
      case None => i == UnknownItem
      case Some(it) => ItemHas(m, sel, it, i)
  {
    hide AllItems, Configure, GroupHas, FindSize, OfferOf, FindItem;
    match FindItem(AllItems(m.categories), sel.itemId)
    case None =>
    case Some(it) =>
      match OfferOf(it, sel.choiceId)
      case None =>
      case Some(offer) =>
        SizesAreFound(offer.sizes, sel.sizeId);
        if offer.sizes == [] {
          IssuesOfConfigured(m, it, offer, offer.base, NO_ID, "", sel.options, free, i);
        } else if PickSize(offer.sizes, sel.sizeId).Some? {
          var sz := PickSize(offer.sizes, sel.sizeId).value;
          IssuesOfConfigured(m, it, offer, sz.priceCents, sz.sizeId, sz.name, sel.options, free, i);
        }
  }

  /** So a selection is without issues exactly when its item is on the menu and nothing of all that is wrong. */
  lemma WhenAnItemCanBeOrdered(m: Menu, sel: Selection, free: int)
    ensures var found := FindItem(AllItems(m.categories), sel.itemId);
      PriceItem(m, sel, free).issues == [] <==> found.Some? && forall i :: !ItemHas(m, sel, found.value, i)
  {
    hide PriceItem, ItemHas, AllItems, FindItem;
    var p := PriceItem(m, sel, free);
    forall i ensures i in p.issues <==>
      match FindItem(AllItems(m.categories), sel.itemId) case None => i == UnknownItem case Some(it) => ItemHas(m, sel, it, i)
    {
      WhyAnItemCannotBeOrdered(m, sel, free, i);
    }
    if p.issues != [] {
      assert p.issues[0] in p.issues;
    } else {
      assert UnknownItem !in p.issues;
      assert FindItem(AllItems(m.categories), sel.itemId).Some?;
      forall i ensures !ItemHas(m, sel, FindItem(AllItems(m.categories), sel.itemId).value, i) { assert i !in p.issues; }
    }
  }

  /** What is offered: a choice of a combined item, the item itself, or an added item, taxed as its first and no bank item. */
  lemma WhatIsOffered(it: BuildItem, choiceId: Id)
    ensures var offer := OfferOf(it, choiceId);
      if it.choices == [] then
        && offer.Some? && offer.value.sizes == it.sizes && offer.value.base == it.priceCents
        && offer.value.soldOut == it.soldOut
        && (if it.anchor == [] then offer.value.bankItem == NO_ID && offer.value.rateItem == NO_ID
            else offer.value.rateItem == it.anchor[0]
                 && offer.value.bankItem == if it.anchor[0] == it.id then it.id else NO_ID)
      else if exists c <- it.choices :: c.itemId == choiceId then
        offer.Some? && exists c <- it.choices ::
          && c.itemId == choiceId && offer.value.sizes == c.sizes && offer.value.base == c.priceCents
          && offer.value.soldOut == c.soldOut && offer.value.bankItem == offer.value.rateItem == choiceId
          && offer.value.choice == c.name
      else offer == None
  {
    ChoicesAreFound(it.choices, choiceId);
    hide FindChoice;
  }

  /** What is priced goes by the item's name and the chosen one's, is sold in the size found, and costs that size's price. */
  lemma WhatIsPriced(m: Menu, sel: Selection, free: int, it: BuildItem, offer: Offer)
    requires FindItem(AllItems(m.categories), sel.itemId) == Some(it) && OfferOf(it, sel.choiceId) == Some(offer)
    ensures var p := PriceItem(m, sel, free);
      && p.name == it.name && p.choice == offer.choice && p.bankItem == offer.bankItem && p.rateItem == offer.rateItem
      && (!SizeFound(offer.sizes, sel.sizeId) ==> p.unit == 0 && p.options == [])
      && (offer.sizes == [] && sel.sizeId == NO_ID ==> p.base == offer.base && p.sizeId == NO_ID && p.sizeName == "")
      && (offer.sizes != [] && SizeFound(offer.sizes, sel.sizeId) ==>
            exists z <- offer.sizes :: z.sizeId == p.sizeId && z.name == p.sizeName && z.priceCents == p.base)
      && (offer.sizes != [] && SizeFound(offer.sizes, sel.sizeId) && sel.sizeId != NO_ID ==> p.sizeId == sel.sizeId)
  {
    hide AllItems, TakeGroups, ChargeBeyond, WithIncluded, FindSize, OfferOf, FindItem, StrayPick;
    SizesAreFound(offer.sizes, sel.sizeId);
  }

  lemma {:induction false} ChoicesAreFound(choices: seq<BuildChoice>, id: Id)
    ensures FindChoice(choices, id).Some? <==> exists c <- choices :: c.itemId == id
    decreases |choices|
  {
    if choices != [] {
      ChoicesAreFound(choices[..|choices|-1], id);
      assert choices == choices[..|choices|-1] + [choices[|choices|-1]];
    }
  }

  // --- what options cost ----------------------------------------------------------------------------

  /** The last price named for a size. */
  ghost predicate LastFor(prices: seq<OptionPrice>, size: Id, k: int) {
    && 0 <= k < |prices| && prices[k].sizeId == size
    && forall j :: k < j < |prices| ==> prices[j].sizeId != size
  }

  /** An option costs what it does at the size sold (the last price named for it), and its own price at any other. */
  lemma {:induction false} WhatAnOptionCosts(own: int, prices: seq<OptionPrice>, size: Id, k: int)
    ensures (size == NO_ID || forall p <- prices :: p.sizeId != size) ==> PriceForSize(own, prices, size) == own
    ensures size != NO_ID && LastFor(prices, size, k) ==> PriceForSize(own, prices, size) == prices[k].priceCents
    decreases |prices|
  {
    if prices != [] {
      var init, last := prices[..|prices|-1], prices[|prices|-1];
      WhatAnOptionCosts(own, init, size, k);
      assert last in prices;
      if last.sizeId == size { assert LastFor(prices, size, k) ==> k == |init|; }
    }
  }

  /** How many options some picks come to: each that the menu knows is one, in the order picked. */
  lemma {:induction false} PicksAreTaken(g: BuildGroup, size: Id, c: Chosen, picks: seq<Pick>)
    ensures var r := TakePicks(g, size, c, picks);
      && c.options <= r.options && c.issues <= r.issues
      && (forall o <- r.options[|c.options|..] :: !o.removedDefault && !o.included)
      && ((forall k :: 0 <= k < |picks| ==> IsKnown(g, picks[k])) ==>
            && |r.options| == |c.options| + |picks|
            && forall k :: 0 <= k < |picks| ==> IsTaken(g, size, picks[k], r.options[|c.options| + k]))
    decreases |picks|
  {
    hide PriceForSize, FindOption, SeenIds, IsTaken;
    if picks != [] {
      var init, pk := picks[..|picks|-1], picks[|picks|-1];
      PicksAreTaken(g, size, c, init);
      PickIsTaken(g, size, SeenIds(g, init), TakePicks(g, size, c, init), pk);
      assert forall k :: 0 <= k < |init| ==> init[k] == picks[k];
    }
  }

  /** The option a pick names, at its price for the size, on the half picked where halves are. */
  predicate IsTaken(g: BuildGroup, size: Id, pk: Pick, o: ResolvedOption) {
    match FindOption(g.options, pk.optionId)
    case None => false
    case Some(known) =>
      && o.name == known.name && o.priceCents == PriceForSize(known.priceCents, known.prices, size)
      && o.portion == if g.portions then pk.portion else Whole
  }

  lemma PickIsTaken(g: BuildGroup, size: Id, seen: set<Id>, c: Chosen, pk: Pick)
    ensures var r := TakePick(g, size, seen, c, pk);
      c.issues <= r.issues &&
      if IsKnown(g, pk) then
        && |r.options| == |c.options| + 1 && r.options[..|c.options|] == c.options
        && IsTaken(g, size, pk, r.options[|c.options|])
        && !r.options[|c.options|].removedDefault && !r.options[|c.options|].included
      else r.options == c.options
  {
    hide PriceForSize, FindOption;
  }

  /** The defaults a group's picks leave off: each that no pick names, in a group where several may be picked. */
  lemma {:induction false} DefaultsLeftOff(options: seq<BuildOption>, seen: set<Id>, name: string)
    ensures (exists o <- LeftOff(options, seen) :: o.name == name)
       <==> exists o <- options :: o.isDefault && o.id !in seen && o.name == name
    ensures forall o <- LeftOff(options, seen) :: o.removedDefault && o.priceCents == 0
    decreases |options|
  {
    if options != [] {
      var init, last := options[..|options|-1], options[|options|-1];
      DefaultsLeftOff(init, seen, name);
      assert options == init + [last];
      var off := LeftOff(init, seen);
      if last.isDefault && last.id !in seen {
        var o := ResolvedOption(last.name, Whole, 0, true, false);
        assert LeftOff(options, seen) == off + [o];
        assert o in off + [o];
      } else {
        assert LeftOff(options, seen) == off;
      }
    }
  }

  /** A group's options: those picked, and when more than one may be, the defaults left off. */
  lemma WhatAGroupTakes(m: Menu, size: Id, picks: seq<Pick>, c: Chosen, gid: Id)
    requires FindGroup(m.groups, gid).Some?
    ensures var g, mine := FindGroup(m.groups, gid).value, PicksIn(picks, gid);
      var r, taken := TakeGroup(m, size, picks, c, gid), TakePicks(g, size, c, mine);
      && r.extras == taken.extras
      && (g.maxSelect == 1 ==> r.options == taken.options)
      && (g.maxSelect != 1 ==> r.options == taken.options + LeftOff(g.options, SeenIds(g, mine)))
  {
  }

  // --- a bundle -------------------------------------------------------------------------------------

  /** Step by step: what is wrong with a bundle's earlier steps is reported before what is wrong with its later ones. */
  lemma IssuesStandAsTheSteps(ctx: Context, slots: seq<Slot>, picks: seq<Selection>, n: nat)
    requires n <= |slots|
    ensures StepsOf(ctx, slots[..n], picks).issues <= StepsOf(ctx, slots, picks).issues
    decreases |slots|
  {
    hide PriceItem, Matches;
    if n < |slots| {
      var init := slots[..|slots|-1];
      IssuesStandAsTheSteps(ctx, init, picks, n);
      assert init[..n] == slots[..n];
    } else {
      assert slots[..n] == slots;
    }
  }

  /** What a step of a bundle has wrong: no pick for it, or one with issues of its own, or a clean one that does not fit. */
  ghost predicate StepHas(ctx: Context, slots: seq<Slot>, picks: seq<Selection>, k: nat, i: Issue)
    requires k < |slots|
  {
    if k >= |picks| then i == DealSlot
    else
      var p := PriceItem(ctx.menu, picks[k], slots[k].includedOptions);
      || i in p.issues
      || (i == DealSlot && p.issues == [] && !Matches(slots[k].eligible, Unit(0, p.bankItem, CategoryOf(ctx, p.bankItem), p.sizeId)))
  }

  lemma {:induction false} IssuesOfSteps(ctx: Context, slots: seq<Slot>, picks: seq<Selection>, i: Issue)
    ensures i in StepsOf(ctx, slots, picks).issues <==> exists k :: 0 <= k < |slots| && StepHas(ctx, slots, picks, k, i)
    decreases |slots|
  {
    hide PriceItem, Matches;
    if slots != [] {
      var n := |slots| - 1;
      var init := slots[..n];
      IssuesOfSteps(ctx, init, picks, i);
      forall k | 0 <= k < n ensures StepHas(ctx, slots, picks, k, i) <==> StepHas(ctx, init, picks, k, i) {
        assert init[k] == slots[k];
      }
      assert i in StepsOf(ctx, slots, picks).issues <==> i in StepsOf(ctx, init, picks).issues || StepHas(ctx, slots, picks, n, i);
    }
  }

  /** Why a bundle cannot be ordered: it is gone or off, does not run now, or one of its steps has something wrong. */
  lemma WhyABundleCannotBeOrdered(ctx: Context, clock: Clock, orderType: OrderType, line: Line, i: Issue)
    requires line.dealId != NO_ID
    ensures i in PriceLine(ctx, clock, orderType, line).issues <==>
      match FindBundle(ctx.deals, line.dealId)
      case None => i == DealEnded
      case Some(d) =>
        if !d.active then i == DealEnded
        else || (i == DealNotNow && !Live(d, clock, orderType))
             || exists k :: 0 <= k < |d.slots| && StepHas(ctx, d.slots, line.picks, k, i)
  {
    hide StepsOf, FindBundle, Live, StepHas;
    BundleIssues(ctx, clock, orderType, line, i);
    hide PriceLine;
    var d := FindBundle(ctx.deals, line.dealId);
    if d.Some? { IssuesOfSteps(ctx, d.value.slots, line.picks, i); }
  }

  lemma BundleIssues(ctx: Context, clock: Clock, orderType: OrderType, line: Line, i: Issue)
    requires line.dealId != NO_ID
    ensures i in PriceLine(ctx, clock, orderType, line).issues <==>
      match FindBundle(ctx.deals, line.dealId)
      case None => i == DealEnded
      case Some(d) =>
        if !d.active then i == DealEnded
        else (i == DealNotNow && !Live(d, clock, orderType)) || i in StepsOf(ctx, d.slots, line.picks).issues
  {
    hide StepsOf, FindBundle, Live;
  }
}
