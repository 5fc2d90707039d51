/** The pricing engine as it runs: loops over the cart that arrive at the quote PricingCart.QuoteOf describes. */
module PricingEngine {
  import opened Options
  import opened Sequences
  import opened MenuBuild
  import opened PricingTypes
  import opened PricingItem
  import opened PricingCart
  import opened PricingMoney

  lemma {:induction false} FindItemAppend(items: seq<BuildItem>, it: BuildItem, id: Id)
    ensures FindItem(items + [it], id)
         == if FindItem(items, id).Some? then FindItem(items, id) else if it.id == id then Some(it) else None
  {
    if items == [] {
      assert [] + [it] == [it];
    } else {
      assert (items + [it])[1..] == items[1..] + [it];
      FindItemAppend(items[1..], it, id);
    }
  }

  /** A context with its menu indexed by id. */
  class Engine {
    const ctx: Context
    var items: map<Id, BuildItem>
    var groups: map<Id, BuildGroup>

    ghost predicate Indexed(all: seq<BuildItem>)
      reads `items
    {
      forall id :: FindItem(all, id) == if id in items then Some(items[id]) else None
    }

    ghost predicate Grouped(all: seq<BuildGroup>)
      reads `groups
    {
      forall id :: FindGroup(all, id) == if id in groups then Some(groups[id]) else None
    }

    ghost predicate Valid()
      reads `items, `groups
    {
      Indexed(AllItems(ctx.menu.categories)) && Grouped(ctx.menu.groups)
    }

    constructor (ctx: Context)
      ensures Valid() && this.ctx == ctx
    {
      this.ctx := ctx;
      items, groups := map[], map[];
      new;
      IndexItems();
      IndexGroups();
    }

    method IndexItems()
      requires items == map[]
      modifies `items
      ensures Indexed(AllItems(ctx.menu.categories))
    {
      hide FindItem;
      var cats := ctx.menu.categories;
      NoItems();
      for c := 0 to |cats|
        invariant Indexed(AllItems(cats[..c]))
      {
        AddCategory(AllItems(cats[..c]), cats[c].items);
        PrefixOfPrefix(cats, c);
      }
      assert cats[..|cats|] == cats;
    }

    lemma NoItems()
      requires items == map[]
      ensures Indexed([])
    {
    }

    method IndexGroups()
      requires groups == map[]
      modifies `groups
      ensures Grouped(ctx.menu.groups)
    {
      var gs := ctx.menu.groups;
      for g := 0 to |gs|
        invariant Grouped(gs[..g])
      {
        groups := groups[gs[g].id := gs[g]];
        PrefixOfPrefix(gs, g);
      }
      assert gs[..|gs|] == gs;
    }

    method AddCategory(ghost before: seq<BuildItem>, these: seq<BuildItem>)
      requires Indexed(before)
      modifies `items
      ensures Indexed(before + these)
    {
      hide FindItem;
      assert before + these[..0] == before;
      for i := 0 to |these|
        invariant Indexed(before + these[..i])
      {
        AddItem(before + these[..i], these[i]);
        assert before + these[..i+1] == before + these[..i] + [these[i]];
      }
      assert these[..|these|] == these;
    }

    method AddItem(ghost before: seq<BuildItem>, it: BuildItem)
      requires Indexed(before)
      modifies `items
      ensures Indexed(before + [it])
    {
      if it.id !in items {
        items := items[it.id := it];
      }
      forall id ensures FindItem(before + [it], id) == if id in items then Some(items[id]) else None {
        FindItemAppend(before, it, id);
      }
    }

    // --- one item --------------------------------------------------------------------------

    method Choose(choices: seq<BuildChoice>, id: Id) returns (ch: Option<BuildChoice>)
      ensures ch == FindChoice(choices, id)
    {
      ch := None;
      for i := 0 to |choices|
        invariant ch == FindChoice(choices[..i], id)
      {
        if choices[i].itemId == id { ch := Some(choices[i]); }
        assert choices[..i+1][..i] == choices[..i];
      }
      assert choices[..|choices|] == choices;
    }

    method ChooseSize(sizes: seq<BuildItemSize>, id: Id) returns (sz: Option<BuildItemSize>)
      requires sizes != []
      ensures sz == PickSize(sizes, id)
    {
      sz := if id == NO_ID then Some(sizes[0]) else None;
      ghost var first := sz;
      for i := 0 to |sizes|
        invariant sz == match FindSize(sizes[..i], id) case Some(s) => Some(s) case None => first
      {
        if sizes[i].sizeId == id { sz := Some(sizes[i]); }
        assert sizes[..i+1][..i] == sizes[..i];
      }
      assert sizes[..|sizes|] == sizes;
    }

    method ChooseOption(options: seq<BuildOption>, id: Id) returns (o: Option<BuildOption>)
      ensures o == FindOption(options, id)
    {
      o := None;
      for i := 0 to |options|
        invariant o == FindOption(options[..i], id)
      {
        if options[i].id == id { o := Some(options[i]); }
        assert options[..i+1][..i] == options[..i];
      }
      assert options[..|options|] == options;
    }

    method OptionCost(o: BuildOption, size: Id) returns (price: int)
      ensures price == PriceForSize(o.priceCents, o.prices, size)
    {
      price := o.priceCents;
      for i := 0 to |o.prices|
        invariant price == PriceForSize(o.priceCents, o.prices[..i], size)
      {
        if size != NO_ID && o.prices[i].sizeId == size { price := o.prices[i].priceCents; }
        assert o.prices[..i+1][..i] == o.prices[..i];
      }
      assert o.prices[..|o.prices|] == o.prices;
    }

    method MyPicks(picks: seq<Pick>, group: Id) returns (mine: seq<Pick>)
      ensures mine == PicksIn(picks, group)
    {
      mine := [];
      for i := 0 to |picks|
        invariant mine == PicksIn(picks[..i], group)
      {
        if picks[i].groupId == group { mine := mine + [picks[i]]; }
        assert picks[..i+1][..i] == picks[..i];
      }
      assert picks[..|picks|] == picks;
    }

    method ChooseOne(g: BuildGroup, size: Id, seen: set<Id>, before: Chosen, pk: Pick)
      returns (c: Chosen, named: set<Id>)
      ensures c == TakePick(g, size, seen, before, pk)
      ensures named == seen + if FindOption(g.options, pk.optionId).Some? then {pk.optionId} else {}
    {
      c, named := before, seen;
      var o := ChooseOption(g.options, pk.optionId);
      if o == None {
        c := c.(issues := c.issues + [UnknownOption]);
      } else {
        var issues: seq<Issue> := [];
        if pk.optionId in seen && !g.allowMultiple { issues := [OptionRules]; }
        named := seen + {pk.optionId};
        c := c.(issues := c.issues + issues + if o.value.soldOut then [SoldOut] else []);
        var price := OptionCost(o.value, size);
        c := c.(extras := c.extras + if price > 0 then [price] else []);
        var portion := if g.portions then pk.portion else Whole;
        c := c.(options := c.options + [ResolvedOption(o.value.name, portion, price, false, false)]);
      }
    }

    method ChoosePicks(g: BuildGroup, size: Id, start: Chosen, picks: seq<Pick>) returns (c: Chosen, seen: set<Id>)
      ensures c == TakePicks(g, size, start, picks) && seen == SeenIds(g, picks)
    {
      c, seen := start, {};
      for i := 0 to |picks|
        invariant c == TakePicks(g, size, start, picks[..i]) && seen == SeenIds(g, picks[..i])
      {
        assert picks[..i+1][..i] == picks[..i];
        SeenOneMore(g, picks[..i], picks[i]);
        assert picks[..i+1] == picks[..i] + [picks[i]];
        c, seen := ChooseOne(g, size, seen, c, picks[i]);
      }
      assert picks[..|picks|] == picks;
    }

    /** One group: its picks, and where several may be picked the defaults no pick named. */
    method ChooseFrom(g: BuildGroup, size: Id, start: Chosen, picks: seq<Pick>) returns (c: Chosen)
      ensures var c1 := TakePicks(g, size, start, picks);
        c == c1.(options := c1.options + if g.maxSelect != 1 then LeftOff(g.options, SeenIds(g, picks)) else [])
    {
      var seen;
      c, seen := ChoosePicks(g, size, start, picks);
      if g.maxSelect != 1 {
        var off: seq<ResolvedOption> := [];
        for i := 0 to |g.options|
          invariant off == LeftOff(g.options[..i], seen)
        {
          assert g.options[..i+1][..i] == g.options[..i];
          if g.options[i].isDefault && g.options[i].id !in seen {
            off := off + [ResolvedOption(g.options[i].name, Whole, 0, true, false)];
          }
        }
        assert g.options[..|g.options|] == g.options;
        c := c.(options := c.options + off);
      } else {
        assert c.options + [] == c.options;
      }
    }

    method ChooseGroup(gid: Id, size: Id, picks: seq<Pick>, start: Chosen) returns (c: Chosen)
      requires Valid()
      ensures c == TakeGroup(ctx.menu, size, picks, start, gid)
    {
      hide TakePicks, LeftOff, FindGroup, AllItems, PicksIn, SeenIds;
      c := start;
      assert FindGroup(ctx.menu.groups, gid) == if gid in groups then Some(groups[gid]) else None;
      if gid !in groups { return; }
      var g := groups[gid];
      var mine := MyPicks(picks, g.id);
      c := ChooseFrom(g, size, c, mine);
      var least := if g.required && g.minSelect < 1 then 1 else g.minSelect;
      var issues := if |mine| < least then [OptionRules] else [];
      issues := issues + if g.maxSelect > 0 && |mine| > g.maxSelect then [OptionRules] else [];
      c := c.(issues := c.issues + issues);
    }

    method ChooseAll(gids: seq<Id>, size: Id, picks: seq<Pick>, start: Chosen) returns (c: Chosen)
      requires Valid()
      ensures c == TakeGroups(ctx.menu, size, picks, start, gids)
    {
      hide TakeGroup, Valid;
      c := start;
      for i := 0 to |gids|
        invariant c == TakeGroups(ctx.menu, size, picks, start, gids[..i])
      {
        assert gids[..i+1][..i] == gids[..i];
        c := ChooseGroup(gids[i], size, picks, c);
      }
      assert gids[..|gids|] == gids;
    }

    method Stray(picks: seq<Pick>, gids: seq<Id>) returns (stray: bool)
      ensures stray == StrayPick(picks, gids)
    {
      for i := 0 to |picks|
        invariant forall k :: 0 <= k < i ==> picks[k].groupId in gids
      {
        if picks[i].groupId !in gids { return true; }
      }
      return false;
    }

    method ChargeExtras(prices: seq<int>, free: int) returns (extras: int)
      ensures extras == ChargeBeyond(prices, free)
    {
      hide SortBy, Sum;
      var sorted := SortBy(prices, Down);
      extras := 0;
      assert Sum(Drop(sorted[..0], free)) == 0 by { EmptySum(); }
      for i := 0 to |sorted|
        invariant extras == Sum(Drop(sorted[..i], free))
      {
        if i >= free {
          SumWithLast(Drop(sorted[..i], free), sorted[i]);
          assert Drop(sorted[..i+1], free) == Drop(sorted[..i], free) + [sorted[i]];
          extras := extras + sorted[i];
        } else {
          assert Drop(sorted[..i+1], free) == Drop(sorted[..i], free);
        }
      }
      assert sorted[..|sorted|] == sorted;
    }

    method ChargedOptions(options: seq<ResolvedOption>) returns (charged: seq<Charged>)
      ensures charged == ChargedOf(options)
    {
      charged := [];
      for i := 0 to |options|
        invariant charged == ChargedOf(options[..i])
      {
        assert options[..i+1][..i] == options[..i];
        if options[i].priceCents > 0 && !options[i].removedDefault {
          charged := charged + [Charged(i, options[i].priceCents)];
        }
      }
      assert options[..|options|] == options;
    }

    method MarkPriciest(options: seq<ResolvedOption>, charged: seq<Charged>, free: int)
      returns (marked: seq<ResolvedOption>)
      requires forall c :: c in charged ==> c.index < |options|
      ensures marked == MarkIncluded(options, Take(charged, free))
    {
      marked := options;
      for k := 0 to |charged|
        invariant marked == MarkIncluded(options, Take(charged[..k], free))
      {
        if k < free {
          assert Take(charged[..k+1], free) == Take(charged[..k], free) + [charged[k]];
          assert Take(charged[..k+1], free)[..k] == Take(charged[..k], free);
          var i := charged[k].index;
          marked := marked[i := marked[i].(included := true)];
        } else {
          assert Take(charged[..k+1], free) == Take(charged[..k], free);
        }
      }
      assert charged[..|charged|] == charged;
    }

    /** Decides between a merge's choice, a bank item and an augment. */
    method OfferFor(it: BuildItem, choiceId: Id) returns (offer: Option<Offer>)
      ensures offer == OfferOf(it, choiceId)
    {
      if it.choices != [] {
        var ch := Choose(it.choices, choiceId);
        if ch == None { return None; }
        var c := ch.value;
        return Some(Offer(c.sizes, c.priceCents, c.soldOut, c.itemId, c.itemId, c.name));
      }
      var bankItem, rateItem := NO_ID, NO_ID;
      if it.anchor != [] && it.anchor[0] == it.id {
        bankItem, rateItem := it.id, it.id;
      } else if it.anchor != [] {
        rateItem := it.anchor[0];
      }
      return Some(Offer(it.sizes, it.priceCents, it.soldOut, bankItem, rateItem, ""));
    }

    method ConfigureItem(it: BuildItem, offer: Offer, base: int, size: Id, sizeName: string, picks: seq<Pick>, free: int)
      returns (p: Priced)
      requires Valid()
      ensures p == Configure(ctx.menu, it, offer, base, size, sizeName, picks, free)
    {
      var c := ChooseAll(it.groupIds, size, picks, Chosen([], [], if offer.soldOut then [SoldOut] else []));
      var stray := Stray(picks, it.groupIds);
      var issues := c.issues + if stray then [UnknownOption] else [];
      var extras := ChargeExtras(c.extras, free);
      var charged := ChargedOptions(c.options);
      SortByMembers(charged, PriciestFirst);
      var options := MarkPriciest(c.options, SortBy(charged, PriciestFirst), free);
      return Priced(it.name, offer.choice, offer.bankItem, offer.rateItem, size, sizeName, base, extras, base + extras,
                    options, issues);
    }

    /** A selection, priced; `free` is how many of its dearest options cost nothing. */
    method PriceOne(sel: Selection, free: int) returns (p: Priced)
      requires Valid()
      ensures p == PriceItem(ctx.menu, sel, free)
    {
      assert FindItem(AllItems(ctx.menu.categories), sel.itemId)
          == if sel.itemId in items then Some(items[sel.itemId]) else None;
      if sel.itemId !in items { return Unpriced("Unknown item", NO_ID, NO_ID, "", UnknownItem); }
      var it := items[sel.itemId];
      var offered := OfferFor(it, sel.choiceId);
      if offered == None { return Unpriced(it.name, NO_ID, NO_ID, "", OptionRules); }
      var offer := offered.value;
      if offer.sizes != [] {
        var sz := ChooseSize(offer.sizes, sel.sizeId);
        if sz == None { return Unpriced(it.name, offer.bankItem, offer.rateItem, offer.choice, UnknownSize); }
        p := ConfigureItem(it, offer, sz.value.priceCents, sz.value.sizeId, sz.value.name, sel.options, free);
      } else if sel.sizeId != NO_ID {
        return Unpriced(it.name, offer.bankItem, offer.rateItem, offer.choice, UnknownSize);
      } else {
        p := ConfigureItem(it, offer, offer.base, NO_ID, "", sel.options, free);
      }
    }

    // --- the cart's lines --------------------------------------------------------------------

    method ItemLine(line: Line, qty: nat) returns (t: Tally)
      requires Valid() && qty == ClampQty(line.qty)
      ensures t == PriceItemLine(ctx, line)
    {
      var p := PriceOne(line.selection, 0);
      var units: seq<Unit> := [];
      if p.bankItem != NO_ID && p.issues == [] {
        var u := Unit(p.unit, p.bankItem, CategoryOf(ctx, p.bankItem), p.sizeId);
        for k := 0 to qty
          invariant units == Repeat(u, k)
        {
          units := units + [u];
        }
      }
      t := Tally([QuoteLine(p.name, qty, p.unit, p.unit * qty, NO_ID)], units,
                 [Taxed(p.unit * qty, RateOf(ctx, p.rateItem))], 0, false, p.issues);
    }

    method LastBundle(id: Id) returns (d: Option<Deal>)
      ensures d == FindBundle(ctx.deals, id)
    {
      d := None;
      for k := 0 to |ctx.deals|
        invariant d == FindBundle(ctx.deals[..k], id)
      {
        assert ctx.deals[..k+1][..k] == ctx.deals[..k];
        if ctx.deals[k].id == id && ctx.deals[k].kind == Bundle { d := Some(ctx.deals[k]); }
      }
      assert ctx.deals[..|ctx.deals|] == ctx.deals;
    }

    method OneStep(slot: Slot, pick: Selection, before: Steps) returns (s: Steps)
      requires Valid()
      ensures var p := PriceItem(ctx.menu, pick, slot.includedOptions);
        var fits := Matches(slot.eligible, Unit(0, p.bankItem, CategoryOf(ctx, p.bankItem), p.sizeId));
        s == Steps(before.extras + p.extras, before.regular + PriceItem(ctx.menu, pick, 0).unit,
                   if before.rateItem == NO_ID then p.rateItem else before.rateItem,
                   before.issues + p.issues + if p.issues == [] && !fits then [DealSlot] else [])
    {
      hide PriceItem, Valid;
      var p := PriceOne(pick, slot.includedOptions);
      var alone := PriceOne(pick, 0);
      var misfit: seq<Issue> := [];
      if p.issues == [] && !Matches(slot.eligible, Unit(0, p.bankItem, CategoryOf(ctx, p.bankItem), p.sizeId)) {
        misfit := [DealSlot];
      }
      var rateItem := before.rateItem;
      if rateItem == NO_ID { rateItem := p.rateItem; }
      s := Steps(before.extras + p.extras, before.regular + alone.unit, rateItem, before.issues + p.issues + misfit);
    }

    method AllSteps(slots: seq<Slot>, picks: seq<Selection>) returns (s: Steps)
      requires Valid()
      ensures s == StepsOf(ctx, slots, picks)
    {
      hide PriceItem, Valid, Matches;
      s := Steps(0, 0, NO_ID, []);
      for k := 0 to |slots|
        invariant s == StepsOf(ctx, slots[..k], picks)
      {
        assert slots[..k+1][..k] == slots[..k];
        if k >= |picks| {
          s := s.(issues := s.issues + [DealSlot]);
        } else {
          s := OneStep(slots[k], picks[k], s);
        }
      }
      assert slots[..|slots|] == slots;
    }

    method BundleLine(clock: Clock, orderType: OrderType, line: Line, qty: nat) returns (t: Tally)
      requires Valid() && qty == ClampQty(line.qty)
      ensures t == PriceBundleLine(ctx, clock, orderType, line)
    {
      hide Live, StepsOf, FindBundle, Indexed, Grouped, EndedDeal, RateOf;
      var found := LastBundle(line.dealId);
      if found == None || !found.value.active { return EndedDeal(line.dealId, qty); }
      var d := found.value;
      var issues: seq<Issue> := [];
      if !Live(d, clock, orderType) { issues := [DealNotNow]; }
      var s := AllSteps(d.slots, line.picks);
      var unit := d.priceCents + s.extras;
      var saved := 0;
      if s.regular > unit { saved := (s.regular - unit) * qty; }
      t := Tally([QuoteLine(d.name, qty, unit, unit * qty, d.id)], [], [Taxed(unit * qty, RateOf(ctx, s.rateItem))],
                 saved, true, issues + s.issues);
    }

    method Lines(clock: Clock, orderType: OrderType, lines: seq<Line>) returns (t: Tally)
      requires Valid()
      ensures t == TallyLines(ctx, clock, orderType, lines)
    {
      t := NOTHING;
      for i := 0 to |lines|
        invariant t == TallyLines(ctx, clock, orderType, lines[..i])
      {
        assert lines[..i+1][..i] == lines[..i];
        var qty := lines[i].qty;
        if qty < 1 { qty := 1; }
        if qty > 50 { qty := 50; }
        var one;
        if lines[i].dealId == NO_ID {
          one := ItemLine(lines[i], qty);
        } else {
          one := BundleLine(clock, orderType, lines[i], qty);
        }
        t := Combine(t, one);
      }
      assert lines[..|lines|] == lines;
    }

    // --- the discounts -----------------------------------------------------------------------

    method Eligibles(units: seq<Unit>, el: Eligible) returns (es: seq<Unit>)
      ensures es == EligibleUnits(units, el)
    {
      es := [];
      for i := 0 to |units|
        invariant es == EligibleUnits(units[..i], el)
      {
        assert units[..i+1][..i] == units[..i];
        if Matches(el, units[i]) { es := es + [units[i]]; }
      }
      assert units[..|units|] == units;
    }

    method MixAmount(prices: seq<int>, each: int) returns (amount: int)
      ensures amount == MixOff(prices, each)
    {
      amount := 0;
      for i := 0 to |prices|
        invariant amount == MixOff(prices[..i], each)
      {
        assert prices[..i+1][..i] == prices[..i];
        if prices[i] > each { amount := amount + prices[i] - each; }
      }
      assert prices[..|prices|] == prices;
    }

    method NthAmount(prices: seq<int>, n: int, pct: int) returns (amount: int)
      requires n >= 1
      ensures amount == NthOff(prices, n, pct)
    {
      amount := 0;
      var k := n - 1;
      while k < |prices|
        invariant n - 1 <= k < |prices| + n
        invariant NthOff(prices, n, pct) == amount + NthOff(prices[k-n+1..], n, pct)
        decreases |prices| - k
      {
        var rest := prices[k-n+1..];
        assert rest[n-1] == prices[k] && rest[n..] == prices[k+1..];
        amount := amount + Pct(prices[k], pct * 100);
        k := k + n;
      }
    }

    method CheapestOf(prices: seq<int>) returns (least: int)
      requires prices != []
      ensures least == Cheapest(prices)
    {
      least := prices[0];
      for i := 1 to |prices|
        invariant least == Cheapest(prices[..i])
      {
        assert prices[..i+1][..i] == prices[..i];
        if prices[i] < least { least := prices[i]; }
      }
      assert prices[..|prices|] == prices;
    }

    method DealAmountOf(d: Deal, clock: Clock, orderType: OrderType, units: seq<Unit>, sub: int) returns (amount: int)
      ensures amount == AutoAmount(d, clock, orderType, units, sub)
    {
      amount := 0;
      if !Live(d, clock, orderType) || d.eligible == None { return; }
      var es := Eligibles(units, d.eligible.value);
      var prices := Keys(es, UnitPrice);
      match d.kind {
        case Mix => if d.qty > 0 && |prices| >= d.qty { amount := MixAmount(prices, d.eachCents); }
        case Nth =>
          if d.n < 1 { return; }
          amount := NthAmount(SortBy(prices, Down), d.n, d.pct);
        case FreeItem => if prices != [] && sub >= d.minSubtotalCents { amount := CheapestOf(prices); }
        case _ =>
      }
    }

    method AutomaticDeals(clock: Clock, orderType: OrderType, units: seq<Unit>, sub: int) returns (autos: seq<Discount>)
      ensures autos == Autos(ctx.deals, clock, orderType, units, sub)
    {
      hide AutoAmount;
      autos := [];
      for i := 0 to |ctx.deals|
        invariant autos == Autos(ctx.deals[..i], clock, orderType, units, sub)
      {
        assert ctx.deals[..i+1][..i] == ctx.deals[..i];
        var d := ctx.deals[i];
        var amount := DealAmountOf(d, clock, orderType, units, sub);
        if amount > 0 { autos := autos + [Discount(DealDiscount, d.id, d.name, amount)]; }
      }
      assert ctx.deals[..|ctx.deals|] == ctx.deals;
    }

    method PromoCode(clock: Clock, terms: Terms, sub: int) returns (code: CodeOutcome)
      ensures code == CodeOf(ctx, clock, terms, sub)
    {
      if terms.code == "" { return NoCode; }
      var found: Option<Deal> := None;
      for k := 0 to |ctx.deals|
        invariant found == FindCode(ctx.deals[..k], terms.code)
      {
        assert ctx.deals[..k+1][..k] == ctx.deals[..k];
        if ctx.deals[k].kind == Code && ctx.deals[k].code == terms.code { found := Some(ctx.deals[k]); }
      }
      assert ctx.deals[..|ctx.deals|] == ctx.deals;
      if found == None || !Live(found.value, clock, terms.orderType) { return Refused(CodeInvalid); }
      var d := found.value;
      if sub < d.minSubtotalCents { return Refused(CodeMinimum); }
      if d.firstOrderOnly && terms.firstOrder == Some(false) { return Refused(CodeFirst); }
      var amount := d.amountCents;
      if d.pct > 0 { amount := Pct(sub, d.pct * 100); }
      if amount > sub { amount := sub; }
      return Granted(Discount(CodeDiscount, d.id, terms.code, amount));
    }

    method BestAuto(autos: seq<Discount>) returns (best: Option<Discount>)
      ensures best == BestOf(autos)
    {
      best := None;
      for k := 0 to |autos|
        invariant best == BestOf(autos[..k])
      {
        assert autos[..k+1][..k] == autos[..k];
        if best == None || autos[k].amountCents > best.value.amountCents { best := Some(autos[k]); }
      }
      assert autos[..|autos|] == autos;
    }

    method ChooseDiscounts(hasBundle: bool, autos: seq<Discount>, code: CodeOutcome) returns (ds: seq<Discount>)
      ensures ds == Applied(ctx.settings.stacking, hasBundle, autos, code)
    {
      if ctx.settings.stacking == Stack {
        ds := autos;
        if code.Granted? { ds := ds + [code.discount]; } else { assert autos + [] == autos; }
        return;
      }
      if ctx.settings.stacking == Single && hasBundle { return []; }
      var best := BestAuto(autos);
      if best != None && code.Granted? && code.discount.amountCents >= best.value.amountCents {
        return [code.discount];
      } else if best != None {
        return [best.value];
      } else if code.Granted? {
        return [code.discount];
      }
      return [];
    }

    /** Cuts the discounts down in their own list. */
    method ClampInPlace(ds: seq<Discount>, food: int) returns (clamped: seq<Discount>, left: int)
      ensures clamped == Clamp(ds, food) && left == food - Sum(Amounts(clamped))
    {
      hide Sum, Clamp;
      clamped, left := ds, food;
      ClampNothing(food);
      for k := 0 to |ds|
        invariant clamped == Clamp(ds[..k], food) + ds[k..]
        invariant left == food - Sum(Amounts(Clamp(ds[..k], food)))
      {
        ghost var before := Clamp(ds[..k], food);
        ClampOneMore(ds, k, food);
        ReplaceHead(before, ds, k, ds[k].(amountCents := Min(ds[k].amountCents, left)));
        if clamped[k].amountCents > left { clamped := clamped[k := clamped[k].(amountCents := left)]; }
        left := left - clamped[k].amountCents;
      }
      assert ds[..|ds|] == ds;
    }

    // --- tax -----------------------------------------------------------------------------------

    method GroupByRate(taxed: seq<Taxed>) returns (byRate: map<int, int>, rates: seq<int>)
      ensures rates == RatesOf(taxed)
      ensures forall r :: r in byRate <==> r in rates
      ensures forall r :: r in byRate ==> byRate[r] == GrossAt(taxed, r)
    {
      byRate, rates := map[], [];
      for i := 0 to |taxed|
        invariant rates == RatesOf(taxed[..i])
        invariant forall r :: r in byRate <==> r in rates
        invariant forall r :: GrossAt(taxed[..i], r) == if r in byRate then byRate[r] else 0
      {
        assert taxed[..i+1][..i] == taxed[..i];
        var rate := taxed[i].rate;
        if rate !in byRate {
          rates := rates + [rate];
          byRate := byRate[rate := 0];
        }
        byRate := byRate[rate := byRate[rate] + taxed[i].total];
      }
      assert taxed[..|taxed|] == taxed;
    }

    method TaxFood(taxed: seq<Taxed>, sub: int, off: int) returns (tax: int)
      ensures tax == FoodTax(taxed, sub, off)
    {
      hide Sum, Shares, SortBy, RatesOf, GrossAt;
      var byRate, rates := GroupByRate(taxed);
      SortByMembers(rates, Same);
      rates := SortBy(rates, Same);
      ghost var g := Grosses(taxed, rates);
      ghost var taxes := FoodTaxes(Bases(g, sub, off), rates);
      var spread := 0;
      tax := 0;
      NoShares(g, sub, off);
      for k := 0 to |rates|
        invariant spread == Sum(Shares(g, k, sub, off))
        invariant tax == Sum(taxes[..k])
      {
        assert rates[k] in rates;
        var gross := byRate[rates[k]];
        var share := 0;
        if sub > 0 {
          if k == |rates| - 1 { share := off - spread; } else { share := GoDiv(off * gross, sub); }
        }
        ShareStep(g, k, sub, off, share);
        spread := spread + share;
        tax := tax + Pct(gross - share, rates[k]);
        assert taxes[..k+1] == taxes[..k] + [taxes[k]];
        SumWithLast(taxes[..k], taxes[k]);
      }
      assert taxes[..|rates|] == taxes;
    }

    // --- the quote -----------------------------------------------------------------------------

    method Tip(terms: Terms, after: int) returns (tip: int)
      ensures tip == TipOf(ctx.settings, terms, after)
    {
      tip := 0;
      if ctx.settings.tips.enabled {
        if terms.tipCents.Some? && terms.tipCents.value >= 0 { return terms.tipCents.value; }
        var pct := ctx.settings.tips.defaultPct;
        if terms.tipPct.Some? && 0 <= terms.tipPct.value <= 100 { pct := terms.tipPct.value; }
        tip := Pct(after, pct * 100);
      }
    }

    method Issues(ghost clock: Clock, t: Tally, terms: Terms, code: CodeOutcome, food: int)
      returns (issues: seq<Issue>)
      requires code == CodeOf(ctx, clock, terms, Sum(Totals(t.lines)))
      requires food == FoodToPay(ctx, clock, terms, t)
      ensures issues == OrderIssues(ctx, clock, terms, t)
    {
      hide CodeOf, FoodToPay, Sum;
      issues := if t.lines == [] then [Empty] else [];
      issues := issues + if code.Refused? then [code.issue] else [];
      issues := issues + if ctx.settings.stacking == Single && t.hasBundle && code.Granted? then [CodeAlone] else [];
      var typeIssue: seq<Issue> := [];
      match terms.orderType {
        case Pickup => if !ctx.types.pickup { typeIssue := [TypeOff]; }
        case Delivery => if !ctx.types.delivery { typeIssue := [TypeOff]; }
        case _ => typeIssue := [BadType];
      }
      issues := issues + typeIssue;
      issues := issues + if Delivers(ctx, terms) && t.lines != [] && food < ctx.settings.deliveryMinCents
                         then [DeliveryMin] else [];
    }

    method Subtotal(lines: seq<QuoteLine>) returns (sub: int)
      ensures sub == Sum(Totals(lines))
    {
      sub := 0;
      for i := 0 to |lines|
        invariant sub == Sum(Totals(lines[..i]))
      {
        assert Totals(lines[..i+1]) == Totals(lines[..i]) + [lines[i].totalCents];
        SumWithLast(Totals(lines[..i]), lines[i].totalCents);
        sub := sub + lines[i].totalCents;
      }
      assert lines[..|lines|] == lines;
    }

    method TakenOff(ds: seq<Discount>) returns (off: int)
      ensures off == Sum(Amounts(ds))
    {
      off := 0;
      for i := 0 to |ds|
        invariant off == Sum(Amounts(ds[..i]))
      {
        assert Amounts(ds[..i+1]) == Amounts(ds[..i]) + [ds[i].amountCents];
        SumWithLast(Amounts(ds[..i]), ds[i].amountCents);
        off := off + ds[i].amountCents;
      }
      assert ds[..|ds|] == ds;
    }

    /** The whole quote. */
    method PriceCart(clock: Clock, cart: Cart) returns (q: Quote)
      requires Valid()
      ensures q == QuoteOf(ctx, clock, cart)
    {
      hide TallyLines, Sum, Autos, CodeOf, Applied, Clamp, FoodTax, AddUp, OrderIssues, AfterDiscounts;
      var terms := cart.terms;
      var t := Lines(clock, terms.orderType, cart.lines);
      var sub := Subtotal(t.lines);
      var autos := AutomaticDeals(clock, terms.orderType, t.units, sub);
      var code := PromoCode(clock, terms, sub);
      var chosen := ChooseDiscounts(t.hasBundle, autos, code);
      var discounts, food := ClampInPlace(chosen, sub);
      var issues := Issues(clock, t, terms, code, food);
      q := Settle(terms, t, sub, discounts, food, t.issues + issues);
    }

    method Settle(terms: Terms, t: Tally, sub: int, ds: seq<Discount>, food: int, errors: seq<Issue>) returns (q: Quote)
      requires sub == Sum(Totals(t.lines)) && food == sub - Sum(Amounts(ds))
      ensures var after := AfterDiscounts(ctx.settings, terms, food);
        var m := AddUp(ctx, terms, sub, t.lines != [], ds, FoodTax(t.taxed, sub, sub - after), t.saved);
        q == Quote(t.lines, m.subtotal, m.discounts, m.delivery, m.service, m.tax, m.tip, m.cardFee, m.total, m.saved,
                   errors)
    {
      hide Sum, FoodTax, TipOf, Pct;
      var st := ctx.settings;
      var discounts, after := ds, food;
      var delivery := 0;
      if terms.orderType == Delivery && ctx.types.delivery {
        delivery := st.deliveryFeeCents;
        if st.freeDeliveryOverCents.Some? && food >= st.freeDeliveryOverCents.value { delivery := 0; }
      }
      if st.cardFee.mode == CashDiscount && terms.cash && after > 0 {
        var cash := Pct(after, st.cardFee.bps);
        discounts := discounts + [Discount(CashDiscountKind, NO_ID, "Cash discount", cash)];
        after := after - cash;
      }
      var service := 0;
      if t.lines != [] { service := st.serviceFeeCents + Pct(after, st.serviceFeeBps); }
      var tax := TaxFood(t.taxed, sub, sub - after);
      tax := tax + Pct(service, st.taxBps);
      var tip := Tip(terms, after);
      var cardFee := 0;
      if st.cardFee.mode == Surcharge && !terms.cash {
        cardFee := Pct(after + delivery + service + tax, st.cardFee.bps);
      }
      var off := TakenOff(discounts);
      q := Quote(t.lines, sub, discounts, delivery, service, tax, tip, cardFee,
                 after + delivery + service + tax + tip + cardFee, t.saved + off, errors);
    }
  }


  lemma SeenOneMore(g: BuildGroup, picks: seq<Pick>, pk: Pick)
    ensures SeenIds(g, picks + [pk])
         == SeenIds(g, picks) + if FindOption(g.options, pk.optionId).Some? then {pk.optionId} else {}
  {
    assert forall p :: p in picks + [pk] <==> p in picks || p == pk;
  }

  lemma ReplaceHead<T>(before: seq<T>, s: seq<T>, k: nat, x: T)
    requires k == |before| < |s|
    ensures (before + s[k..])[k] == s[k]
    ensures (before + s[k..])[k := x] == before + [x] + s[k+1..]
    ensures x == s[k] ==> before + s[k..] == before + [x] + s[k+1..]
  {
  }

  lemma ClampNothing(food: int)
    ensures Clamp([], food) == [] && Sum(Amounts([])) == 0
  {
  }

  lemma ClampOneMore(ds: seq<Discount>, k: nat, food: int)
    requires k < |ds|
    ensures var before := Clamp(ds[..k], food);
      var left := food - Sum(Amounts(before));
      var last := ds[k].(amountCents := Min(ds[k].amountCents, left));
      && Clamp(ds[..k+1], food) == before + [last]
      && Sum(Amounts(Clamp(ds[..k+1], food))) == Sum(Amounts(before)) + last.amountCents
  {
    var before := Clamp(ds[..k], food);
    var left := food - Sum(Amounts(before));
    var last := ds[k].(amountCents := Min(ds[k].amountCents, left));
    assert ds[..k+1][..k] == ds[..k];
    assert Amounts(before + [last]) == Amounts(before) + [last.amountCents];
    SumWithLast(Amounts(before), last.amountCents);
  }

  lemma NoShares(g: seq<int>, sub: int, off: int)
    ensures Sum(Shares(g, 0, sub, off)) == 0 && Sum([]) == 0
  {
  }

  lemma ShareStep(g: seq<int>, k: nat, sub: int, off: int, share: int)
    requires k < |g|
    requires share == if sub <= 0 then 0
                      else if k == |g| - 1 then off - Sum(Shares(g, k, sub, off))
                      else GoDiv(off * g[k], sub)
    ensures Sum(Shares(g, k + 1, sub, off)) == Sum(Shares(g, k, sub, off)) + share
    ensures Bases(g, sub, off)[k] == g[k] - share
  {
    assert Shares(g, k + 1, sub, off) == Shares(g, k, sub, off) + [share];
    SumWithLast(Shares(g, k, sub, off), share);
    SharesPrefix(g, k + 1, |g|, sub, off);
    assert Shares(g, |g|, sub, off)[k] == Shares(g, |g|, sub, off)[..k+1][k];
  }
}
