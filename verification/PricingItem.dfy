/** Pricing one configured item (the engine's price method) and what its options add up to. */
module PricingItem {
  import opened Options
  import opened Sequences
  import opened MenuBuild
  import opened PricingTypes

  /** An option in a priced selection. removedDefault: a default nobody picked; included: free because it is among the dearest. */
  datatype ResolvedOption =
    ResolvedOption(name: string, portion: Portion, priceCents: int, removedDefault: bool, included: bool)

  /** One configured item. bankItem: what deals see; rateItem: whose tax and printer apply (NO_ID = none). */
  datatype Priced = Priced(
    name: string, choice: string, bankItem: Id, rateItem: Id, sizeId: Id, sizeName: string, base: int, extras: int,
    unit: int, options: seq<ResolvedOption>, issues: seq<Issue>)

  // --- looking things up ---------------------------------------------------------------

  /** The first item with an id. */
  function FindItem(items: seq<BuildItem>, id: Id): (r: Option<BuildItem>)
    ensures r.Some? ==> r.value in items && r.value.id == id
    ensures r.None? ==> forall it :: it in items ==> it.id != id
  {
    if items == [] then None
    else if items[0].id == id then Some(items[0])
    else FindItem(items[1..], id)
  }

  /** The last group with an id. */
  function FindGroup(groups: seq<BuildGroup>, id: Id): (r: Option<BuildGroup>)
    ensures r.Some? ==> r.value in groups && r.value.id == id
    ensures r.None? ==> forall g :: g in groups ==> g.id != id
  {
    if groups == [] then None
    else if groups[|groups|-1].id == id then Some(groups[|groups|-1])
    else FindGroup(groups[..|groups|-1], id)
  }

  function FindChoice(choices: seq<BuildChoice>, id: Id): (r: Option<BuildChoice>)
    ensures r.Some? ==> r.value in choices && r.value.itemId == id
  {
    if choices == [] then None
    else if choices[|choices|-1].itemId == id then Some(choices[|choices|-1])
    else FindChoice(choices[..|choices|-1], id)
  }

  function FindOption(options: seq<BuildOption>, id: Id): (r: Option<BuildOption>)
    ensures r.Some? ==> r.value in options && r.value.id == id
  {
    if options == [] then None
    else if options[|options|-1].id == id then Some(options[|options|-1])
    else FindOption(options[..|options|-1], id)
  }

  function FindSize(sizes: seq<BuildItemSize>, id: Id): (r: Option<BuildItemSize>)
    ensures r.Some? ==> r.value in sizes && r.value.sizeId == id
  {
    if sizes == [] then None
    else if sizes[|sizes|-1].sizeId == id then Some(sizes[|sizes|-1])
    else FindSize(sizes[..|sizes|-1], id)
  }

  /** The size picked: the one asked for, else (none asked for) the first. */
  function PickSize(sizes: seq<BuildItemSize>, id: Id): (r: Option<BuildItemSize>)
    ensures r.Some? ==> r.value in sizes
  {
    match FindSize(sizes, id)
    case Some(s) => Some(s)
    case None => if id == NO_ID && sizes != [] then Some(sizes[0]) else None
  }

  /** What an option costs at a size; without a size, or a price for it, its own price. */
  function PriceForSize(own: int, prices: seq<OptionPrice>, size: Id): int {
    if prices == [] || size == NO_ID then own
    else if prices[|prices|-1].sizeId == size then prices[|prices|-1].priceCents
    else PriceForSize(own, prices[..|prices|-1], size)
  }

  // --- what is sold --------------------------------------------------------------------

  /** What the line sells before size and options. */
  datatype Offer =
    Offer(sizes: seq<BuildItemSize>, base: int, soldOut: bool, bankItem: Id, rateItem: Id, choice: string)

  /** A combined item needs one of its choices (None otherwise); an added item is taxed like its first and earns no deals. */
  function OfferOf(it: BuildItem, choiceId: Id): Option<Offer> {
    if it.choices != [] then
      match FindChoice(it.choices, choiceId)
      case None => None
      case Some(ch) => Some(Offer(ch.sizes, ch.priceCents, ch.soldOut, ch.itemId, ch.itemId, ch.name))
    else if it.anchor != [] && it.anchor[0] == it.id then
      Some(Offer(it.sizes, it.priceCents, it.soldOut, it.id, it.id, ""))
    else
      Some(Offer(it.sizes, it.priceCents, it.soldOut, NO_ID, if it.anchor != [] then it.anchor[0] else NO_ID, ""))
  }

  // --- the options ---------------------------------------------------------------------

  /** What the loop over an item's groups has gathered. */
  datatype Chosen = Chosen(options: seq<ResolvedOption>, extras: seq<int>, issues: seq<Issue>)

  function PicksIn(picks: seq<Pick>, group: Id): seq<Pick> {
    if picks == [] then []
    else
      PicksIn(picks[..|picks|-1], group) + if picks[|picks|-1].groupId == group then [picks[|picks|-1]] else []
  }

  function SeenIds(g: BuildGroup, picks: seq<Pick>): set<Id> {
    set p | p in picks && FindOption(g.options, p.optionId).Some? :: p.optionId
  }

  /** The price a pick adds, when its option exists. */
  function PickPrice(g: BuildGroup, o: BuildOption, size: Id): int {
    PriceForSize(o.priceCents, o.prices, size)
  }

  function PortionOf(g: BuildGroup, pk: Pick): Portion {
    if g.portions then pk.portion else Whole
  }

  function TakePick(g: BuildGroup, size: Id, seen: set<Id>, c: Chosen, pk: Pick): Chosen {
    match FindOption(g.options, pk.optionId)
    case None => c.(issues := c.issues + [UnknownOption])
    case Some(o) =>
      var price := PickPrice(g, o, size);
      Chosen(c.options + [ResolvedOption(o.name, PortionOf(g, pk), price, false, false)],
             c.extras + (if price > 0 then [price] else []),
             c.issues + (if pk.optionId in seen && !g.allowMultiple then [OptionRules] else [])
                      + (if o.soldOut then [SoldOut] else []))
  }

  function TakePicks(g: BuildGroup, size: Id, c: Chosen, picks: seq<Pick>): Chosen {
    if picks == [] then c
    else
      var before := picks[..|picks|-1];
      TakePick(g, size, SeenIds(g, before), TakePicks(g, size, c, before), picks[|picks|-1])
  }

  /** "NO x": the defaults of a group that no pick named. */
  function LeftOff(options: seq<BuildOption>, seen: set<Id>): seq<ResolvedOption> {
    if options == [] then []
    else
      var o := options[|options|-1];
      LeftOff(options[..|options|-1], seen)
      + if o.isDefault && o.id !in seen then [ResolvedOption(o.name, Whole, 0, true, false)] else []
  }

  function MinSelect(g: BuildGroup): int {
    if g.required && g.minSelect < 1 then 1 else g.minSelect
  }

  function CountIssues(g: BuildGroup, n: nat): seq<Issue> {
    (if n < MinSelect(g) then [OptionRules] else [])
    + if g.maxSelect > 0 && n > g.maxSelect then [OptionRules] else []
  }

  function TakeGroup(m: Menu, size: Id, picks: seq<Pick>, c: Chosen, gid: Id): Chosen {
    match FindGroup(m.groups, gid)
    case None => c
    case Some(g) =>
      var mine := PicksIn(picks, gid);
      var c1 := TakePicks(g, size, c, mine);
      Chosen(c1.options + (if g.maxSelect != 1 then LeftOff(g.options, SeenIds(g, mine)) else []), c1.extras,
             c1.issues + CountIssues(g, |mine|))
  }

  function TakeGroups(m: Menu, size: Id, picks: seq<Pick>, c: Chosen, gids: seq<Id>): Chosen {
    if gids == [] then c
    else TakeGroup(m, size, picks, TakeGroups(m, size, picks, c, gids[..|gids|-1]), gids[|gids|-1])
  }

  /** A picked option of a group the item does not have. */
  predicate StrayPick(picks: seq<Pick>, gids: seq<Id>) {
    exists i :: 0 <= i < |picks| && picks[i].groupId !in gids
  }

  // --- the priciest n free -------------------------------------------------------------

  function Down(price: int): int {
    -price
  }

  /** The first n of a sequence (all of it when n is larger, none when n is not positive). */
  function Take<T>(s: seq<T>, n: int): seq<T> {
    if n <= 0 then [] else if n >= |s| then s else s[..n]
  }

  function Drop<T>(s: seq<T>, n: int): seq<T> {
    if n <= 0 then s else if n >= |s| then [] else s[n..]
  }

  /** What the extras cost when the priciest `free` of them are included. */
  function ChargeBeyond(extras: seq<int>, free: int): int {
    Sum(Drop(SortBy(extras, Down), free))
  }

  /** An option with a price, by its place on the item. */
  datatype Charged = Charged(index: nat, price: int)

  function PriciestFirst(c: Charged): int {
    -c.price
  }

  function ChargedOf(options: seq<ResolvedOption>): (r: seq<Charged>)
    ensures forall c :: c in r ==>
      c.index < |options| && options[c.index].priceCents == c.price > 0 && !options[c.index].removedDefault
  {
    if options == [] then []
    else
      var n := |options| - 1;
      ChargedOf(options[..n])
      + if options[n].priceCents > 0 && !options[n].removedDefault then [Charged(n, options[n].priceCents)] else []
  }

  function MarkIncluded(options: seq<ResolvedOption>, cs: seq<Charged>): (r: seq<ResolvedOption>)
    requires forall c :: c in cs ==> c.index < |options|
    ensures |r| == |options|
  {
    if cs == [] then options
    else
      var r := MarkIncluded(options, cs[..|cs|-1]);
      var i := cs[|cs|-1].index;
      r[i := r[i].(included := true)]
  }

  /** The charged options, priciest first (ties in their own order). */
  function ByPrice(options: seq<ResolvedOption>): (r: seq<Charged>)
    ensures forall c :: c in r ==> c.index < |options|
  {
    SortByMembers(ChargedOf(options), PriciestFirst);
    SortBy(ChargedOf(options), PriciestFirst)
  }

  /** The options with the priciest `free` charged ones marked included. */
  function WithIncluded(options: seq<ResolvedOption>, free: int): (r: seq<ResolvedOption>)
    ensures |r| == |options|
  {
    MarkIncluded(options, Take(ByPrice(options), free))
  }

  // --- the whole item ------------------------------------------------------------------

  function Unpriced(name: string, bankItem: Id, rateItem: Id, choice: string, issue: Issue): Priced {
    Priced(name, choice, bankItem, rateItem, NO_ID, "", 0, 0, 0, [], [issue])
  }

  function Configure(m: Menu, it: BuildItem, offer: Offer, base: int, size: Id, sizeName: string, picks: seq<Pick>,
                     free: int): Priced
  {
    var start := Chosen([], [], if offer.soldOut then [SoldOut] else []);
    var c := TakeGroups(m, size, picks, start, it.groupIds);
    var extras := ChargeBeyond(c.extras, free);
    Priced(it.name, offer.choice, offer.bankItem, offer.rateItem, size, sizeName, base, extras, base + extras,
           WithIncluded(c.options, free),
           c.issues + if StrayPick(picks, it.groupIds) then [UnknownOption] else [])
  }

  /** A selection, priced; `free` is how many of its dearest options cost nothing. */
  function PriceItem(m: Menu, sel: Selection, free: int): Priced {
    match FindItem(AllItems(m.categories), sel.itemId)
    case None => Unpriced("Unknown item", NO_ID, NO_ID, "", UnknownItem)
    case Some(it) =>
      match OfferOf(it, sel.choiceId)
      case None => Unpriced(it.name, NO_ID, NO_ID, "", OptionRules)
      case Some(offer) =>
        if offer.sizes != [] then
          match PickSize(offer.sizes, sel.sizeId)
          case None => Unpriced(it.name, offer.bankItem, offer.rateItem, offer.choice, UnknownSize)
          case Some(sz) => Configure(m, it, offer, sz.priceCents, sz.sizeId, sz.name, sel.options, free)
        else if sel.sizeId != NO_ID then
          Unpriced(it.name, offer.bankItem, offer.rateItem, offer.choice, UnknownSize)
        else Configure(m, it, offer, offer.base, NO_ID, "", sel.options, free)
  }

  // --- the uncharged options are exactly the included ones ------------------------------

  /** What one option adds to an order line's price. */
  function Charge(o: ResolvedOption): int {
    if o.removedDefault || o.included then 0 else o.priceCents
  }

  function Charges(options: seq<ResolvedOption>): seq<int> {
    seq(|options|, i requires 0 <= i < |options| => Charge(options[i]))
  }

  function Prices(cs: seq<Charged>): seq<int> {
    seq(|cs|, i requires 0 <= i < |cs| => cs[i].price)
  }

  ghost predicate DistinctIndices(cs: seq<Charged>) {
    forall i, j :: 0 <= i < j < |cs| ==> cs[i].index != cs[j].index
  }

  /** No option is included yet and none has a negative price. */
  ghost predicate Fresh(options: seq<ResolvedOption>) {
    forall o :: o in options ==> !o.included && o.priceCents >= 0 && (o.removedDefault ==> o.priceCents == 0)
  }

  lemma {:induction false} SumUpdate(s: seq<int>, i: nat, v: int)
    requires i < |s|
    ensures Sum(s[i := v]) == Sum(s) - s[i] + v
  {
    if i == 0 {
      assert s[i := v][1..] == s[1..];
    } else {
      assert s[i := v][1..] == s[1..][i-1 := v];
      SumUpdate(s[1..], i - 1, v);
    }
  }

  function Indices(cs: seq<Charged>): set<nat> {
    set c | c in cs :: c.index
  }

  /** MarkIncluded touches nothing but the flag of the options it names. */
  lemma {:induction false} MarkedExactly(options: seq<ResolvedOption>, cs: seq<Charged>, i: nat)
    requires forall c :: c in cs ==> c.index < |options|
    requires i < |options|
    ensures MarkIncluded(options, cs)[i]
         == if i in Indices(cs) then options[i].(included := true) else options[i]
  {
    if cs == [] {
    } else {
      var n := |cs| - 1;
      MarkedExactly(options, cs[..n], i);
      assert cs == cs[..n] + [cs[n]];
      assert Indices(cs) == Indices(cs[..n]) + {cs[n].index};
    }
  }

  /** Marking an option takes exactly its price off the line. */
  lemma {:induction false} MarkingUncharges(options: seq<ResolvedOption>, cs: seq<Charged>)
    requires forall c :: c in cs ==>
      c.index < |options| && options[c.index].priceCents == c.price
      && !options[c.index].removedDefault && !options[c.index].included
    requires DistinctIndices(cs)
    ensures Sum(Charges(MarkIncluded(options, cs))) == Sum(Charges(options)) - Sum(Prices(cs))
  {
    if cs == [] {
    } else {
      var n := |cs| - 1;
      var before, last := cs[..n], cs[n];
      MarkingUncharges(options, before);
      var r := MarkIncluded(options, before);
      assert last.index !in Indices(before);
      MarkedExactly(options, before, last.index);
      assert last in cs;
      var marked := r[last.index := r[last.index].(included := true)];
      assert Charges(marked) == Charges(r)[last.index := 0];
      SumUpdate(Charges(r), last.index, 0);
      assert Prices(cs) == Prices(before) + [last.price];
      SumAppend(Prices(before), [last.price]);
    }
  }

  lemma {:induction false} ChargedOfIsDistinct(options: seq<ResolvedOption>)
    ensures DistinctIndices(ChargedOf(options))
  {
    if options == [] {
    } else {
      ChargedOfIsDistinct(options[..|options|-1]);
    }
  }

  lemma ChargedOfLast(options: seq<ResolvedOption>, o: ResolvedOption)
    ensures ChargedOf(options + [o])
         == ChargedOf(options)
            + if o.priceCents > 0 && !o.removedDefault then [Charged(|options|, o.priceCents)] else []
  {
    assert (options + [o])[..|options|] == options;
  }

  lemma SumWithLast(s: seq<int>, x: int)
    ensures Sum(s + [x]) == Sum(s) + x
  {
    SumAppend(s, [x]);
  }

  /** With nothing included, an item's options cost what its charged ones do. */
  lemma {:induction false} ChargesAreTheCharged(options: seq<ResolvedOption>)
    requires Fresh(options)
    ensures Sum(Charges(options)) == Sum(Prices(ChargedOf(options)))
  {
    hide Sum, ChargedOf;
    if options == [] {
      NothingCharged();
    } else {
      var n := |options| - 1;
      var cs, o := ChargedOf(options[..n]), options[n];
      ChargesAreTheCharged(options[..n]);
      assert options == options[..n] + [o] && o in options;
      ChargedOfLast(options[..n], o);
      assert Charges(options) == Charges(options[..n]) + [Charge(o)];
      SumWithLast(Charges(options[..n]), Charge(o));
      if o.priceCents > 0 && !o.removedDefault {
        assert Prices(cs + [Charged(n, o.priceCents)]) == Prices(cs) + [o.priceCents];
        SumWithLast(Prices(cs), o.priceCents);
      } else {
        assert cs + [] == cs;
      }
    }
  }

  lemma NothingCharged()
    ensures Sum(Charges([])) == Sum(Prices(ChargedOf([]))) == 0
  {
  }

  lemma DistinctUnderSorting(cs: seq<Charged>)
    requires DistinctIndices(cs)
    ensures DistinctIndices(SortBy(cs, PriciestFirst))
  {
    var r := SortBy(cs, PriciestFirst);
    SortByIsSorted(cs, PriciestFirst);
    forall i, j | 0 <= i < j < |r| ensures r[i].index != r[j].index {
      if r[i].index == r[j].index {
        SortByMembers(cs, PriciestFirst);
        assert r[i] in cs && r[j] in cs;
        if r[i] != r[j] {
          assert false;
        }
        TwiceInMultiset(r, i, j);
        OnceInMultiset(cs, r[i]);
        assert false;
      }
    }
  }

  lemma TwiceInMultiset<T>(s: seq<T>, i: nat, j: nat)
    requires i < j < |s| && s[i] == s[j]
    ensures multiset(s)[s[i]] >= 2
  {
    assert s == s[..i] + [s[i]] + s[i+1..j] + [s[j]] + s[j+1..];
  }

  lemma {:induction false} OnceInMultiset(cs: seq<Charged>, c: Charged)
    requires DistinctIndices(cs)
    ensures multiset(cs)[c] <= 1
  {
    if cs == [] {
    } else {
      assert cs == [cs[0]] + cs[1..];
      OnceInMultiset(cs[1..], c);
      if c == cs[0] {
        assert c !in cs[1..];
      }
    }
  }

  // --- one price, two ways to reach it ---------------------------------------------------

  /** The extras the engine sorts are the prices of the charged options. */
  ghost predicate InStep(c: Chosen) {
    Fresh(c.options) && c.extras == Prices(ChargedOf(c.options))
  }

  lemma AddOption(c: Chosen, o: ResolvedOption, issues: seq<Issue>)
    requires InStep(c) && !o.included && o.priceCents >= 0 && (o.removedDefault ==> o.priceCents == 0)
    ensures InStep(Chosen(c.options + [o], c.extras + if o.priceCents > 0 then [o.priceCents] else [], issues))
  {
    var options := c.options + [o];
    assert options[..|options|-1] == c.options;
    assert Fresh(options);
    if o.priceCents > 0 {
      assert Prices(ChargedOf(options)) == Prices(ChargedOf(c.options)) + [o.priceCents];
    }
  }

  lemma {:induction false} AddLeftOff(c: Chosen, options: seq<BuildOption>, seen: set<Id>, issues: seq<Issue>)
    requires InStep(c)
    ensures InStep(Chosen(c.options + LeftOff(options, seen), c.extras, issues))
  {
    if options == [] {
      assert c.options + [] == c.options;
    } else {
      var o := options[|options|-1];
      var before := LeftOff(options[..|options|-1], seen);
      AddLeftOff(c, options[..|options|-1], seen, issues);
      if o.isDefault && o.id !in seen {
        var ro := ResolvedOption(o.name, Whole, 0, true, false);
        AddOption(Chosen(c.options + before, c.extras, issues), ro, issues);
        assert c.options + LeftOff(options, seen) == c.options + before + [ro];
        assert c.extras + [] == c.extras;
      } else {
        assert LeftOff(options, seen) == before;
      }
    }
  }

  lemma {:induction false} PriceForSizeIsNonNegative(own: int, prices: seq<OptionPrice>, size: Id)
    requires own >= 0 && forall p :: p in prices ==> p.priceCents >= 0
    ensures PriceForSize(own, prices, size) >= 0
  {
    if prices != [] && size != NO_ID && prices[|prices|-1].sizeId != size {
      PriceForSizeIsNonNegative(own, prices[..|prices|-1], size);
    }
  }

  lemma {:induction false} TakePicksInStep(g: BuildGroup, size: Id, c: Chosen, picks: seq<Pick>)
    requires InStep(c) && NonNegativeGroup(g)
    ensures InStep(TakePicks(g, size, c, picks))
  {
    if picks == [] {
    } else {
      var before, pk := picks[..|picks|-1], picks[|picks|-1];
      TakePicksInStep(g, size, c, before);
      match FindOption(g.options, pk.optionId)
      case None =>
      case Some(o) =>
        PriceForSizeIsNonNegative(o.priceCents, o.prices, size);
        var c1 := TakePicks(g, size, c, before);
        AddOption(c1, ResolvedOption(o.name, PortionOf(g, pk), PickPrice(g, o, size), false, false),
                  TakePicks(g, size, c, picks).issues);
    }
  }

  lemma {:induction false} TakeGroupsInStep(m: Menu, size: Id, picks: seq<Pick>, c: Chosen, gids: seq<Id>)
    requires InStep(c) && forall g :: g in m.groups ==> NonNegativeGroup(g)
    ensures InStep(TakeGroups(m, size, picks, c, gids))
  {
    if gids == [] {
    } else {
      var gid := gids[|gids|-1];
      TakeGroupsInStep(m, size, picks, c, gids[..|gids|-1]);
      var c0 := TakeGroups(m, size, picks, c, gids[..|gids|-1]);
      match FindGroup(m.groups, gid)
      case None =>
      case Some(g) =>
        var mine := PicksIn(picks, gid);
        TakePicksInStep(g, size, c0, mine);
        var c1 := TakePicks(g, size, c0, mine);
        AddLeftOff(c1, g.options, SeenIds(g, mine), TakeGroups(m, size, picks, c, gids).issues);
        assert c1.options + [] == c1.options;
    }
  }

  lemma SumOfTakeAndDrop(s: seq<int>, n: int)
    ensures Sum(s) == Sum(Take(s, n)) + Sum(Drop(s, n))
  {
    if 0 < n < |s| {
      SumAppend(s[..n], s[n..]);
      assert s == s[..n] + s[n..];
    }
  }

  lemma PricesByPrice(options: seq<ResolvedOption>)
    ensures Prices(ByPrice(options)) == SortBy(Prices(ChargedOf(options)), Down)
  {
    var cs := ChargedOf(options);
    SortedPrices(cs);
  }

  lemma {:induction false} SortedPrices(cs: seq<Charged>)
    ensures Prices(SortBy(cs, PriciestFirst)) == SortBy(Prices(cs), Down)
  {
    if cs == [] {
    } else {
      SortedPrices(cs[1..]);
      InsertedPrices(cs[0], SortBy(cs[1..], PriciestFirst));
      assert Prices(cs)[1..] == Prices(cs[1..]);
    }
  }

  lemma {:induction false} InsertedPrices(c: Charged, cs: seq<Charged>)
    ensures Prices(InsertBy(c, cs, PriciestFirst)) == InsertBy(c.price, Prices(cs), Down)
  {
    if cs == [] || PriciestFirst(c) <= PriciestFirst(cs[0]) {
      assert Prices([c] + cs) == [c.price] + Prices(cs);
    } else {
      InsertedPrices(c, cs[1..]);
      assert Prices(cs)[1..] == Prices(cs[1..]);
      assert Prices([cs[0]] + InsertBy(c, cs[1..], PriciestFirst))
          == [cs[0].price] + Prices(InsertBy(c, cs[1..], PriciestFirst));
    }
  }

  /** What the marked options leave to pay is what the engine charges beyond the free ones. */
  lemma IncludedAreTheUncharged(options: seq<ResolvedOption>, free: int)
    requires Fresh(options)
    ensures Sum(Charges(WithIncluded(options, free))) == ChargeBeyond(Prices(ChargedOf(options)), free)
  {
    hide Sum, SortBy, ChargedOf, MarkIncluded, Charges;
    var cs := ByPrice(options);
    MarkedAreCharged(options, free);
    MarkingUncharges(options, Take(cs, free));
    ChargesAreTheCharged(options);
    PricesByPrice(options);
    SortByIsSorted(Prices(ChargedOf(options)), Down);
    SumOfPermutation(Prices(ChargedOf(options)), Prices(cs));
    SumOfTakeAndDrop(Prices(cs), free);
    assert Take(Prices(cs), free) == Prices(Take(cs, free));
  }

  lemma MarkedAreCharged(options: seq<ResolvedOption>, free: int)
    requires Fresh(options)
    ensures DistinctIndices(Take(ByPrice(options), free))
    ensures forall c :: c in Take(ByPrice(options), free) ==>
      c.index < |options| && options[c.index].priceCents == c.price
      && !options[c.index].removedDefault && !options[c.index].included
  {
    var cs := ByPrice(options);
    ChargedOfIsDistinct(options);
    DistinctUnderSorting(ChargedOf(options));
    SortByMembers(ChargedOf(options), PriciestFirst);
    forall c | c in Take(cs, free)
      ensures c in ChargedOf(options) && options[c.index] in options
    {
      assert c in cs;
    }
  }

  /** An item's unit price is its base plus what its options still cost: the engine's total and the option marks agree. */
  lemma UnitIsBasePlusCharges(m: Menu, sel: Selection, free: int)
    requires forall g :: g in m.groups ==> NonNegativeGroup(g)
    ensures var p := PriceItem(m, sel, free);
      p.unit == p.base + p.extras && p.extras == Sum(Charges(p.options))
  {
    match FindItem(AllItems(m.categories), sel.itemId)
    case None =>
    case Some(it) =>
      match OfferOf(it, sel.choiceId)
      case None =>
      case Some(offer) =>
        var start := Chosen([], [], if offer.soldOut then [SoldOut] else []);
        assert InStep(start);
        var size := if offer.sizes == [] then NO_ID else
          match PickSize(offer.sizes, sel.sizeId) case None => NO_ID case Some(sz) => sz.sizeId;
        TakeGroupsInStep(m, size, sel.options, start, it.groupIds);
        IncludedAreTheUncharged(TakeGroups(m, size, sel.options, start, it.groupIds).options, free);
  }

  /** Included means priciest: an option that came free costs at least what any option left to pay does. */
  lemma IncludedArePriciest(options: seq<ResolvedOption>, free: int, i: nat, j: nat)
    requires Fresh(options) && i < |options| && j < |options|
    requires WithIncluded(options, free)[i].included
    requires !WithIncluded(options, free)[j].included && !options[j].removedDefault
    ensures options[i].priceCents >= options[j].priceCents && options[i].priceCents > 0
  {
    var marked := Take(ByPrice(options), free);
    MarkedAreCharged(options, free);
    MarkedExactly(options, marked, i);
    MarkedExactly(options, marked, j);
    assert options[i] in options && options[j] in options;
    var c :| c in marked && c.index == i;
    var a :| 0 <= a < |marked| && marked[a] == c;
    ByPriceIsCharged(options, c);
    if options[j].priceCents > 0 {
      ChargedOfIsComplete(options, j);
      PricierFirst(options, free, a, Charged(j, options[j].priceCents));
    }
  }

  lemma ByPriceIsCharged(options: seq<ResolvedOption>, c: Charged)
    ensures c in ByPrice(options) <==> c in ChargedOf(options)
  {
    SortByMembers(ChargedOf(options), PriciestFirst);
  }

  lemma PricierFirst(options: seq<ResolvedOption>, free: int, a: nat, c: Charged)
    requires c in ChargedOf(options)
    requires a < |Take(ByPrice(options), free)| && c !in Take(ByPrice(options), free)
    ensures Take(ByPrice(options), free)[a].price >= c.price
  {
    hide SortBy, ChargedOf;
    ByPriceIsCharged(options, c);
    SortByIsSorted(ChargedOf(options), PriciestFirst);
    TakenComeFirst(ByPrice(options), free, a, c);
  }

  lemma TakenComeFirst(cs: seq<Charged>, n: int, a: nat, c: Charged)
    requires SortedBy(cs, PriciestFirst) && c in cs
    requires a < |Take(cs, n)| && c !in Take(cs, n)
    ensures Take(cs, n)[a].price >= c.price
  {
    var b :| 0 <= b < |cs| && cs[b] == c;
    assert forall i :: 0 <= i < |Take(cs, n)| ==> cs[i] in Take(cs, n);
    assert PriciestFirst(cs[a]) <= PriciestFirst(cs[b]);
  }

  lemma {:induction false} ChargedOfIsComplete(options: seq<ResolvedOption>, j: nat)
    requires j < |options| && options[j].priceCents > 0 && !options[j].removedDefault
    ensures Charged(j, options[j].priceCents) in ChargedOf(options)
  {
    if j < |options| - 1 {
      ChargedOfIsComplete(options[..|options|-1], j);
    }
  }
}
