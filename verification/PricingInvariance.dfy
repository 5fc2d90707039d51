/** A quote's money does not depend on how a cart is written down: the order of its lines, or how units are split over lines. */
module PricingInvariance {
  import opened Options
  import opened Sequences
  import opened MenuBuild
  import opened PricingTypes
  import opened PricingItem
  import opened PricingCart
  import opened PricingMoney

  // --- what a deal takes depends on the units, not on their order ------------------------

  lemma {:induction false} EligibleCount(units: seq<Unit>, el: Eligible, u: Unit)
    ensures multiset(EligibleUnits(units, el))[u] == if Matches(el, u) then multiset(units)[u] else 0
  {
    if units == [] {
    } else {
      var last := units[|units|-1];
      EligibleCount(units[..|units|-1], el, u);
      assert units == units[..|units|-1] + [last];
    }
  }

  lemma {:induction false} KeysOfPermutation<T>(a: seq<T>, b: seq<T>, key: T -> int)
    requires multiset(a) == multiset(b)
    ensures multiset(Keys(a, key)) == multiset(Keys(b, key))
  {
    if a == [] {
      assert |multiset(b)| == 0;
    } else {
      var i := Extract(a, b);
      KeysOfPermutation(a[1..], b[..i] + b[i+1..], key);
      assert Keys(a, key) == [key(a[0])] + Keys(a[1..], key);
      assert Keys(b, key) == Keys(b[..i], key) + [key(b[i])] + Keys(b[i+1..], key);
      assert Keys(b[..i] + b[i+1..], key) == Keys(b[..i], key) + Keys(b[i+1..], key);
    }
  }

  lemma {:induction false} MixOffAppend(a: seq<int>, b: seq<int>, each: int)
    ensures MixOff(a + b, each) == MixOff(a, each) + MixOff(b, each)
  {
    if b == [] {
      assert a + b == a;
    } else {
      assert (a + b)[..|a + b|-1] == a + b[..|b|-1];
      MixOffAppend(a, b[..|b|-1], each);
    }
  }

  lemma {:induction false} MixOffOfPermutation(a: seq<int>, b: seq<int>, each: int)
    requires multiset(a) == multiset(b)
    ensures MixOff(a, each) == MixOff(b, each)
  {
    hide MixOff;
    assert |a| == |multiset(a)| == |multiset(b)| == |b|;
    if a == [] {
      assert a == b;
    } else {
      var i := Extract(a, b);
      var p, q := b[..i], b[i+1..];
      MixOffOfPermutation(a[1..], p + q, each);
      MixOffAppend([a[0]], a[1..], each);
      MixOffAppend(p, q, each);
      MixOffAppend(p, [b[i]], each);
      MixOffAppend(p + [b[i]], q, each);
      assert a == [a[0]] + a[1..] && b == p + [b[i]] + q;
    }
  }

  lemma SameMembers<T>(a: seq<T>, b: seq<T>, x: T)
    requires multiset(a) == multiset(b)
    ensures x in a <==> x in b
  {
    assert x in a <==> x in multiset(a);
    assert x in b <==> x in multiset(b);
  }

  lemma DownSortOfPermutation(a: seq<int>, b: seq<int>)
    requires multiset(a) == multiset(b)
    ensures SortBy(a, Down) == SortBy(b, Down)
  {
    var x, y := SortBy(a, Down), SortBy(b, Down);
    SortByIsSorted(a, Down);
    SortByIsSorted(b, Down);
    hide SortBy;
    KeysOfPermutation(x, y, Down);
    SortedIsUnique(Keys(x, Down), Keys(y, Down));
    assert |x| == |Keys(x, Down)| == |Keys(y, Down)| == |y|;
    forall i | 0 <= i < |x| ensures x[i] == y[i] {
      assert Keys(x, Down)[i] == Keys(y, Down)[i];
    }
  }

  lemma DealAmountOfPermutation(d: Deal, a: seq<int>, b: seq<int>, sub: int)
    requires multiset(a) == multiset(b)
    ensures DealAmount(d, a, sub) == DealAmount(d, b, sub)
  {
    assert |a| == |multiset(a)| == |multiset(b)| == |b|;
    match d.kind
    case Mix => MixOffOfPermutation(a, b, d.eachCents);
    case Nth => DownSortOfPermutation(a, b);
    case FreeItem =>
      if a != [] {
        CheapestIsLeast(a);
        CheapestIsLeast(b);
        SameMembers(a, b, Cheapest(a));
        SameMembers(a, b, Cheapest(b));
      }
    case _ =>
  }

  lemma {:induction false} AutosOfPermutation(deals: seq<Deal>, clock: Clock, orderType: OrderType, a: seq<Unit>,
                                              b: seq<Unit>, sub: int)
    requires multiset(a) == multiset(b)
    ensures Autos(deals, clock, orderType, a, sub) == Autos(deals, clock, orderType, b, sub)
  {
    if deals != [] {
      var d := deals[|deals|-1];
      AutosOfPermutation(deals[..|deals|-1], clock, orderType, a, b, sub);
      if d.eligible.Some? {
        var ea, eb := EligibleUnits(a, d.eligible.value), EligibleUnits(b, d.eligible.value);
        forall u ensures multiset(ea)[u] == multiset(eb)[u] {
          EligibleCount(a, d.eligible.value, u);
          EligibleCount(b, d.eligible.value, u);
        }
        assert multiset(ea) == multiset(eb);
        KeysOfPermutation(ea, eb, UnitPrice);
        DealAmountOfPermutation(d, Keys(ea, UnitPrice), Keys(eb, UnitPrice), sub);
      }
    }
  }

  // --- tax depends on what each rate taxes, not on the lines it came from -----------------

  /** The food taxed at each rate. */
  function GrossesOf(taxed: seq<Taxed>): map<int, int> {
    if taxed == [] then map[]
    else Add(GrossesOf(taxed[..|taxed|-1]), One(taxed[|taxed|-1]))
  }

  function One(t: Taxed): map<int, int> {
    map[t.rate := t.total]
  }

  function Get(m: map<int, int>, k: int): int {
    if k in m then m[k] else 0
  }

  function Add(a: map<int, int>, b: map<int, int>): map<int, int> {
    map k | k in a.Keys + b.Keys :: Get(a, k) + Get(b, k)
  }

  lemma AddCommutes(a: map<int, int>, b: map<int, int>)
    ensures Add(a, b) == Add(b, a)
  {
  }

  lemma AddAssociates(a: map<int, int>, b: map<int, int>, c: map<int, int>)
    ensures Add(Add(a, b), c) == Add(a, Add(b, c))
  {
    var l, r := Add(Add(a, b), c), Add(a, Add(b, c));
    assert l.Keys == r.Keys;
    forall k | k in l ensures l[k] == r[k] {
      assert l[k] == Get(a, k) + Get(b, k) + Get(c, k);
    }
  }

  lemma {:induction false} GrossesAppend(a: seq<Taxed>, b: seq<Taxed>)
    ensures GrossesOf(a + b) == Add(GrossesOf(a), GrossesOf(b))
  {
    if b == [] {
      assert a + b == a;
    } else {
      assert (a + b)[..|a + b|-1] == a + b[..|b|-1];
      GrossesAppend(a, b[..|b|-1]);
      AddAssociates(GrossesOf(a), GrossesOf(b[..|b|-1]), One(b[|b|-1]));
    }
  }

  lemma {:induction false} GrossesAreTheGrosses(taxed: seq<Taxed>)
    ensures forall r :: r in RatesOf(taxed) <==> r in GrossesOf(taxed)
    ensures forall r :: multiset(RatesOf(taxed))[r] == if r in GrossesOf(taxed) then 1 else 0
    ensures forall r :: GrossAt(taxed, r) == Get(GrossesOf(taxed), r)
  {
    if taxed != [] {
      GrossesAreTheGrosses(taxed[..|taxed|-1]);
    }
  }

  lemma SameRates(a: seq<Taxed>, b: seq<Taxed>)
    requires GrossesOf(a) == GrossesOf(b)
    ensures SortedRates(a) == SortedRates(b)
    ensures Grosses(a, SortedRates(a)) == Grosses(b, SortedRates(b))
  {
    GrossesAreTheGrosses(a);
    GrossesAreTheGrosses(b);
    hide GrossesOf, GrossAt, RatesOf, SortBy;
    var x, y := multiset(RatesOf(a)), multiset(RatesOf(b));
    assert forall r :: x[r] == y[r];
    assert x == y;
    SortSamePermutation(RatesOf(a), RatesOf(b));
  }

  lemma FoodTaxDependsOnGrosses(a: seq<Taxed>, b: seq<Taxed>, sub: int, off: int)
    requires GrossesOf(a) == GrossesOf(b)
    ensures FoodTax(a, sub, off) == FoodTax(b, sub, off)
  {
    SameRates(a, b);
  }

  // --- what money sees of a tally ----------------------------------------------------------

  /** All that a quote's money, and whether it can be ordered, depends on. */
  datatype Essence = Essence(
    sub: int, empty: bool, units: multiset<Unit>, grosses: map<int, int>, saved: int, hasBundle: bool, clean: bool)

  function EssenceOf(t: Tally): Essence {
    Essence(Sum(Totals(t.lines)), t.lines == [], multiset(t.units), GrossesOf(t.taxed), t.saved, t.hasBundle,
            t.issues == [])
  }

  function Merge(a: Essence, b: Essence): Essence {
    Essence(a.sub + b.sub, a.empty && b.empty, a.units + b.units, Add(a.grosses, b.grosses), a.saved + b.saved,
            a.hasBundle || b.hasBundle, a.clean && b.clean)
  }

  lemma MergeCommutes(a: Essence, b: Essence)
    ensures Merge(a, b) == Merge(b, a)
  {
    AddCommutes(a.grosses, b.grosses);
  }

  lemma MergeAssociates(a: Essence, b: Essence, c: Essence)
    ensures Merge(Merge(a, b), c) == Merge(a, Merge(b, c))
  {
    AddAssociates(a.grosses, b.grosses, c.grosses);
  }

  lemma EssenceOfCombine(a: Tally, b: Tally)
    ensures EssenceOf(Combine(a, b)) == Merge(EssenceOf(a), EssenceOf(b))
  {
    assert Totals(a.lines + b.lines) == Totals(a.lines) + Totals(b.lines);
    SumAppend(Totals(a.lines), Totals(b.lines));
    GrossesAppend(a.taxed, b.taxed);
  }

  lemma SameDiscounts(ctx: Context, clock: Clock, terms: Terms, sub: int, a: seq<Unit>, b: seq<Unit>, hasBundle: bool)
    requires multiset(a) == multiset(b)
    ensures FoodDiscounts(ctx, clock, terms, sub, a, hasBundle) == FoodDiscounts(ctx, clock, terms, sub, b, hasBundle)
  {
    AutosOfPermutation(ctx.deals, clock, terms.orderType, a, b, sub);
  }

  /** Tallies of one essence settle to the same money, with the same issues about the order as a whole. */
  lemma MoneySeesTheEssence(ctx: Context, clock: Clock, terms: Terms, a: Tally, b: Tally)
    requires EssenceOf(a) == EssenceOf(b)
    ensures MoneyOf(ctx, clock, terms, a) == MoneyOf(ctx, clock, terms, b)
    ensures OrderIssues(ctx, clock, terms, a) == OrderIssues(ctx, clock, terms, b)
  {
    hide GrossesOf, FoodTax, FoodDiscounts, Sum, AddUp;
    var sub := Sum(Totals(a.lines));
    SameDiscounts(ctx, clock, terms, sub, a.units, b.units, a.hasBundle);
    var ds := FoodDiscounts(ctx, clock, terms, sub, a.units, a.hasBundle);
    var after := AfterDiscounts(ctx.settings, terms, sub - Sum(Amounts(ds)));
    FoodTaxDependsOnGrosses(a.taxed, b.taxed, sub, sub - after);
  }

  // --- a cart's essence is that of its lines ------------------------------------------------

  function LineEssence(ctx: Context, clock: Clock, ot: OrderType, line: Line): Essence {
    EssenceOf(PriceLine(ctx, clock, ot, line))
  }

  function LinesEssence(ctx: Context, clock: Clock, ot: OrderType, lines: seq<Line>): Essence {
    EssenceOf(TallyLines(ctx, clock, ot, lines))
  }

  lemma LinesEssenceLast(ctx: Context, clock: Clock, ot: OrderType, lines: seq<Line>, line: Line)
    ensures LinesEssence(ctx, clock, ot, lines + [line])
         == Merge(LinesEssence(ctx, clock, ot, lines), LineEssence(ctx, clock, ot, line))
  {
    assert (lines + [line])[..|lines|] == lines;
    EssenceOfCombine(TallyLines(ctx, clock, ot, lines), PriceLine(ctx, clock, ot, line));
  }

  lemma NothingMerges(e: Essence)
    ensures Merge(e, EssenceOf(NOTHING)) == e
    ensures Merge(EssenceOf(NOTHING), e) == e
  {
    assert Add(e.grosses, map[]) == e.grosses;
    assert Add(map[], e.grosses) == e.grosses;
  }

  lemma {:induction false} LinesEssenceAppend(ctx: Context, clock: Clock, ot: OrderType, a: seq<Line>, b: seq<Line>)
    ensures LinesEssence(ctx, clock, ot, a + b) == Merge(LinesEssence(ctx, clock, ot, a), LinesEssence(ctx, clock, ot, b))
  {
    hide LinesEssence, LineEssence, Merge, EssenceOf;
    if b == [] {
      assert a + b == a;
      NoLines(ctx, clock, ot);
      NothingMerges(LinesEssence(ctx, clock, ot, a));
    } else {
      var init, last := b[..|b|-1], b[|b|-1];
      LinesEssenceAppend(ctx, clock, ot, a, init);
      assert a + b == (a + init) + [last] && b == init + [last];
      LinesEssenceLast(ctx, clock, ot, a + init, last);
      LinesEssenceLast(ctx, clock, ot, init, last);
      MergeAssociates(LinesEssence(ctx, clock, ot, a), LinesEssence(ctx, clock, ot, init),
                      LineEssence(ctx, clock, ot, last));
    }
  }

  lemma NoLines(ctx: Context, clock: Clock, ot: OrderType)
    ensures LinesEssence(ctx, clock, ot, []) == EssenceOf(NOTHING)
  {
  }

  lemma LinesEssenceOne(ctx: Context, clock: Clock, ot: OrderType, line: Line)
    ensures LinesEssence(ctx, clock, ot, [line]) == LineEssence(ctx, clock, ot, line)
  {
    LinesEssenceLast(ctx, clock, ot, [], line);
    assert [] + [line] == [line];
    NothingMerges(LineEssence(ctx, clock, ot, line));
  }

  /** Two orderings of the same lines have one essence. */
  lemma {:induction false} PermutedLines(ctx: Context, clock: Clock, ot: OrderType, a: seq<Line>, b: seq<Line>)
    requires multiset(a) == multiset(b)
    ensures LinesEssence(ctx, clock, ot, a) == LinesEssence(ctx, clock, ot, b)
  {
    hide LinesEssence, Merge;
    assert |a| == |multiset(a)| == |multiset(b)| == |b|;
    if a == [] {
      assert a == b;
    } else {
      var i := Extract(a, b);
      var p, q := b[..i], b[i+1..];
      PermutedLines(ctx, clock, ot, a[1..], p + q);
      assert a == [a[0]] + a[1..] && b == p + [b[i]] + q;
      LinesEssenceAppend(ctx, clock, ot, [a[0]], a[1..]);
      LinesEssenceAppend(ctx, clock, ot, p, q);
      LinesEssenceAppend(ctx, clock, ot, p, [b[i]]);
      LinesEssenceAppend(ctx, clock, ot, p + [b[i]], q);
      var head := LinesEssence(ctx, clock, ot, [a[0]]);
      var ep, eq := LinesEssence(ctx, clock, ot, p), LinesEssence(ctx, clock, ot, q);
      MergeAssociates(head, ep, eq);
      MergeCommutes(head, ep);
    }
  }

  /** What a customer pays and sees taken off: a quote without its lines and issues. */
  function QuoteMoney(q: Quote): Bill {
    Bill(q.subtotalCents, q.discounts, q.deliveryFeeCents, q.serviceFeeCents, q.taxCents, q.tipCents,
            q.cardFeeCents, q.totalCents, q.savedCents)
  }

  /** Two quotes with the same money, and both orderable or neither. */
  ghost predicate SameDeal(a: Quote, b: Quote) {
    QuoteMoney(a) == QuoteMoney(b) && (a.errors == [] <==> b.errors == [])
  }

  lemma SameEssenceSameQuote(ctx: Context, clock: Clock, a: Cart, b: Cart)
    requires a.terms == b.terms
    requires var ot := a.terms.orderType; LinesEssence(ctx, clock, ot, a.lines) == LinesEssence(ctx, clock, ot, b.lines)
    ensures SameDeal(QuoteOf(ctx, clock, a), QuoteOf(ctx, clock, b))
  {
    hide MoneyOf, TallyLines, OrderIssues;
    MoneySeesTheEssence(ctx, clock, a.terms, TallyOf(ctx, clock, a), TallyOf(ctx, clock, b));
  }

  /** The order of a cart's lines changes no amount of the quote, nor whether it can be ordered. */
  lemma LineOrderDoesNotMatter(ctx: Context, clock: Clock, cart: Cart, lines: seq<Line>)
    requires multiset(lines) == multiset(cart.lines)
    ensures SameDeal(QuoteOf(ctx, clock, cart), QuoteOf(ctx, clock, cart.(lines := lines)))
  {
    hide QuoteOf, LinesEssence;
    PermutedLines(ctx, clock, cart.terms.orderType, cart.lines, lines);
    SameEssenceSameQuote(ctx, clock, cart, cart.(lines := lines));
  }

  // --- splitting a line ------------------------------------------------------------------

  lemma OneLine(t: Tally)
    requires |t.lines| == 1 && |t.taxed| <= 1
    ensures Sum(Totals(t.lines)) == t.lines[0].totalCents
    ensures GrossesOf(t.taxed) == if t.taxed == [] then map[] else map[t.taxed[0].rate := t.taxed[0].total]
  {
    assert Totals(t.lines) == [t.lines[0].totalCents];
    if t.taxed != [] {
      assert t.taxed[..0] == [];
      assert Add(map[], One(t.taxed[0])) == One(t.taxed[0]);
    }
  }

  lemma EssenceOfItemLine(ctx: Context, line: Line)
    ensures var p := PriceItem(ctx.menu, line.selection, 0);
      var n := ClampQty(line.qty);
      EssenceOf(PriceItemLine(ctx, line))
      == Essence(p.unit * n, false,
                 if p.bankItem != NO_ID && p.issues == []
                 then multiset{}[Unit(p.unit, p.bankItem, CategoryOf(ctx, p.bankItem), p.sizeId) := n] else multiset{},
                 map[RateOf(ctx, p.rateItem) := p.unit * n], 0, false, p.issues == [])
  {
    hide PriceItem;
    var t := PriceItemLine(ctx, line);
    var p := PriceItem(ctx.menu, line.selection, 0);
    OneLine(t);
    RepeatCount(Unit(p.unit, p.bankItem, CategoryOf(ctx, p.bankItem), p.sizeId), ClampQty(line.qty));
  }

  lemma {:induction false} RepeatCount(u: Unit, n: nat)
    ensures multiset(Repeat(u, n)) == multiset{}[u := n]
  {
    if n == 0 {
      assert Repeat(u, 0) == [];
    } else {
      RepeatCount(u, n - 1);
      assert Repeat(u, n) == Repeat(u, n - 1) + [u];
    }
  }

  lemma EssenceOfBundleLine(ctx: Context, clock: Clock, ot: OrderType, line: Line)
    ensures var n := ClampQty(line.qty);
      EssenceOf(PriceBundleLine(ctx, clock, ot, line))
      == match FindBundle(ctx.deals, line.dealId)
         case None => Essence(0, false, multiset{}, map[], 0, true, false)
         case Some(d) =>
           if !d.active then Essence(0, false, multiset{}, map[], 0, true, false)
           else
             var steps := StepsOf(ctx, d.slots, line.picks);
             var unit := d.priceCents + steps.extras;
             Essence(unit * n, false, multiset{}, map[RateOf(ctx, steps.rateItem) := unit * n],
                     if steps.regular > unit then (steps.regular - unit) * n else 0, true,
                     Live(d, clock, ot) && steps.issues == [])
  {
    hide StepsOf, FindBundle, GrossesOf, Sum;
    OneLine(PriceBundleLine(ctx, clock, ot, line));
  }

  /** What n of one unit come to. */
  function Scaled(unit: int, n: nat, units: multiset<Unit>, rate: int, saved: int, hasBundle: bool, clean: bool): Essence {
    Essence(unit * n, false, units, map[rate := unit * n], saved * n, hasBundle, clean)
  }

  lemma ScaledSplits(unit: int, a: nat, b: nat, ua: multiset<Unit>, ub: multiset<Unit>, rate: int, saved: int, bundle: bool,
                     clean: bool)
    ensures Scaled(unit, a + b, ua + ub, rate, saved, bundle, clean)
         == Merge(Scaled(unit, a, ua, rate, saved, bundle, clean), Scaled(unit, b, ub, rate, saved, bundle, clean))
  {
    assert unit * (a + b) == unit * a + unit * b;
    assert saved * (a + b) == saved * a + saved * b;
  }

  lemma SplitLine(ctx: Context, clock: Clock, ot: OrderType, line: Line, a: int, b: int)
    requires a >= 1 && b >= 1 && a + b <= 50 && line.qty == a + b
    ensures LineEssence(ctx, clock, ot, line)
         == Merge(LineEssence(ctx, clock, ot, line.(qty := a)), LineEssence(ctx, clock, ot, line.(qty := b)))
  {
    hide StepsOf, FindBundle, PriceItem, EssenceOf, PriceItemLine, PriceBundleLine, Merge, Add;
    if line.dealId == NO_ID {
      EssenceOfItemLine(ctx, line);
      EssenceOfItemLine(ctx, line.(qty := a));
      EssenceOfItemLine(ctx, line.(qty := b));
      var p := PriceItem(ctx.menu, line.selection, 0);
      var u := Unit(p.unit, p.bankItem, CategoryOf(ctx, p.bankItem), p.sizeId);
      var none: multiset<Unit> := multiset{};
      var rate := RateOf(ctx, p.rateItem);
      ScaledSplits(p.unit, a, b, none[u := a], none[u := b], rate, 0, false, p.issues == []);
      ScaledSplits(p.unit, a, b, none, none, rate, 0, false, p.issues == []);
      assert none[u := a] + none[u := b] == none[u := a + b];
    } else {
      EssenceOfBundleLine(ctx, clock, ot, line);
      EssenceOfBundleLine(ctx, clock, ot, line.(qty := a));
      EssenceOfBundleLine(ctx, clock, ot, line.(qty := b));
      EndedMerges();
      var deal := FindBundle(ctx.deals, line.dealId);
      if deal.Some? {
        var steps := StepsOf(ctx, deal.value.slots, line.picks);
        var unit := deal.value.priceCents + steps.extras;
        var saved := if steps.regular > unit then steps.regular - unit else 0;
        ScaledSplits(unit, a, b, multiset{}, multiset{}, RateOf(ctx, steps.rateItem), saved, true,
                     Live(deal.value, clock, ot) && steps.issues == []);
      }
    }
  }

  lemma EndedMerges()
    ensures var ended := Essence(0, false, multiset{}, map[], 0, true, false); Merge(ended, ended) == ended
  {
    assert Add(map[], map[]) == map[];
  }

  /** Nor does splitting a line of a+b units into lines of a and b units. */
  lemma SplittingALineDoesNotMatter(ctx: Context, clock: Clock, cart: Cart, i: nat, a: int, b: int)
    requires i < |cart.lines| && a >= 1 && b >= 1 && a + b <= 50 && cart.lines[i].qty == a + b
    ensures var line := cart.lines[i];
      var split := cart.lines[..i] + [line.(qty := a), line.(qty := b)] + cart.lines[i+1..];
      SameDeal(QuoteOf(ctx, clock, cart), QuoteOf(ctx, clock, cart.(lines := split)))
  {
    hide Merge, LinesEssence, LineEssence, QuoteOf;
    var ot, line := cart.terms.orderType, cart.lines[i];
    var la, lb := line.(qty := a), line.(qty := b);
    var p, q := cart.lines[..i], cart.lines[i+1..];
    var split := p + [la, lb] + q;
    SplitLine(ctx, clock, ot, line, a, b);
    LinesEssenceOne(ctx, clock, ot, line);
    LinesEssenceOne(ctx, clock, ot, la);
    LinesEssenceLast(ctx, clock, ot, [la], lb);
    assert [la] + [lb] == [la, lb];
    LinesEssenceAppend(ctx, clock, ot, p, [line]);
    LinesEssenceAppend(ctx, clock, ot, p + [line], q);
    LinesEssenceAppend(ctx, clock, ot, p, [la, lb]);
    LinesEssenceAppend(ctx, clock, ot, p + [la, lb], q);
    assert cart.lines == p + [line] + q;
    SameEssenceSameQuote(ctx, clock, cart, cart.(lines := split));
  }
}
