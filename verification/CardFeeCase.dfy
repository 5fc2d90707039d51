/** A cart that prices without issues and is still refused for its money: three tax rates and a card surcharge. */
module CardFeeCase {
  import opened Options
  import opened Sequences
  import opened MenuBuild
  import opened PricingTypes
  import opened PricingItem
  import opened PricingCart
  import opened PricingMoney
  import opened PricingQuote
  import opened OrderPort
  import opened OrderMoney
  import O = Orders

  function Plain(id: Id): BuildItem {
    BuildItem(id, "item", false, [id], 100, [], false, [], [], 0)
  }

  const ITEMS := [Plain(1), Plain(2), Plain(3)]

  const MENU := Menu([BuildCategory(BankKey(9), "food", 0, ITEMS)], [])

  /** $2.99 off, as a code. */
  const CODE := Deal(5, Code, "X", true, Both, None, 0, [], None, 0, 0, 0, 0, "X", 299, false, 0)

  const SETTINGS := Settings(0, 0, 0, 0, None, 0, Tips(false, 0), CardFee(Surcharge, 1000), Best)

  const CTX := Context(
    MENU, map[1 := ItemFacts(NO_ID, 100), 2 := ItemFacts(NO_ID, 200), 3 := ItemFacts(NO_ID, 200000)],
    SETTINGS, [CODE], Types(true, false))

  function OneOf(id: Id): Line {
    Line(Selection(id, NO_ID, NO_ID, []), 1, NO_ID, [])
  }

  const CART := Cart(Terms(Pickup, false, "X", None, None, None), [OneOf(1), OneOf(2), OneOf(3)])

  lemma OneItemMore(it: BuildItem, items: seq<BuildItem>, id: Id)
    ensures FindItem([it] + items, id) == if it.id == id then Some(it) else FindItem(items, id)
  {
    assert ([it] + items)[1..] == items;
  }

  lemma TheItem(id: Id)
    requires 1 <= id <= 3
    ensures FindItem(ITEMS, id) == Some(Plain(id))
  {
    hide FindItem;
    OneItemMore(Plain(1), [Plain(2), Plain(3)], id);
    OneItemMore(Plain(2), [Plain(3)], id);
    OneItemMore(Plain(3), [], id);
    assert ITEMS == [Plain(1)] + [Plain(2), Plain(3)] && [Plain(2), Plain(3)] == [Plain(2)] + [Plain(3)];
    assert [Plain(3)] == [Plain(3)] + [];
  }

  lemma TheMenu()
    ensures AllItems(MENU.categories) == ITEMS
  {
    assert MENU.categories[..0] == [];
  }

  lemma ContextIsValid()
    ensures ValidContext(CTX) && DistinctDeals(CTX.deals)
  {
    hide AllItems;
    TheMenu();
    assert forall id :: NonNegativeItem(Plain(id));
    assert forall it :: it in ITEMS ==> it == Plain(1) || it == Plain(2) || it == Plain(3);
  }

  lemma OneItem(id: Id)
    requires 1 <= id <= 3
    ensures var p := PriceItem(MENU, Selection(id, NO_ID, NO_ID, []), 0);
      p.unit == 100 && p.issues == [] && p.bankItem == id && p.rateItem == id
  {
    hide AllItems, FindItem, WithIncluded, ChargeBeyond;
    TheMenu();
    TheItem(id);
    NoExtras();
    assert OfferOf(Plain(id), NO_ID) == Some(Offer([], 100, false, id, id, ""));
  }

  lemma NoExtras()
    ensures ChargeBeyond([], 0) == 0
  {
  }

  lemma ALine(id: Id)
    requires 1 <= id <= 3
    ensures var t := PriceLine(CTX, Clock(0, 0), Pickup, OneOf(id));
      && t.taxed == [Taxed(100, CTX.items[id].taxBps)] && t.issues == [] && !t.hasBundle
      && t.lines[0].totalCents == 100
  {
    hide PriceItem;
    OneItem(id);
  }

  lemma OneMoreLine(lines: seq<Line>, line: Line)
    ensures TallyLines(CTX, Clock(0, 0), Pickup, lines + [line])
         == Combine(TallyLines(CTX, Clock(0, 0), Pickup, lines), PriceLine(CTX, Clock(0, 0), Pickup, line))
  {
    assert (lines + [line])[..|lines|] == lines;
  }

  lemma TheTally()
    ensures var t := TallyOf(CTX, Clock(0, 0), CART);
      && t.taxed == [Taxed(100, 100), Taxed(100, 200), Taxed(100, 200000)] && t.issues == [] && !t.hasBundle
      && |t.lines| == 3 && Totals(t.lines) == [100, 100, 100]
  {
    hide PriceLine, TallyLines;
    ALine(1);
    ALine(2);
    ALine(3);
    TheLines();
  }

  lemma TheLines()
    ensures var p := (id: Id) => PriceLine(CTX, Clock(0, 0), Pickup, OneOf(id));
      TallyLines(CTX, Clock(0, 0), Pickup, CART.lines) == Combine(Combine(Combine(NOTHING, p(1)), p(2)), p(3))
  {
    hide PriceLine, TallyLines, Combine;
    NoLine();
    OneMoreLine([], OneOf(1));
    OneMoreLine([OneOf(1)], OneOf(2));
    OneMoreLine([OneOf(1), OneOf(2)], OneOf(3));
    assert [] + [OneOf(1)] == [OneOf(1)];
    assert [OneOf(1)] + [OneOf(2)] == [OneOf(1), OneOf(2)];
    assert [OneOf(1), OneOf(2)] + [OneOf(3)] == CART.lines;
  }

  lemma NoLine()
    ensures TallyLines(CTX, Clock(0, 0), Pickup, []) == NOTHING
  {
  }

  lemma TheDiscounts(units: seq<Unit>)
    ensures FoodDiscounts(CTX, Clock(0, 0), CART.terms, 300, units, false) == [Discount(CodeDiscount, 5, "X", 299)]
    ensures CodeOf(CTX, Clock(0, 0), CART.terms, 300).Granted?
  {
    assert [CODE][..0] == [];
    assert Autos(CTX.deals, Clock(0, 0), Pickup, units, 300) == [];
    var d := Discount(CodeDiscount, 5, "X", 299);
    assert [d][..0] == [];
    assert Clamp([d], 300) == [d];
  }

  lemma TheTax()
    ensures FoodTax([Taxed(100, 100), Taxed(100, 200), Taxed(100, 200000)], 300, 299) == -20
  {
    var taxed := [Taxed(100, 100), Taxed(100, 200), Taxed(100, 200000)];
    TheRates(taxed);
    var g := [100, 100, 100];
    assert Grosses(taxed, [100, 200, 200000]) == g;
    TheShares();
    assert Bases(g, 300, 299) == [1, 1, -1];
    assert FoodTaxes([1, 1, -1], [100, 200, 200000]) == [0, 0, -20];
    assert Sum([0, 0, -20]) == -20;
  }

  lemma TheRates(taxed: seq<Taxed>)
    requires taxed == [Taxed(100, 100), Taxed(100, 200), Taxed(100, 200000)]
    ensures SortedRates(taxed) == [100, 200, 200000]
    ensures GrossAt(taxed, 100) == GrossAt(taxed, 200) == GrossAt(taxed, 200000) == 100
  {
    var a, b := taxed[..1], taxed[..2];
    assert taxed[..2][..1] == a && a[..0] == [];
    assert RatesOf(a) == [100] && RatesOf(b) == [100, 200] && RatesOf(taxed) == [100, 200, 200000];
    assert GrossAt(a, 100) == 100 && GrossAt(a, 200) == 0 && GrossAt(a, 200000) == 0;
    assert GrossAt(b, 100) == 100 && GrossAt(b, 200) == 100 && GrossAt(b, 200000) == 0;
    assert SortBy([200, 200000], Same) == [200, 200000] by { assert [200, 200000][1..] == [200000]; }
    assert [100, 200, 200000][1..] == [200, 200000];
  }

  lemma TheShares()
    ensures Shares([100, 100, 100], 3, 300, 299) == [99, 99, 101]
  {
    var g := [100, 100, 100];
    assert Shares(g, 1, 300, 299) == [99];
    assert Shares(g, 2, 300, 299) == [99, 99];
    assert Sum([99, 99]) == 198 by { assert [99, 99][1..] == [99]; }
  }

  /**
   * Three dollars of food at three tax rates, $2.99 off, paid by card with a 10% surcharge: the last rate is charged on
   * minus one cent, the tax and with it the card fee fall below nothing, building drops the fee, and the order is refused.
   */
  lemma ANegativeCardFeeIsRefused(names: map<Id, string>, notes: seq<string>, e: Envelope)
    requires |notes| == 3 && Addressed(e)
    ensures ValidContext(CTX) && DistinctDeals(CTX.deals)
    ensures var q := QuoteOf(CTX, Clock(0, 0), CART);
      && q.errors == [] && q.taxCents == -20 && q.cardFeeCents == -2 && |q.lines| == 3
      && var built := BuildLines(CTX, names, CART.lines, notes, q.lines);
         built.Some? && O.Refusal(InputOf(e, built.value, q)) == Some(O.TotalMismatch)
  {
    hide QuoteOf, BuildLines, O.Refusal, InputOf, ValidContext;
    ContextIsValid();
    TheQuote();
    OrderableCartBecomesAnOrder(CTX, Clock(0, 0), CART, names, notes, e);
  }

  lemma TheQuote()
    ensures var q := QuoteOf(CTX, Clock(0, 0), CART);
      q.errors == [] && q.taxCents == -20 && q.cardFeeCents == -2 && |q.lines| == 3
  {
    hide TallyLines, FoodTax, FoodDiscounts, CodeOf, Sum;
    TheTally();
    TheSums();
    TheDiscounts(TallyOf(CTX, Clock(0, 0), CART).units);
    TheTax();
    assert Amounts([Discount(CodeDiscount, 5, "X", 299)]) == [299];
    ThePercentages();
  }

  lemma TheSums()
    ensures Sum([100, 100, 100]) == 300 && Sum([299]) == 299
  {
    assert [100, 100, 100][1..] == [100, 100] && [100, 100][1..] == [100];
  }

  lemma ThePercentages()
    ensures Pct(1, 0) == 0 && Pct(0, 0) == 0 && Pct(-19, 1000) == -2
  {
  }
}
