/** What holds of every quote's money: conservation, bounds on the deals, and the spread of the discounts over tax rates. */
module PricingMoney {
  import opened Options
  import opened Sequences
  import opened MenuBuild
  import opened PricingTypes
  import opened PricingItem
  import opened PricingCart

  // --- products of cents ---------------------------------------------------------------

  lemma Distribute(x: int, a: int, b: int)
    ensures x * (a + b) == x * a + x * b
    ensures (a + b) * x == a * x + b * x
  {
  }

  lemma MulMonotone(a: int, b: int, m: int)
    requires a <= b && m >= 0
    ensures a * m <= b * m
  {
    Distribute(m, a, b - a);
    assert (b - a) * m >= 0;
  }

  /** A positive factor can be cancelled. */
  lemma MulCancel(a: int, b: int, m: int)
    requires a * m <= b * m && m > 0
    ensures a <= b
  {
    if a > b {
      MulMonotone(b + 1, a, m);
      Distribute(m, b, 1);
    }
  }

  // --- percentages ---------------------------------------------------------------------

  lemma PctBounds(amount: int, bps: int)
    requires amount >= 0 && 0 <= bps <= 10000
    ensures 0 <= Pct(amount, bps) <= amount
  {
    MulBounds(amount, bps);
  }

  lemma MulBounds(x: int, y: int)
    requires x >= 0 && 0 <= y <= 10000
    ensures 0 <= x * y <= x * 10000
  {
  }

  lemma PctNonNegative(amount: int, bps: int)
    requires amount >= 0 && bps >= 0
    ensures Pct(amount, bps) >= 0
  {
    assert amount * bps >= 0;
  }

  ghost predicate NonNegative(s: seq<int>) {
    forall i :: 0 <= i < |s| ==> s[i] >= 0
  }

  lemma {:induction false} SumNonNegative(s: seq<int>)
    requires NonNegative(s)
    ensures Sum(s) >= 0
    ensures forall i :: 0 <= i < |s| ==> s[i] <= Sum(s)
  {
    if s != [] {
      SumNonNegative(s[1..]);
      assert forall i :: 1 <= i < |s| ==> s[i] == s[1..][i-1];
    }
  }

  lemma SumLast(s: seq<int>)
    requires s != []
    ensures Sum(s) == Sum(s[..|s|-1]) + s[|s|-1]
  {
    SumAppend(s[..|s|-1], [s[|s|-1]]);
    assert s == s[..|s|-1] + [s[|s|-1]];
  }

  // --- what a deal can take off --------------------------------------------------------

  lemma {:induction false} MixOffBounds(prices: seq<int>, each: int)
    requires NonNegative(prices) && each >= 0
    ensures 0 <= MixOff(prices, each) <= Sum(prices)
  {
    if prices != [] {
      MixOffBounds(prices[..|prices|-1], each);
      SumLast(prices);
    }
  }

  lemma {:induction false} CheapestIsLeast(prices: seq<int>)
    requires prices != []
    ensures Cheapest(prices) in prices && forall p :: p in prices ==> Cheapest(prices) <= p
  {
    var init, last := prices[..|prices|-1], prices[|prices|-1];
    assert forall p :: p in prices <==> p in init || p == last;
    if |prices| > 1 {
      CheapestIsLeast(init);
    }
  }

  lemma CheapestBounds(prices: seq<int>)
    requires prices != [] && NonNegative(prices)
    ensures 0 <= Cheapest(prices) <= Sum(prices)
  {
    CheapestIsLeast(prices);
    SumNonNegative(prices);
    assert prices[0] in prices;
  }

  lemma {:induction false} SumAtLeast(s: seq<int>, low: int)
    requires forall i :: 0 <= i < |s| ==> s[i] >= low
    ensures Sum(s) >= low * |s|
  {
    if s != [] {
      SumAtLeast(s[1..], low);
    }
  }

  /** Priciest first, each discounted unit is the cheapest of its group of n, so n times the deal fits in the units. */
  lemma {:induction false} NthOffBounds(prices: seq<int>, n: int, pct: int)
    requires NonNegative(prices) && SortedBy(prices, Down) && n >= 1 && 0 <= pct <= 100
    ensures 0 <= NthOff(prices, n, pct) * n <= Sum(prices)
    ensures NthOff(prices, n, pct) >= 0
    decreases |prices|
  {
    SumNonNegative(prices);
    if |prices| >= n {
      var group, rest := prices[..n], prices[n..];
      NthOffBounds(rest, n, pct);
      PctBounds(prices[n-1], pct * 100);
      forall i | 0 <= i < n ensures group[i] >= prices[n-1] {
        assert Down(prices[i]) <= Down(prices[n-1]);
      }
      SumAtLeast(group, prices[n-1]);
      SumAppend(group, rest);
      assert prices == group + rest;
      var x := Pct(prices[n-1], pct * 100);
      MulMonotone(x, prices[n-1], n);
      MulMonotone(0, x, n);
      Distribute(n, x, NthOff(rest, n, pct));
    }
  }

  /** No automatic deal takes more than its eligible units cost; an nth deal takes at most one n-th of it. */
  lemma DealAmountBounds(d: Deal, prices: seq<int>, sub: int)
    requires ValidDeal(d) && NonNegative(prices)
    ensures 0 <= DealAmount(d, prices, sub) <= Sum(prices)
    ensures d.kind == Nth ==> DealAmount(d, prices, sub) * d.n <= Sum(prices)
  {
    SumNonNegative(prices);
    match d.kind
    case Mix => MixOffBounds(prices, d.eachCents);
    case Nth =>
      var sorted := SortBy(prices, Down);
      SortByIsSorted(prices, Down);
      SortByMembers(prices, Down);
      SumOfPermutation(prices, sorted);
      forall i | 0 <= i < |sorted| ensures sorted[i] >= 0 { assert sorted[i] in prices; }
      NthOffBounds(sorted, d.n, d.pct);
      var x := NthOff(sorted, d.n, d.pct);
      MulMonotone(1, d.n, x);
    case FreeItem => if prices != [] { CheapestBounds(prices); }
    case _ =>
  }

  // --- the discounts -------------------------------------------------------------------

  ghost predicate NonNegativeUnits(units: seq<Unit>) {
    forall u :: u in units ==> u.price >= 0
  }

  lemma {:induction false} EligibleUnitsAreUnits(units: seq<Unit>, el: Eligible)
    ensures forall u :: u in EligibleUnits(units, el) ==> u in units && Matches(el, u)
  {
    if units != [] {
      EligibleUnitsAreUnits(units[..|units|-1], el);
    }
  }

  lemma {:induction false} AutosArePositive(deals: seq<Deal>, clock: Clock, orderType: OrderType, units: seq<Unit>, sub: int)
    ensures forall a :: a in Autos(deals, clock, orderType, units, sub) ==> a.amountCents > 0
  {
    if deals != [] {
      AutosArePositive(deals[..|deals|-1], clock, orderType, units, sub);
    }
  }

  lemma CodeIsBounded(ctx: Context, clock: Clock, terms: Terms, sub: int)
    requires sub >= 0 && forall d :: d in ctx.deals ==> ValidDeal(d)
    ensures var c := CodeOf(ctx, clock, terms, sub);
      c.Granted? ==> 0 <= c.discount.amountCents <= sub
  {
    if terms.code != "" {
      match FindCode(ctx.deals, terms.code)
      case None =>
      case Some(d) =>
        if d.pct > 0 { PctBounds(sub, d.pct * 100); }
    }
  }

  ghost predicate NonNegativeDiscounts(ds: seq<Discount>) {
    forall d :: d in ds ==> d.amountCents >= 0
  }

  lemma AppliedAreNonNegative(ctx: Context, clock: Clock, terms: Terms, sub: int, units: seq<Unit>, hasBundle: bool)
    requires sub >= 0 && forall d :: d in ctx.deals ==> ValidDeal(d)
    ensures var autos := Autos(ctx.deals, clock, terms.orderType, units, sub);
      NonNegativeDiscounts(Applied(ctx.settings.stacking, hasBundle, autos, CodeOf(ctx, clock, terms, sub)))
  {
    hide Autos, CodeOf, ValidDeal, BestOf;
    AutosArePositive(ctx.deals, clock, terms.orderType, units, sub);
    CodeIsBounded(ctx, clock, terms, sub);
  }

  /** Clamping takes every discount until the food is used up: no less, and never more. */
  lemma {:induction false} ClampTakesWhatFits(ds: seq<Discount>, food: int)
    requires food >= 0 && NonNegativeDiscounts(ds)
    ensures Sum(Amounts(Clamp(ds, food))) == Min(food, Sum(Amounts(ds)))
    ensures NonNegativeDiscounts(Clamp(ds, food)) && NonNegative(Amounts(ds))
  {
    if ds != [] {
      var n := |ds| - 1;
      ClampTakesWhatFits(ds[..n], food);
      assert ds[n] in ds;
      var r := Clamp(ds, food);
      assert Amounts(ds)[..n] == Amounts(ds[..n]);
      assert Amounts(r)[..n] == Amounts(Clamp(ds[..n], food));
      SumLast(Amounts(ds));
      SumLast(Amounts(r));
      SumNonNegative(Amounts(ds[..n]));
    }
  }

  lemma FoodIsInRange(ctx: Context, clock: Clock, terms: Terms, sub: int, units: seq<Unit>, hasBundle: bool)
    requires sub >= 0 && forall d :: d in ctx.deals ==> ValidDeal(d)
    ensures var ds := FoodDiscounts(ctx, clock, terms, sub, units, hasBundle);
      NonNegativeDiscounts(ds) && 0 <= Sum(Amounts(ds)) <= sub
  {
    AppliedAreNonNegative(ctx, clock, terms, sub, units, hasBundle);
    var ds := Applied(ctx.settings.stacking, hasBundle, Autos(ctx.deals, clock, terms.orderType, units, sub),
                      CodeOf(ctx, clock, terms, sub));
    ClampTakesWhatFits(ds, sub);
    SumNonNegative(Amounts(ds));
  }

  lemma OneOfMany(ds: seq<Discount>, d: Discount)
    requires d in ds && NonNegativeDiscounts(ds)
    ensures d.amountCents <= Sum(Amounts(ds))
  {
    var i :| 0 <= i < |ds| && ds[i] == d;
    SumNonNegative(Amounts(ds));
    assert Amounts(ds)[i] == d.amountCents;
  }

  lemma OneNeverBeatsEvery(autos: seq<Discount>, code: CodeOutcome, food: int)
    requires food >= 0
    requires NonNegativeDiscounts(Applied(Stack, false, autos, code)) && NonNegativeDiscounts(PickOne(autos, code))
    ensures Sum(Amounts(Clamp(PickOne(autos, code), food)))
         <= Sum(Amounts(Clamp(Applied(Stack, false, autos, code), food)))
  {
    hide Sum, Clamp, BestOf;
    var every, one := Applied(Stack, false, autos, code), PickOne(autos, code);
    ClampTakesWhatFits(every, food);
    ClampTakesWhatFits(one, food);
    SumNonNegative(Amounts(every));
    if one == [] {
      assert Sum(Amounts(one)) == 0 by { EmptySum(); }
    } else {
      assert one[0] in every;
      OneOfMany(every, one[0]);
      assert Amounts(one) == [one[0].amountCents];
      SingleSum(one[0].amountCents);
    }
  }

  lemma EmptySum()
    ensures Sum([]) == 0
  {
  }

  lemma SingleSum(x: int)
    ensures Sum([x]) == x
  {
  }

  /** Stacking every discount never leaves more food to pay than taking the one best of them. */
  lemma StackNeverCostsMore(ctx: Context, clock: Clock, terms: Terms, t: Tally)
    requires Sum(Totals(t.lines)) >= 0 && forall d :: d in ctx.deals ==> ValidDeal(d)
    ensures var stack := ctx.(settings := ctx.settings.(stacking := Stack));
      var best := ctx.(settings := ctx.settings.(stacking := Best));
      FoodToPay(stack, clock, terms, t) <= FoodToPay(best, clock, terms, t)
  {
    hide Sum, Clamp, Autos, PickOne;
    var sub := Sum(Totals(t.lines));
    var stack := ctx.(settings := ctx.settings.(stacking := Stack));
    var best := ctx.(settings := ctx.settings.(stacking := Best));
    SameCode(ctx, stack, clock, terms, sub);
    SameCode(ctx, best, clock, terms, sub);
    hide CodeOf;
    AppliedAreNonNegative(stack, clock, terms, sub, t.units, t.hasBundle);
    AppliedAreNonNegative(best, clock, terms, sub, t.units, t.hasBundle);
    OneNeverBeatsEvery(Autos(ctx.deals, clock, terms.orderType, t.units, sub), CodeOf(ctx, clock, terms, sub), sub);
  }

  /** What a code gives depends on the deals alone. */
  lemma SameCode(a: Context, b: Context, clock: Clock, terms: Terms, sub: int)
    requires a.deals == b.deals
    ensures CodeOf(a, clock, terms, sub) == CodeOf(b, clock, terms, sub)
  {
  }

  // --- sharing the discounts out ------------------------------------------

  /** Every rate but the last takes its share rounded down to a cent, and stays within its own food. */
  lemma ShareIsProportional(off: int, gross: int, sub: int)
    requires 0 <= off <= sub && 0 <= gross && sub > 0
    ensures var share := GoDiv(off * gross, sub);
      share * sub <= off * gross < (share + 1) * sub && 0 <= share <= gross
  {
    MulMonotone(0, off, gross);
    var share := GoDiv(off * gross, sub);
    DivBounds(off * gross, sub);
    MulMonotone(off, sub, gross);
    MulCancel(share, gross, sub);
  }

  lemma DivBounds(a: int, b: int)
    requires a >= 0 && b > 0
    ensures (a / b) * b <= a < (a / b + 1) * b && a / b >= 0
  {
    Distribute(b, a / b, 1);
  }

  lemma {:induction false} SharesPrefix(grosses: seq<int>, m: nat, n: nat, sub: int, off: int)
    requires m <= n <= |grosses|
    ensures Shares(grosses, n, sub, off)[..m] == Shares(grosses, m, sub, off)
  {
    if m < n {
      SharesPrefix(grosses, m, n - 1, sub, off);
      assert Shares(grosses, n, sub, off)[..n-1] == Shares(grosses, n - 1, sub, off);
    }
  }

  /** Before the last rate, the shares taken fall short of proportional by less than a cent each. */
  lemma {:induction false} SharesFallShort(grosses: seq<int>, n: nat, sub: int, off: int)
    requires n < |grosses| && 0 <= off <= sub && sub > 0 && NonNegative(grosses)
    ensures Sum(Shares(grosses, n, sub, off)) * sub <= off * Sum(grosses[..n])
    ensures off * Sum(grosses[..n]) <= Sum(Shares(grosses, n, sub, off)) * sub + n * (sub - 1)
  {
    if n == 0 {
    } else {
      var k := n - 1;
      SharesFallShort(grosses, k, sub, off);
      var before, all := Shares(grosses, k, sub, off), Shares(grosses, n, sub, off);
      var share := GoDiv(off * grosses[k], sub);
      ShareIsProportional(off, grosses[k], sub);
      assert all == before + [share];
      SumAppend(before, [share]);
      assert grosses[..n] == grosses[..k] + [grosses[k]];
      SumAppend(grosses[..k], [grosses[k]]);
      assert Sum([share]) == share && Sum([grosses[k]]) == grosses[k];
      OneMoreShare(Sum(before), share, Sum(grosses[..k]), grosses[k], k, sub, off);
    }
  }

  lemma OneMoreShare(taken: int, share: int, food: int, gross: int, k: nat, sub: int, off: int)
    requires taken * sub <= off * food <= taken * sub + k * (sub - 1)
    requires share * sub <= off * gross < (share + 1) * sub
    ensures (taken + share) * sub <= off * (food + gross) <= (taken + share) * sub + (k + 1) * (sub - 1)
  {
    Distribute(off, food, gross);
    Distribute(sub, taken, share);
    Distribute(sub, share, 1);
    Distribute(sub - 1, k, 1);
  }

  /**
   * The taxed bases add up to the food after discounts. Every rate but the last carries its proportional share rounded
   * down, so its base stays between nothing and its own food; the last rate carries what is left, which is less than
   * n-1 cents more than proportional, so its base is never below -(n-2).
   */
  lemma TaxSpread(grosses: seq<int>, sub: int, off: int)
    requires grosses != [] && NonNegative(grosses) && Sum(grosses) == sub && 0 <= off <= sub
    ensures var bases := Bases(grosses, sub, off); var n := |grosses|;
      && Sum(bases) == sub - off
      && (forall k :: 0 <= k < n - 1 ==> 0 <= bases[k] <= grosses[k])
      && -Max(0, n - 2) <= bases[n-1] <= grosses[n-1]
    ensures var shares := Shares(grosses, |grosses|, sub, off); var n := |grosses|;
      sub > 0 ==>
        && (forall k :: 0 <= k < n - 1 ==> shares[k] * sub <= off * grosses[k] < (shares[k] + 1) * sub)
        && off * grosses[n-1] <= shares[n-1] * sub <= off * grosses[n-1] + (n - 1) * (sub - 1)
  {
    hide Sum;
    var n := |grosses|;
    var shares, bases := Shares(grosses, n, sub, off), Bases(grosses, sub, off);
    SumNonNegative(grosses);
    if sub <= 0 {
      SharesAreNone(grosses, n, sub, off);
      assert bases == grosses;
    } else {
      var before := Shares(grosses, n - 1, sub, off);
      assert shares == before + [off - Sum(before)];
      hide Shares;
      SumAppend(before, [off - Sum(before)]);
      SingleSum(off - Sum(before));
      SumOfDifferences(grosses, shares, bases);
      forall k | 0 <= k < n - 1
        ensures 0 <= shares[k] <= grosses[k] && shares[k] * sub <= off * grosses[k] < (shares[k] + 1) * sub
      {
        ShareBeforeLast(grosses, k, sub, off);
      }
      SharesFallShort(grosses, n - 1, sub, off);
      SumLast(grosses);
      LastShare(grosses, sub, off, Sum(before));
    }
  }

  lemma ShareBeforeLast(grosses: seq<int>, k: nat, sub: int, off: int)
    requires k < |grosses| - 1 && NonNegative(grosses) && 0 <= off <= sub && sub > 0
    ensures var share := Shares(grosses, |grosses|, sub, off)[k];
      0 <= share <= grosses[k] && share * sub <= off * grosses[k] < (share + 1) * sub
  {
    SharesPrefix(grosses, k + 1, |grosses|, sub, off);
    assert Shares(grosses, |grosses|, sub, off)[..k+1][k] == Shares(grosses, k + 1, sub, off)[k];
    ShareIsProportional(off, grosses[k], sub);
  }

  lemma {:induction false} SharesAreNone(grosses: seq<int>, n: nat, sub: int, off: int)
    requires n <= |grosses| && sub <= 0
    ensures forall k :: 0 <= k < n ==> Shares(grosses, n, sub, off)[k] == 0
  {
    if n > 0 {
      SharesAreNone(grosses, n - 1, sub, off);
    }
  }

  lemma {:induction false} SumOfDifferences(a: seq<int>, b: seq<int>, c: seq<int>)
    requires |a| == |b| == |c| && forall k :: 0 <= k < |a| ==> c[k] == a[k] - b[k]
    ensures Sum(c) == Sum(a) - Sum(b)
  {
    if a != [] {
      SumOfDifferences(a[1..], b[1..], c[1..]);
    }
  }

  lemma LastShare(grosses: seq<int>, sub: int, off: int, taken: int)
    requires grosses != [] && sub > 0 && 0 <= off <= sub
    requires Sum(grosses) == sub == Sum(grosses[..|grosses|-1]) + grosses[|grosses|-1]
    requires grosses[|grosses|-1] >= 0
    requires taken * sub <= off * Sum(grosses[..|grosses|-1]) <= taken * sub + (|grosses| - 1) * (sub - 1)
    ensures var n := |grosses|; var last := off - taken;
      && off * grosses[n-1] <= last * sub <= off * grosses[n-1] + (n - 1) * (sub - 1)
      && -Max(0, n - 2) <= grosses[n-1] - last <= grosses[n-1]
  {
    var n := |grosses|;
    var last, g := off - taken, grosses[n-1];
    Distribute(off, Sum(grosses[..n-1]), g);
    Distribute(sub, last, taken);
    MulMonotone(off, sub, g);
    MulMonotone(0, off, g);
    MulCancel(0, last, sub);
    Distribute(sub, g, n - 1);
    Distribute(n - 1, sub, -1);
    if n == 1 {
      MulCancel(last, g, sub);
    } else {
      assert last * sub <= (g + n - 1) * sub - (n - 1);
      MulCancelStrict(last, g + n - 1, sub);
    }
  }

  lemma MulCancelStrict(a: int, b: int, m: int)
    requires a * m < b * m && m > 0
    ensures a < b
  {
    MulCancel(a, b, m);
  }
}
