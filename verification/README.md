# QuiccPOS main service: pricing, orders, floor, menus, hours and limits

A Dafny model of the parts of the order service where two computations must agree, or where an
invariant has to hold over every run. `dafny verify dfyconfig.toml` checks all of it.

- **Pricing** (`Pricing*.dfy`). The engine turns a cart into a quote in whole cents: options with
  the priciest free, bundles, automatic deals, codes, stacking, clamping, tax spread over rates,
  fees, tips. `PricingItem` and `PricingCart` specify it; `PricingEngine` is the engine with its
  loops, maps and in-place clamp, proved equal to the specification. `PricingMoney`, `PricingQuote`
  and `PricingInvariance` prove what the money of a quote obeys; `PricingDiscounts`, `PricingFees`
  and `PricingRules` say which discounts count, what is charged, and why a cart cannot be ordered.
- **Order port** (`OrderPort.dfy`, `OrderMoney.dfy`, `CardFeeCase.dfy`). Building an order computes
  the same money along another path, and a new order is refused unless the two agree.
- **Orders and the floor** (`Orders.dfy`, `OrderLife.dfy`, `OrderMoves.dfy`, `StoredOrders.dfy`,
  `FloorEvents.dfy`, `AgentRows.dfy`, `FloorService.dfy`, `FloorDelivery.dfy`). The order aggregate as
  a class, its runs, the RPC that receives floor events at least once, and what of them reaches the
  stored orders.
- **Limits** (`RateLimit.dfy`, `DiagLimits.dfy`). Sliding windows, and four of them taken as one step.
- **Hours** (`Hours.dfy`, `Schedules.dfy`, `StoreStatus.dfy`). Weekly hours, dated exceptions,
  pauses, the next opening, the close, and the times an order can be promised for.
- **Menu views** (`MenuBank.dfy`, `MenuView.dfy`, `MenuCompiler.dfy`, `MenuPlacement.dfy`, `MenuEntries.dfy`,
  `MenuOrder.dfy`, `MenuGroups.dfy`, `MenuStock.dfy`, `CompiledPrices.dfy`, `CompiledOptions.dfy`).
  Compiling a view of the bank, and pricing what comes of it.
- **Menu file** (`Upserts.dfy`, `MenuCsv.dfy`, `MenuImport.dfy`, `MenuCsvLaws.dfy`, `MenuTally.dfy`,
  `MenuRoundTrip.dfy`). The diffing importer with its dry run and its report, and the export.

`Sequences.dfy`, `Options.dfy`, `Text.dfy` and `MenuBuild.dfy` hold what the others share.

## What the proofs found

Where the code and what it promises disagree, the model follows the code; lemmas give an input and say exactly
when the promise holds.

- **A negative card fee is dropped.** The last of three or more tax rates can be charged on a base
  below nothing, so with a surcharge the card fee can be negative. The quote's total carries it;
  `build` adds only a card fee above nothing (backend/internal/app/orderport/service.go:494). The built breakdown is off by exactly that
  fee: the order is refused if and only if the fee is below -1 cent
  (`OrderMoney.BreakdownMeetsTheQuote`, `CardFeeCase.ANegativeCardFeeIsRefused`). An item's own
  tax rate is not capped (backend/internal/app/menu/service.go:237), so such rates pass the editor;
  up to sixteen rates of at most 100% never get there (`OrderMoney.SixteenOrdinaryRatesBecomeAnOrder`).
- **An equal-time agent status is replaced.** backend/internal/domain/order/repo.go:122-126 has an equal-or-newer
  stored status win; the statement (backend/sql/query.sql:794-800) lets the later arrival of two at one time win
  (`AgentRows.TheLaterOfTwoIsKept`). The two agree on every delivery if and only if no two different
  statuses of an order share a time (`AgentRows.WhenRowsAreAsDocumented`).
- **Stored orders need not converge.** A stale result is not written back (backend/internal/infra/database/repositories/floor_repo.go:59-93), so a newest
  report that repeats what is known does not shield the order from an older one
  (`StoredOrders.StoredOrdersNeedNotConverge`). `StoredOrders.StoredFieldsConverge` says of which
  reports the stored fields converge in every delivery; on one live aggregate they always do.
- **Grace near midnight.** `IsOpen` with a grace looks at two dates only and can miss tomorrow's
  first stretch or the one from the day before yesterday; `Hours.GraceNearMidnight` gives the exact
  times of day, `Hours.TheMissedWeek` the weeks.
- **A close that is not one.** `ClosesAt` follows the chain over three dates only, so a store open
  round the clock is given a close (`Schedules.RoundTheClockIsGivenAClose`);
  `Schedules.WhenTheCloseIsTheEnd` says for which schedules that happens.
- **The end of a period can be promised.** `Times` compares with the end inclusively (backend/internal/domain/storestatus/status.go:417),
  while its comment says the time falls before the close (`StoreStatus.AnEndIsListed`,
  `StoreStatus.WhenTheEndIsListed`); without an ETA that time is not inside the period
  (`StoreStatus.PromisesCanBeKept`).
- **A next-open time need not mean orders.** It says when the store is open and unpaused, and is
  given to a store with both order types off as well (`StoreStatus.TypesOffAreGivenANextOpen`); orders
  are taken then if and only if a type is on (`StoreStatus.WhenTheNextOpenTakesOrders`).
- **Ties between printers.** The comment at backend/internal/app/menu/csvio.go:499 lets the printer named first win a tie; the loop
  picks the one that is first to be named as often as any (`MenuCsvLaws.WhichPrinterIsPicked`,
  `MenuCsvLaws.FirstNamedNeedNotWinATie`).
- **Places of moved items.** The first loop over the bank counts every menu's categories, the second
  only those of menus that are on (backend/internal/domain/menuview/compile.go:227-259), so a category that an entry's name opens
  stands elsewhere if and only if a menu up to it is off (`MenuOrder.WhereACategoryStands`), and a later
  category can come to stand before it (`MenuOrder.AMoveChangesTheOrder`). `MenuOrder.WhenTheBankOrderIsKept`
  says exactly when; with every menu on it never does (`MenuOrder.EveryMenuOnKeepsTheOrder`).
- **Groups of merges that are not placed** are listed although no shown item need use them
  (`MenuGroups.AHiddenMergeListsAnUnusedGroup`, `MenuGroups.EveryListedGroupIsUsed`).
- **Mixed categories do not survive the file.** An item that prints nowhere comes back on the
  category's new default when others of its category name a printer
  (`MenuRoundTrip.AMixedCategoryComesBackOnOnePrinter`); a description with blanks around it comes back
  trimmed (`MenuRoundTrip.ABlankDescriptionIsLost`). `MenuRoundTrip.CategoryBack` says exactly which
  categories survive.

## Model

| member | source | states |
|---|---|---|
| PricingMoney.PctBounds | backend/internal/domain/pricing/engine.go:17-22 | a percentage up to 100% of a non-negative amount stays between nothing and the amount |
| PricingEngine.Engine.PriceOne | backend/internal/domain/pricing/engine.go:198-355 | the item loop, with its maps, picks, sorts and marks, prices exactly as the item specification, for every selection |
| PricingItem.UnitIsBasePlusCharges | backend/internal/domain/pricing/engine.go:333-353 | the unit price and the options marked to pay agree: the extras charged are what the uncharged marks leave |
| PricingItem.IncludedAreTheUncharged | backend/internal/domain/pricing/engine.go:333-351 | charging all but the priciest n prices comes to the sum over the options not marked included |
| PricingItem.IncludedArePriciest | backend/internal/domain/pricing/engine.go:339-351 | an option that came free costs at least what any option left to pay does |
| PricingItem.MarkedExactly | backend/internal/domain/pricing/engine.go:339-351 | marking touches nothing but the flag of the options it names |
| PricingEngine.Engine.constructor | backend/internal/domain/pricing/engine.go:169-182 | the id maps answer as the lists: the first item and the last group of an id |
| PricingEngine.Engine.BundleLine | backend/internal/domain/pricing/engine.go:419-465 | a bundle line, step by step, is the bundle specification |
| PricingEngine.Engine.AutomaticDeals | backend/internal/domain/pricing/engine.go:474-527 | the loop over deals finds exactly the automatic discounts, in order |
| PricingEngine.Engine.NthAmount | backend/internal/domain/pricing/engine.go:498-508 | the stride over the sorted units takes one discounted unit of every n |
| PricingEngine.Engine.PromoCode | backend/internal/domain/pricing/engine.go:529-555 | the code is granted, refused for one of three reasons, or absent |
| PricingEngine.Engine.ClampInPlace | backend/internal/domain/pricing/engine.go:598-606 | the in-place clamp is the clamp specification |
| PricingEngine.Engine.TaxFood | backend/internal/domain/pricing/engine.go:646-669 | the spread loop charges each ascending rate on its share |
| PricingEngine.Engine.PriceCart | backend/internal/domain/pricing/engine.go:367-692 | pricing a cart, loops and all, is the quote specification for every context and cart |
| PricingMoney.NthOffBounds | backend/internal/domain/pricing/engine.go:498-505 | with the units priciest first, n times an nth deal fits in what they cost: each discounted unit is the cheapest of its group |
| PricingMoney.DealAmountBounds | backend/internal/domain/pricing/engine.go:486-523 | an automatic deal takes between nothing and all of its eligible units |
| PricingQuote.DealsTakeAtMostTheirUnits | backend/internal/domain/pricing/engine.go:474-527 | in every cart, an automatic deal takes at most its eligible units, an nth deal at most an n-th of them |
| PricingMoney.ClampTakesWhatFits | backend/internal/domain/pricing/engine.go:598-606 | clamping takes the discounts up to the food: exactly the smaller of the two |
| PricingMoney.StackNeverCostsMore | backend/internal/domain/pricing/engine.go:557-606 | before any cash discount, stacking never leaves more food to pay than the one best discount |
| PricingMoney.ShareIsProportional | backend/internal/domain/pricing/engine.go:656-667 | a share before the last is proportional, rounded down by less than a cent, and within its own food |
| PricingMoney.SharesFallShort | backend/internal/domain/pricing/engine.go:655-668 | the shares of the first rates together fall short of proportional by less than a cent each |
| PricingMoney.TaxSpread | backend/internal/domain/pricing/engine.go:643-669 | the taxed bases add up to the food after discounts; every base but the last stays within its food, the last is never below -(n-2) cents and its share within n-1 cents of proportional |
| PricingQuote.QuoteConservesMoney | backend/internal/domain/pricing/engine.go:366-692 | the total is subtotal less discounts plus fees, tax, tip and card fee; food after discounts stays within the subtotal |
| PricingQuote.TaxedFoodIsTheFoodAfterDiscounts | backend/internal/domain/pricing/engine.go:643-670 | the tax is charged on bases that add up to the food after discounts, plus the service fee |
| PricingQuote.TwoRatesKeepTheCardFeeNonNegative | backend/internal/domain/pricing/engine.go:643-688 | with at most two tax rates neither the tax nor the card fee is negative |
| PricingQuote.CardFeeFollowsTheTax | backend/internal/domain/pricing/engine.go:686-688 | the surcharge is taken on food after discounts, fees and tax; there is none otherwise |
| PricingQuote.WhenTheCardFeeIsNegative | backend/internal/domain/pricing/engine.go:686-688 | the card fee is negative if and only if that amount times its rate is at most -5000 |
| PricingQuote.LowRatesKeepTheCardFeeUp | backend/internal/domain/pricing/engine.go:643-688 | while the distinct rates beyond two times the highest stay below 145000 basis points, the card fee is at least -1 |
| PricingDiscounts.TheBestOneCounts | backend/internal/domain/pricing/engine.go:557-596 | unless stacked, one discount at most counts: the code when it takes as much as any deal, or else the first of the deals that take most |
| PricingDiscounts.NothingOnOfferTakesMore | backend/internal/domain/pricing/engine.go:557-606 | then no automatic deal and no granted code would have left less food to pay |
| PricingDiscounts.WhatElseCounts | backend/internal/domain/pricing/engine.go:582-606 | stacked, every deal and then the code is taken, up to the food; a bundle under "single" leaves no other discount |
| PricingDiscounts.PctIsNearest | backend/internal/domain/pricing/engine.go:17-22 | a percentage is rounded to the nearest cent, halves away from nothing |
| PricingDiscounts.AWindowGoesRoundTheDay | backend/internal/domain/pricing/engine.go:82-93 | a deal window is an arc of the day: overnight windows are the complement of daytime ones |
| PricingDiscounts.WhenADealRuns | backend/internal/domain/pricing/engine.go:45-95 | a deal runs when it is on, for its order type or before one is chosen, on its days and in its window |
| PricingDiscounts.DealsTakeWhatTheySay | backend/internal/domain/pricing/engine.go:486-523 | a mix caps each unit at its price, an nth deal takes its share of every n-th unit priciest first, a free item is a cheapest one |
| PricingDiscounts.AutosAreWhatDealsGive | backend/internal/domain/pricing/engine.go:474-527 | the automatic discounts are what running deals take of the units that fit them, and none is missed |
| PricingDiscounts.AutosKeepTheOrder | backend/internal/domain/pricing/engine.go:474-527 | they stand in the order of the deals |
| PricingDiscounts.WhenADealGivesNothing | backend/internal/domain/pricing/engine.go:474-527 | a deal gives nothing only when it does not run, is for no units, or takes nothing of the ones it is for |
| PricingDiscounts.WhatACodeGives | backend/internal/domain/pricing/engine.go:529-555 | when the deal a code names is granted or refused and why, and that it takes its percentage or amount up to the food |
| PricingDiscounts.ACodeThatNamesNothing | backend/internal/domain/pricing/engine.go:529-540 | no code asked for gives nothing, and one that no deal has is invalid |
| PricingFees.WhatIsCharged | backend/internal/domain/pricing/engine.go:608-642 | delivery, service and cash discount of every quote: delivery on the food before any cash discount, service on the food after it |
| PricingFees.WhereTheCashDiscountStands | backend/internal/domain/pricing/engine.go:634-642 | the discounts are those on the food and then, where cash is rewarded and some food is left to pay, the one for cash |
| PricingFees.WhatIsTipped | backend/internal/domain/pricing/engine.go:672-685 | the tip asked for in cents, else in percent up to 100 of the food after discounts, else the store default; none where tips are off |
| PricingFees.WhatAnItemComesTo | backend/internal/domain/pricing/engine.go:380-418 | an item line: quantity clamped to 1..50, its unit price, its own tax rate or the store's, and units for deals only when clean |
| PricingFees.WhatABundleComesTo | backend/internal/domain/pricing/engine.go:432-465 | a bundle line: price and extras, taxed as its first pick with a rate, and saved what the picks cost beyond it |
| PricingFees.WhichBundleIsMeant | backend/internal/domain/pricing/engine.go:420-426 | a bundle line is for the last bundle of the store with its id |
| PricingFees.WhatAnEndedDealComesTo | backend/internal/domain/pricing/engine.go:420-431 | a bundle that is gone or off costs nothing and cannot be ordered |
| PricingFees.WhatWasSaved | backend/internal/domain/pricing/engine.go:689-692 | what was saved is every discount and what bundles cost below the menu |
| PricingFees.TheTallyIsLineByLine | backend/internal/domain/pricing/engine.go:392-465 | a line more adds what that line comes to, and changes nothing of the others |
| PricingFees.WhyItCannotBeOrdered | backend/internal/domain/pricing/engine.go:466-625 | every issue of a quote that is not of a line, each if and only if its cause |
| PricingRules.WhyAnItemCannotBeOrdered | backend/internal/domain/pricing/engine.go:198-332 | every issue of a priced item, each if and only if its cause in the menu and the picks |
| PricingRules.WhenAnItemCanBeOrdered | backend/internal/domain/pricing/engine.go:198-332 | a selection is without issues if and only if nothing of that is wrong |
| PricingRules.WhatIsOffered | backend/internal/domain/pricing/engine.go:203-225 | what a selection is of: a choice of a combined item, the item itself, or an added item, taxed as its first |
| PricingRules.WhatIsPriced | backend/internal/domain/pricing/engine.go:198-245 | the name, choice, size and base price a selection is priced under |
| PricingRules.WhatAnOptionCosts | backend/internal/domain/pricing/engine.go:285-290 | an option costs the last price named for the size sold, else its own |
| PricingRules.PicksAreTaken | backend/internal/domain/pricing/engine.go:262-300 | picks the menu knows become options in their order, at their price and half |
| PricingRules.DefaultsLeftOff | backend/internal/domain/pricing/engine.go:302-311 | the defaults left off are those no pick names, at no charge |
| PricingRules.WhatAGroupTakes | backend/internal/domain/pricing/engine.go:262-311 | a group gives its picks and, when more than one may be made, the defaults left off |
| PricingRules.WhyABundleCannotBeOrdered | backend/internal/domain/pricing/engine.go:425-452 | every issue of a bundle line, each if and only if its cause |
| PricingRules.IssuesStandAsTheSteps | backend/internal/domain/pricing/engine.go:435-452 | what is wrong with earlier steps of a bundle is reported before what is wrong with later ones |
| PricingInvariance.LineOrderDoesNotMatter | backend/internal/domain/pricing/engine.go:392-692 | permuting the lines changes no amount, discount or orderability |
| PricingInvariance.SplittingALineDoesNotMatter | backend/internal/domain/pricing/engine.go:392-692 | nor does splitting a line of a+b units (at most 50) into two |
| PricingInvariance.DealAmountOfPermutation | backend/internal/domain/pricing/engine.go:486-523 | a deal depends on the multiset of eligible units alone |
| PricingInvariance.FoodTaxDependsOnGrosses | backend/internal/domain/pricing/engine.go:643-669 | the food tax depends on the food at each rate alone |
| OrderPort.LineCostsWhatWasQuoted | backend/internal/app/orderport/service.go:394-430 | a line built from parent and children costs what the engine charged for the item |
| OrderPort.BuildLine | backend/internal/app/orderport/service.go:394-430 | the child-by-child loop builds the specified line |
| OrderPort.BuildCombo | backend/internal/app/orderport/service.go:446-455 | the picks of a combo become its lines, one per step that has a pick |
| OrderPort.BuildAll | backend/internal/app/orderport/service.go:431-464 | lines, combo discounts and combo fees gathered over the request, or none when a deal is gone |
| OrderPort.BuildMoney | backend/internal/app/orderport/service.go:481-496 | every quote discount and every fee above nothing is carried over beside the combo ones |
| OrderPort.Build | backend/internal/app/orderport/service.go:374-552 | building and then making the order: its input, or the refusal |
| OrderPort.TheMoneyCarriesTheQuote | backend/internal/app/orderport/service.go:475-496 | tax, tip and total are the quote's, each fee stands under its kind, and the discounts of each kind come to the quote's with the combos among the deals |
| OrderPort.HowAComboIsCarried | backend/internal/app/orderport/service.go:446-464 | what a combo's lines cost beyond its price is a discount under its name, what they fall short of it a fee |
| OrderPort.HowADiscountIsCarried | backend/internal/app/orderport/service.go:480-487 | a code is carried as a promotion under its own name, any other discount under its label |
| OrderPort.WhatALineSays | backend/internal/app/orderport/service.go:394-430 | name, size, quantity, price and kitchen route of a line, and of each option under it |
| OrderPort.LinesKeepTheirPlaces | backend/internal/app/orderport/service.go:431-445 | without combos there is one line for each of the cart, in order and with its note |
| OrderMoney.LinesComeToTheSubtotal | backend/internal/app/orderport/service.go:431-480 | the line totals with the combos set right come to the quote subtotal, for every cart |
| OrderMoney.MoneyMayBeACentOut | backend/internal/domain/order/entity.go:512-527 | the money of an order may be out by a cent either way and no more |
| OrderMoney.ComboIsOffTheBasePrices | backend/internal/app/orderport/service.go:455-463 | a combo is off what its picks' base prices come to beyond its own price |
| OrderMoney.BreakdownMeetsTheQuote | backend/internal/app/orderport/service.go:374-496 | the breakdown built differs from the total by exactly min(0, card fee), so it reconciles if and only if the card fee is at least -1 cent |
| OrderMoney.OrderableCartBecomesAnOrder | backend/internal/domain/order/entity.go:313-337 | a cart priced without issues becomes an order if and only if its card fee is at least -1 cent |
| OrderMoney.SixteenOrdinaryRatesBecomeAnOrder | backend/internal/domain/order/entity.go:313-337 | an issue-free cart of at most sixteen tax rates, none above 100%, always becomes an order |
| CardFeeCase.ANegativeCardFeeIsRefused | backend/internal/app/orderport/service.go:494-496 | a valid cart at three rates whose card fee is -2: it prices without issues and is refused |
| Orders.MoneyReconciles | backend/internal/domain/order/entity.go:512-527 | the two summing loops decide the one-cent test |
| OrderMoves.WhyAnOrderIsRefused | backend/internal/domain/order/entity.go:313-337 | an input makes an order if and only if it is complete and its money adds up; each refusal has its cause |
| Orders.Order.Transition | backend/internal/domain/order/entity.go:471-505 | the state after a transition, or the refusal that changes nothing |
| Orders.Order.ApplyFloorUpdate | backend/internal/domain/order/floor.go:72-137 | the whole state after a floor update and its answer |
| Orders.Order.ApplyFloorCancel | backend/internal/domain/order/floor.go:143-163 | cancels only what nobody accepted |
| Orders.Order.ApplyNotDelivered | backend/internal/domain/order/floor.go:184-228 | the one step backwards: whole state and answer |
| OrderLife.EveryStepIsLawful | backend/internal/domain/order/floor.go:64-228 | every method: history grows by at most the step taken, the floor time never goes back, rank falls only when not-delivered lands on ready, an applied change is announced once with the new state, a stale one changes at most the floor time |
| OrderLife.EveryRunIsChained | backend/internal/domain/order/entity.go:339-366 | over every run the history is a chain from received to the current status |
| OrderLife.TheEventsTellTheOrder | backend/internal/domain/order/entity.go:339-366 | over every run the events start with the order received, each change goes on from the last, and the last shows the order as it is |
| OrderLife.DeadStaysDead | backend/internal/domain/order/floor.go:100-102 | once rejected or cancelled an order never changes again, whatever step comes |
| OrderLife.RunsOnlyGrow | backend/internal/domain/order/floor.go:103-117 | over every run the floor time never goes back, history and events only grow |
| OrderMoves.WhereATransitionLeads | backend/internal/domain/order/entity.go:471-505 | a transition is taken if and only if the lifecycle has it: one step on, a rejection before acceptance, a reasoned cancellation after; with its whole effect and each refusal |
| OrderMoves.TransitionsGoTheWholeWay | backend/internal/domain/order/entity.go:72-80 | by transitions alone an order has come through every status before its own and no other |
| OrderMoves.RanksFollowTheWay | backend/internal/domain/order/floor.go:24-35 | the floor ranks statuses as an order comes to them, rejected and cancelled below all |
| OrderMoves.WhatAReportDoes | backend/internal/domain/order/floor.go:72-137 | forward only; each field from the report unless it is late or silent on it; applied if and only if something shows |
| OrderMoves.WhatAFloorCancelDoes | backend/internal/domain/order/floor.go:143-163 | the floor cancels if and only if the order waits to be accepted |
| OrderMoves.WhatARetryDoes | backend/internal/domain/order/floor.go:184-228 | a retry applies if and only if it is not late and the order is out, completed, or ready with a driver; it leaves the order ready without a driver, all else as it was |
| OrderMoves.WhatACancelDoes | backend/internal/domain/order/floor.go:184-228 | a cancel applies if and only if it is not late and the order is ready, out or completed; it leaves the order cancelled |
| OrderMoves.NoOtherReturnApplies | backend/internal/domain/order/floor.go:213-215 | a return with any other action changes nothing |
| OrderMoves.ARetriedOrderGoesOutAgain | backend/internal/domain/order/floor.go:170-228 | after a retry any report of the order on the road is applied and puts it on the road |
| OrderMoves.ACancelledReturnIsFinal | backend/internal/domain/order/floor.go:170-228 | after a cancel no step changes the order |
| OrderLife.MirrorConverges | backend/internal/domain/order/floor.go:72-137 | distinct-time full reports in any order, with repeats, end at the furthest status with the newest fields and time |
| OrderLife.DeliveryOrderDoesNotMatter | backend/internal/domain/order/floor.go:72-137 | two deliveries of the same reports end in the same snapshot |
| StoredOrders.NoFloorTimeNoDriver | backend/internal/domain/order/floor.go:114-131 | over every run, an order without a floor time has no driver |
| StoredOrders.StoringForgetsOnlyTheTime | backend/internal/infra/database/repositories/floor_repo.go:59-93 | the stored order differs from the live one exactly when a newer report changed nothing visible |
| StoredOrders.StoredOrdersNeedNotConverge | backend/internal/infra/database/repositories/floor_repo.go:59-93 | three reports whose delivery order shows in the stored order |
| StoredOrders.StoredFieldsConverge | backend/internal/infra/database/repositories/floor_repo.go:59-93 | once the newest of some reports has come, the stored kitchen number, estimate and driver are its own at every moment of every delivery, if and only if no earlier report that leaves it nothing to say is followed by one that says something else |
| StoredOrders.StoredTimeConverges | backend/internal/infra/database/repositories/floor_repo.go:59-93 | the stored floor time is the newest report's too if and only if no other report leaves it nothing to say |
| StoredOrders.StoredStatusIsTheFurthest | backend/internal/infra/database/repositories/floor_repo.go:59-93 | whatever is stored or not, the status is the furthest that came |
| FloorService.Service.Handle | backend/internal/app/floor/service.go:100-137 | a POST, with the repository failing after any call, leaves what its first calls leave; it answers each event only if all succeed |
| FloorService.Service.Apply | backend/internal/app/floor/service.go:139-250 | one event is its transaction, then storing the agent status |
| FloorService.Service.CommitEvent | backend/internal/app/floor/service.go:139-250 | each event type: what it writes and what it answers |
| FloorService.Service.KeepAgentStatus | backend/sql/query.sql:794-800 | the newest status is kept, the later arrival of two at one time |
| FloorEvents.ResendingIsOneCleanPass | backend/internal/app/floor/service.go:100-137 | POSTs that fail after any repository call, resent until one succeeds, leave orders, seen events and agent statuses as one clean pass |
| FloorEvents.CallsAreIdempotent | backend/internal/app/floor/service.go:187-261 | running the same calls again changes nothing |
| FloorEvents.SeenCallsMoveNothing | backend/internal/infra/database/repositories/floor_repo.go:44-58 | calls whose events were seen move nothing but agent statuses |
| FloorEvents.TheNewestStatusIsKept | backend/sql/query.sql:794-800 | the row keeps a status sent at the newest time of all that came |
| FloorEvents.RepostingAnswersDuplicate | backend/internal/app/floor/service.go:100-137 | posting a whole batch again answers duplicate to every event that was read, and invalid only to posts without one |
| FloorDelivery.OrdersFollowTheirEvents | backend/internal/infra/database/repositories/floor_repo.go:21-186 | after any calls each order is the old one run through the new events as they first came, reports and returns kept when applied; so are roster, shifts and runs |
| FloorDelivery.WhatANewEventIsAnswered | backend/internal/app/floor/service.go:139-262 | a new event is answered what became of its order, or why it could not be about one |
| FloorDelivery.OthersStay | backend/internal/infra/database/repositories/floor_repo.go:21-98 | an order no new event is about stays as it is |
| FloorDelivery.ReportsRunTheOrder | backend/internal/infra/database/repositories/floor_repo.go:21-98 | reports alone run a stored order as StoredRun does, but for the stamp of the last change |
| FloorDelivery.TheStoreConverges | backend/internal/infra/database/repositories/floor_repo.go:21-98 | once the newest report has come, the store holds its fields, through any order, repeats and failures, unless it is overtaken |
| FloorDelivery.WhoseStatusIsKept | backend/internal/app/floor/service.go:187-251 | whose agent status an event carries |
| FloorDelivery.NothingKept | backend/sql/query.sql:794-800 | of an order no status was kept for nothing is known |
| AgentRows.WhenOnePutIsAsDocumented | backend/sql/query.sql:794-800 | storing one agent status follows the documented rule if and only if none of its time is stored or nothing changes |
| AgentRows.WhenRowsAreAsDocumented | backend/sql/query.sql:794-800 | in every delivery an order's row is as documented if and only if no two different statuses of it were sent at one time |
| AgentRows.TheLaterOfTwoIsKept | backend/sql/query.sql:794-800 | two statuses of one time: the later arrival is kept, not the first |
| RateLimit.Window.Prune | backend/internal/shared/ratelimit/ratelimit.go:52-65 | keeps exactly the live hits of a key and forgets a key without any |
| RateLimit.Window.AllowN | backend/internal/shared/ratelimit/ratelimit.go:70-76 | there is room when fewer hits than the ceiling are live |
| RateLimit.Window.Reset | backend/internal/shared/ratelimit/ratelimit.go:108-113 | forgets one key and no other |
| RateLimit.Window.RetryAfterN | backend/internal/shared/ratelimit/ratelimit.go:83-93 | the wait until there is room |
| RateLimit.Window.Add | backend/internal/shared/ratelimit/ratelimit.go:96-106 | one more hit, after a sweep when there are too many keys |
| RateLimit.Window.Sweep | backend/internal/shared/ratelimit/ratelimit.go:100-104 | the loop over the keys prunes them all, whatever their order |
| RateLimit.WhatPruningLeaves | backend/internal/shared/ratelimit/ratelimit.go:52-65 | pruning leaves a key its live hits, forgets it when there are none, and touches no other |
| RateLimit.HousekeepingDoesNotShow | backend/internal/shared/ratelimit/ratelimit.go:52-104 | pruning a key or sweeping them all changes no answer, now or later |
| RateLimit.AddingShowsOneHit | backend/internal/shared/ratelimit/ratelimit.go:96-106 | adding shows as that hit alone, swept or not |
| RateLimit.WhenKeysAreDropped | backend/internal/shared/ratelimit/ratelimit.go:96-106 | keys are dropped only above ten thousand of them, and then each that stays, but the one added, has a live hit |
| RateLimit.RoomWhenTheOldestAgesOut | backend/internal/shared/ratelimit/ratelimit.go:83-93 | there is room exactly when the max-th hit from the end has aged out |
| RateLimit.WaitIsTheLeast | backend/internal/shared/ratelimit/ratelimit.go:83-93 | asked again d later there is room exactly when d has reached the wait |
| RateLimit.BookingKeepsTheLimit | backend/internal/shared/ratelimit/ratelimit.go:72-106 | a hit booked while there was room leaves every interval of the span within the limit |
| DiagLimits.Limits.Take | backend/internal/app/diag/limits.go:49-77 | four windows checked, then all booked or none: the whole state and the wait |
| DiagLimits.CountersMirrorTheLog | backend/internal/app/diag/limits.go:49-77 | in every run the pruned and swept counters answer as a log that forgets nothing |
| DiagLimits.WhenRunsAreOrderly | backend/internal/app/diag/limits.go:49-77 | the runs meant: those in which no call reads a clock that has run back |
| DiagLimits.NoWindowOverfills | backend/internal/app/diag/limits.go:49-77 | in every run under a clock that never runs back, any interval of a window's span holds at most its limit per key |
| DiagLimits.TheLimitsHold | backend/internal/app/diag/limits.go:16-39 | in every run: at most 30 reports of a tablet in an hour, 120 of a location in a day, 1000 in all in an hour, one by hand from a tablet in ten minutes |
| DiagLimits.WhenAReportIsRefused | backend/internal/app/diag/limits.go:49-77 | a report is refused if and only if one of these is already full |
| DiagLimits.ARefusalBooksNothing | backend/internal/app/diag/limits.go:67-69 | a refusal shows in no window, now or later |
| DiagLimits.AnAcceptanceBooksOneHit | backend/internal/app/diag/limits.go:70-76 | an acceptance shows as one hit in each window that counts the report |
| DiagLimits.TheWaitIsTheLeast | backend/internal/app/diag/limits.go:54-69 | the longest of the four waits is the least delay after which the same call is accepted |
| Hours.IsOpen | backend/internal/domain/tenancy/hours.go:87-112 | the nested loops decide whether today's or yesterday's stretches, widened, hold the instant |
| Hours.GraceNearMidnight | backend/internal/domain/tenancy/hours.go:87-112 | with a grace the two-day lookup is right for every validated week if and only if the time of day is at least the grace less two minutes and less than a day less the grace |
| Hours.TheMissedWeek | backend/internal/domain/tenancy/hours.go:87-112 | near midnight there is a validated week whose open stretch the lookup misses |
| Hours.TheWeekGoesOn | backend/internal/domain/tenancy/hours.go:94-95 | dates go through the week in order from a Thursday, 1 January 1970 |
| Hours.AStretchLastsToTheNextClose | backend/internal/domain/tenancy/hours.go:102-106 | a stretch lasts from its opening time to the next closing time on the clock, a whole day if they are equal |
| Schedules.Periods | backend/internal/domain/storestatus/status.go:173-192 | a date's periods, by start |
| Schedules.WhatADateIsOpen | backend/internal/domain/storestatus/status.go:155-192 | which instants a date is open for: its exception's ranges, else its weekday's, or all of it when no hours are set |
| Schedules.PeriodsAround | backend/internal/domain/storestatus/status.go:196-204 | the periods of the dates around an instant, by start |
| Schedules.Current | backend/internal/domain/storestatus/status.go:207-214 | the first listed period that holds the instant |
| Schedules.NextOpen | backend/internal/domain/storestatus/status.go:224-235 | the instant itself when open, else the first later start |
| Schedules.ClosesAt | backend/internal/domain/storestatus/status.go:239-251 | the end after following the chain once over the list |
| Schedules.OpenAtIsOpen | backend/internal/domain/storestatus/status.go:196-220 | the two-day lookup is the definition: some period of some date holds the instant, exceptions and overnight periods in play |
| Schedules.BothLookupsAgree | backend/internal/domain/tenancy/hours.go:87-112 | it equals IsOpen without grace when hours are set and no date is an exception |
| Schedules.NextOpenIsTheFirst | backend/internal/domain/storestatus/status.go:222-235 | the first open instant from then on; none found means nothing opens for two weeks |
| Schedules.OpeningsAreFoundTwoWeeksAhead | backend/internal/domain/storestatus/status.go:222-235 | every opening on the dates up to two weeks ahead is found |
| Schedules.OpenUntilItCloses | backend/internal/domain/storestatus/status.go:237-251 | every instant up to the reported close is open, across chained and overlapping periods |
| Schedules.WhenACloseIsKnown | backend/internal/domain/storestatus/status.go:239-243 | a close is reported if and only if the store is open and has hours on some day of the week |
| Schedules.WhenTheCloseIsTheEnd | backend/internal/domain/storestatus/status.go:237-251 | still open at the reported close if and only if the store stays open from the running period's end to the latest end of the periods around it, and a period of the next date goes on from there |
| Schedules.RoundTheClockIsGivenAClose | backend/internal/domain/storestatus/status.go:237-251 | a week that is always open is given a close all the same |
| StoreStatus.Compute | backend/internal/domain/storestatus/status.go:333-379 | state, acceptance, close and next-open time at an instant |
| StoreStatus.WhenAPauseHolds | backend/internal/domain/storestatus/status.go:71-74 | a pause without an end always holds, a timed one until it is over |
| StoreStatus.WhenOrdersAreTaken | backend/internal/domain/storestatus/status.go:345-365 | orders are taken if and only if some period holds the instant, no pause does, and an order type is on |
| StoreStatus.NextOpenAtIsTheFirstReady | backend/internal/domain/storestatus/status.go:366-378 | the next-open time lies ahead, is open and unpaused, and nothing before it is |
| StoreStatus.WhenTheNextOpenTakesOrders | backend/internal/domain/storestatus/status.go:366-378 | at the next-open time the store takes orders if and only if an order type is on |
| StoreStatus.TypesOffAreGivenANextOpen | backend/internal/domain/storestatus/status.go:366-378 | a store that takes no orders at any time is given a next-open time |
| StoreStatus.WhenNoNextOpenIsKnown | backend/internal/domain/storestatus/status.go:366-378 | none is reported only when ready now, paused without end, or shut for two weeks |
| StoreStatus.CeilSlot | backend/internal/domain/storestatus/status.go:426-434 | the loop ends at the least quarter hour of the local clock at or after its input |
| StoreStatus.SlotsOf | backend/internal/domain/storestatus/status.go:408-421 | one period's times: exactly the promisable ones, rising |
| StoreStatus.Times | backend/internal/domain/storestatus/status.go:386-422 | the refusals in order, or the times of the date's periods |
| StoreStatus.ListedIsPromisable | backend/internal/domain/storestatus/status.go:386-422 | a time is listed if and only if some period of the date can promise it |
| StoreStatus.PromisesLeaveTime | backend/internal/domain/storestatus/status.go:406-421 | a time can be promised if and only if it is a quarter hour by the period's end that leaves the order type its own estimate from now, the opening and a pause's end |
| StoreStatus.WhyNoTimesAreListed | backend/internal/domain/storestatus/status.go:386-402 | each refusal of a date's times, with its cause |
| StoreStatus.PromisesCanBeKept | backend/internal/domain/storestatus/status.go:382-422 | an ETA before a listed time is now or later, after any pause, and inside the period unless the ETA is zero and the time its very end |
| StoreStatus.WhenTheEndIsListed | backend/internal/domain/storestatus/status.go:408-421 | a period's very end is listed if and only if it is on the grid and an ETA after work can start it is not past |
| StoreStatus.AnEndIsListed | backend/internal/domain/storestatus/status.go:408-421 | a store open for the first hour of each day lists the end of it on every date, and is shut then |
| StoreStatus.PauseUntilTodaysEnd | backend/internal/domain/storestatus/status.go:267-284 | the end of a pause for today |
| StoreStatus.TodaysPauseCoversTheStretch | backend/internal/domain/storestatus/status.go:267-284 | it lies ahead and the running stretch does not outlast it |
| StoreStatus.WhenTodaysPauseEnds | backend/internal/domain/storestatus/status.go:267-284 | in a stretch that began yesterday it ends with that stretch, open all through it; else at midnight or at the latest end of today's periods where that is later |
| MenuCompiler.Compiler.Item | backend/internal/domain/menuview/compile.go:307-333 | a bank item as shown, changed by its entry |
| MenuCompiler.Compiler.Merge | backend/internal/domain/menuview/compile.go:335-382 | a merge: its choices, groups and place |
| MenuCompiler.Compiler.Augment | backend/internal/domain/menuview/compile.go:384-413 | an augment: all anchors sold, or nothing |
| MenuCompiler.Compiler.Place | backend/internal/domain/menuview/compile.go:418-433 | where a merge or an augment goes, or that it goes nowhere |
| MenuCompiler.Compiler.Sizes | backend/internal/domain/menuview/compile.go:435-449 | the known sizes at the rule's price or the override |
| MenuCompiler.Compiler.Groups | backend/internal/domain/menuview/compile.go:453-478 | keeps the known group ids and lists each group the first time |
| MenuCompiler.Compiler.ScanBank | backend/internal/domain/menuview/compile.go:227-247 | what can be sold, what the view hides, the shown categories by name |
| MenuCompiler.Compiler.PlaceBank | backend/internal/domain/menuview/compile.go:249-281 | the bank items placed menu by menu |
| MenuCompiler.Compiler.Run | backend/internal/domain/menuview/compile.go:206-304 | the whole compilation is the compile specification |
| MenuPlacement.TheMenuHolds | backend/internal/domain/menuview/compile.go:249-304 | conservation: grouping and sorting keep every item placed, each as often |
| MenuPlacement.EachItemShowsOnce | backend/internal/domain/menuview/compile.go:206-281 | a bank item shows on its own exactly once if it is on sale, kept by the view, in no merge and not hidden by its last entry; otherwise never |
| MenuPlacement.WhereItemsComeFrom | backend/internal/domain/menuview/compile.go:249-304 | nothing else is on the menu than those items and what entries add |
| MenuPlacement.WhatComesIsShown | backend/internal/domain/menuview/compile.go:249-304 | and every such item is on the menu |
| MenuPlacement.WhatShowsIsOnSale | backend/internal/domain/menuview/compile.go:335-413 | merge choices are on sale and not hidden; everything else stands for items all on sale |
| MenuStock.WhatShowsAsSoldOut | backend/internal/domain/menuview/compile.go:307-416 | a choice is sold out when its item is out, a merge when all its choices are, anything else when an item it stands for is out |
| MenuStock.WhatCanBeOrderedIsInStock | backend/internal/domain/pricing/engine.go:198-300 | what prices without issues is in stock: the bank item, all of an augment's, and each option picked |
| MenuStock.WhatIsSoldOutIsOut | backend/internal/domain/pricing/engine.go:246-275 | what is refused as sold out has one of these out |
| MenuEntries.WhatIsShownOfAnItem | backend/internal/domain/menuview/compile.go:307-332 | an item shows as the bank has it, or with the name, photo, place and prices of the last entry that names it alone |
| MenuEntries.WhatAMergeShows | backend/internal/domain/menuview/compile.go:335-382 | when a merge shows, and its name, price, sizes, groups and choices |
| MenuEntries.ChoicesAreTheAnchors | backend/internal/domain/menuview/compile.go:345-368 | a merge's choices are its anchors on sale and not hidden, in order, under their labels |
| MenuEntries.WhatAnAugmentShows | backend/internal/domain/menuview/compile.go:384-416 | an augment shows if and only if it is named, priced, placed and all its anchors are on sale |
| MenuEntries.WhatAddsNothing | backend/internal/domain/menuview/compile.go:283-294 | only merges and augments add anything, and hidden ones do not |
| MenuEntries.WhereAnAdditionGoes | backend/internal/domain/menuview/compile.go:418-433 | an addition goes to the category it names, else to its first item's when the view shows that, else nowhere |
| MenuBank.WhichSizeIsMeant | backend/internal/domain/menuview/compile.go:435-449 | a size is the first of the bank with its id |
| MenuEntries.WhatAGroupShows | backend/internal/domain/menuview/compile.go:453-478 | a shown group asks what the bank's does, option for option |
| MenuEntries.HowPricesAreRounded | backend/internal/domain/menuview/compile.go:480-505 | items are marked up and lifted to 99 where the view says so, options are marked up only |
| MenuEntries.WhatCanBeChosen | backend/internal/domain/menuview/compile.go:214-247 | what a merge can offer: on sale, in a category the view keeps, and not hidden |
| MenuPlacement.CategoriesAreOrdered | backend/internal/domain/menuview/compile.go:296-303 | categories are non-empty with keys of their own, sorted by position with their items sorted |
| MenuPlacement.GroupsAreListedOnce | backend/internal/domain/menuview/compile.go:451-478 | every group id on a shown item names exactly one listed group, built from the bank's |
| MenuGroups.WhatIsListed | backend/internal/domain/menuview/compile.go:335-382 | the groups listed are those of items that show alone and of merges that can be sold, placed or not |
| MenuGroups.EveryListedGroupIsUsed | backend/internal/domain/menuview/compile.go:335-382 | every listed group is on an item of the menu if and only if each group of a merge without a place is on some other item |
| MenuGroups.AHiddenMergeListsAnUnusedGroup | backend/internal/domain/menuview/compile.go:376-381 | a bank and one hidden merge: an empty menu that lists a group |
| MenuGroups.GroupsAreListedAsUsed | backend/internal/domain/menuview/compile.go:451-478 | the groups are listed in the order the compilation first uses them: items that show alone, then merges |
| MenuOrder.CategoryIsVisited | backend/internal/domain/menuview/compile.go:183-191 | a category on the menu stands at the position it was first asked for with |
| MenuOrder.CategoriesStandAsVisited | backend/internal/domain/menuview/compile.go:183-303 | of any two categories the one at the lower position comes first, at equal positions the one first asked for |
| MenuOrder.WhereAMoveGoes | backend/internal/domain/menuview/compile.go:193-244 | a name leads to a bank category if and only if that is the first the view shows under it, and then to its place over all menus |
| MenuOrder.WhereACategoryStands | backend/internal/domain/menuview/compile.go:226-275 | a bank category stands at its place among the menus that are on, or over all menus if a name opened it; these differ if and only if a menu up to it is off |
| MenuOrder.WhenTheBankOrderIsKept | backend/internal/domain/menuview/compile.go:226-303 | two bank categories stand in the bank order, except exactly when a name opened the first and none the second, and the second's place among menus that are on is below the first's over all, or equals it and was asked for first |
| MenuOrder.EveryMenuOnKeepsTheOrder | backend/internal/domain/menuview/compile.go:226-303 | with every menu on, the bank categories stand in the bank order whatever is moved |
| MenuOrder.AMoveChangesTheOrder | backend/internal/domain/menuview/compile.go:226-303 | a bank with one menu off, where moving a dish of A to B puts C before B |
| MenuOrder.ItemsLandWhereTheyAreSent | backend/internal/domain/menuview/compile.go:261-273 | an item that shows alone is in the category its entry names, else in its own |
| MenuOrder.AdditionsLandWhereTheyAreSent | backend/internal/domain/menuview/compile.go:418-433 | a merge or augment that shows is in the category it names, else in that of its first item |
| CompiledPrices.MarkupRoundsUp | backend/internal/domain/menuview/compile.go:493-500 | the markup gives the least whole cent that covers it |
| CompiledPrices.RoundingGoesUpToThe99 | backend/internal/domain/menuview/compile.go:501-504 | the rounding gives the least price ending in 99 that covers the marked-up one |
| CompiledPrices.TheRuleKeepsTheOrder | backend/internal/domain/menuview/compile.go:491-505 | a dearer bank price never shows cheaper; $0 stays $0 |
| CompiledPrices.WhatIsPricedIsOnSale | backend/internal/domain/pricing/engine.go:198-225 | whatever a selection on a compiled menu prices, the bank items behind it are on sale |
| CompiledPrices.IssueFreeMapsToTheBank | backend/internal/domain/pricing/engine.go:198-245 | an issue-free selection is taxed as a bank item on sale; only an augment is no bank item to deals |
| CompiledPrices.PlainItemsCostTheBankPrice | backend/internal/domain/menuview/compile.go:307-312 | an item no entry changes costs the rule's price of the bank's: of the size asked for, of the first when none is, or of the item without sizes |
| CompiledPrices.OptionsCostTheMarkup | backend/internal/domain/menuview/compile.go:465-476 | each option costs the markup of its bank price for that size |
| CompiledOptions.PickedOptionsCostTheMarkup | backend/internal/domain/pricing/engine.go:250-301 | every option on a priced item is one some pick names, at the markup of that bank option's price for the size sold |
| CompiledPrices.CompiledMenuHasNoNegativePrice | backend/internal/domain/menuview/compile.go:136-158 | a bank and entries without negative prices compile to a menu without them |
| MenuImport.CommonPrinter | backend/internal/app/menu/csvio.go:500-517 | the counting loop finds the printer of the specification |
| MenuImport.ImportRow | backend/internal/app/menu/csvio.go:416-470 | one row: the item created or changed, then its printer; what is stored only in a real run |
| MenuImport.ImportRows | backend/internal/app/menu/csvio.go:397-481 | a category's rows and the printers its items then print on |
| MenuImport.ImportCategory | backend/internal/app/menu/csvio.go:358-481 | a category found in the listing read earlier, created or given a default, then its rows |
| MenuImport.ImportMenu | backend/internal/app/menu/csvio.go:325-482 | a menu found or created, then its categories |
| MenuImport.ImportCSV | backend/internal/app/menu/csvio.go:218-484 | a dry run reports exactly what the real run reports and stores nothing; the real run stores the imported menus; an unknown printer refuses before any write |
| MenuCsvLaws.MostCommonIsMost | backend/internal/app/menu/csvio.go:499-517 | the printer picked is named at least as often as any; none only when no row names one |
| MenuCsvLaws.TiesGoToTheFirstToGetThere | backend/internal/app/menu/csvio.go:499-517 | of printers named equally often the first to reach that count is picked |
| MenuCsvLaws.WhichPrinterIsPicked | backend/internal/app/menu/csvio.go:499-517 | a printer is picked if and only if none is named more often and it was the first to be named that often |
| MenuCsvLaws.FirstNamedNeedNotWinATie | backend/internal/app/menu/csvio.go:499-517 | rows A, B, B, A pick B |
| MenuCsvLaws.SameRowsSetTheSame | backend/internal/app/menu/csvio.go:416-470 | the same rows set the same fields of two items to the same values |
| Text.LowerIsLetterByLetter | backend/internal/app/menu/service.go:634-636 | names are compared without regard to capitals: each becomes its small letter, and nothing else changes |
| Text.EachLetterInItsPlace | backend/internal/app/menu/service.go:634-636 | a name in small letters is the name, letter for letter |
| Text.WhatIsBlank | backend/internal/app/menu/service.go:634-636 | which ASCII characters are white space |
| Text.WhatTrimmingLeaves | backend/internal/app/menu/csvio.go:104-111 | trimming takes the white space off both ends and nothing else |
| Text.NamesGoByTheirWords | backend/internal/app/menu/service.go:634-636 | names match by their words in small letters: the key is the words, joined by single blanks |
| MenuCsvLaws.WhatARecordReadsAs | backend/internal/app/menu/csvio.go:104-150 | a record needs a category and an item; blank cells are absent ones, and a menu without a name is the main one |
| MenuTally.WhatARowSets | backend/internal/app/menu/csvio.go:428-481 | a row sets the price and description it gives, and an item it sends to a printer prints there |
| MenuTally.WhatACategoryPrintsOn | backend/internal/app/menu/csvio.go:363-404 | a category keeps its printer; one without takes the one its rows name most |
| MenuTally.ARowIsReported | backend/internal/app/menu/csvio.go:420-481 | a row is counted and noted as made, changed or moved if and only if its item was |
| MenuTally.ACategoryIsNoted | backend/internal/app/menu/csvio.go:358-404 | a category is noted as made with the printer it then prints on, or as given that printer, if and only if it was |
| MenuTally.TheReportIsTrue | backend/internal/app/menu/csvio.go:218-496 | the menus, categories and items reported are those there are more of, and with nothing noted nothing has changed |
| MenuTally.PrintsAreCounted | backend/internal/app/menu/csvio.go:483-492 | each item the file names is counted once, under the printer it ends up on or none |
| MenuTally.PlacesAreOnce | backend/internal/app/menu/csvio.go:455-458 | no item is counted twice however many rows name it |
| MenuTally.PlacesAreTheNamedItems | backend/internal/app/menu/csvio.go:415-458 | and the items counted are those the rows name |
| MenuTally.ACategorysPrintsAreCounted | backend/internal/app/menu/csvio.go:397-492 | each item of a category that its rows name is counted once, where it prints after them |
| MenuTally.TheReportCountsThePrints | backend/internal/app/menu/csvio.go:397-492 | in every report, as many items print on each printer and nowhere as the items of the file do once its rows are in |
| MenuTally.PrintersAreListed | backend/internal/app/menu/csvio.go:483-496 | the printers listed are those of the store with some item on them, with its count |
| MenuTally.CountsAreTheNotes | backend/internal/app/menu/csvio.go:218-496 | each of the six counts is the number of notes that say so, in every report |
| MenuTally.WhyAFileIsRefused | backend/internal/app/menu/csvio.go:232-259 | a file is refused if and only if it names an unknown printer |
| MenuTally.UnknownsAreReportedOnce | backend/internal/app/menu/csvio.go:232-259 | no unknown printer is reported twice |
| MenuCsvLaws.ImportingTwiceIsImportingOnce | backend/internal/app/menu/csvio.go:325-482 | a second import of the same rows leaves the menus as the first left them, repeated items included |
| MenuRoundTrip.ExportReadsBack | backend/internal/app/menu/csvio.go:529-568 | a tidy menu's export reads back as one row per item |
| MenuRoundTrip.CategoryBack | backend/internal/app/menu/csvio.go:363-481 | a category comes back line for line if and only if all of its items have an effective printer or none has, and their descriptions are trimmed |
| MenuRoundTrip.ExportThenImportRestoresTheMenu | backend/internal/app/menu/csvio.go:523-568 | export, then import with replace, is never refused and restores every line if and only if no category mixes items with and without a printer and every description is trimmed |
| MenuRoundTrip.AMixedCategoryComesBackOnOnePrinter | backend/internal/app/menu/csvio.go:523-568 | an item that prints nowhere comes back printing where the other item of its category does |
| MenuRoundTrip.ABlankDescriptionIsLost | backend/internal/app/menu/csvio.go:104-111 | a description of one blank comes back empty, so the menu does not |
| Upserts.Pointwise | backend/internal/app/menu/csvio.go:307-323 | taking rows one by one is each first element of a name taking the rows of its name |
| Upserts.AgainChangesNothing | backend/internal/app/menu/csvio.go:395-470 | the same rows again change nothing when they change no single element |
| Upserts.OthersLeaveItAlone | backend/internal/app/menu/csvio.go:325-345 | rows of other names leave a name's element as listed before |

## Left out

- OrderPort.Build: the kitchen routing of lines, the payment record and the customer and address fields are not built; the money, lines and refusals are.
- PricingEngine.Engine.PriceOne: modifier texts are not built, and an issue is its code without a message.
- PricingEngine.Engine.BundleLine: the line's modifier texts and its regular price for display are not built.
- PricingEngine.Engine.AutomaticDeals: nudges are not built.
- StoreStatus.Compute: the day's hours and note, the pause's note, and the estimates, radius and scheduling window that are copied from the settings are not built.
- MenuCompiler.Compiler.Item: descriptions and the missing-photo notice are not built.
- MenuCompiler.Compiler.Merge: the description and the notices about missing anchors are not built.
- MenuCompiler.Compiler.Augment: the description and the notices about missing anchors are not built.
- PricingEngine.Engine.PriceCart: modifier texts, labels, nudges and warnings are not built, and an issue carries its code but no message, so equal messages are not merged; whether there is any issue is unaffected.
- Orders.Order.ApplyFloorUpdate: the clock is a parameter, read once for a call, and the updated-at stamp is the time of that reading.
- FloorEvents.ResendingIsOneCleanPass: what the clock read when an event first took effect is a function of the event, and each repository call is one step; database isolation is not modelled.
- MenuRoundTrip.ExportThenImportRestoresTheMenu: works on records; the text of prices and quoting is not modelled, and neither are the reader's refusals of a file without rows or with more than 5000.
- MenuImport.ImportCSV: repository failures, tax rates, stock, tags and positions of items are not modelled; the repository lists what it created last.
- MenuCompiler.Compiler.Run: notices and descriptions are not built, a photo is only there or not, and vendor views are not compiled.
- Schedules.PeriodsAround: the source's sort leaves periods of equal start in any order; here they keep their old one, and the lemmas about the lists use only their members and their order by start.
- Hours.IsOpen: the zone is a fixed offset, so daylight-saving changes are not modelled, and times of day are parsed already.
- Text.Norm: letter case and white space are those of ASCII.
- Cents and times are unbounded integers; 64-bit overflow is not modelled.
- Promo codes are compared as given: trimming and upper-casing them happens before the model.
- Vendor views, the settings editors, tenancy, credentials and tokens: thin, with easy properties only.
- Placing an order with a payment gateway, refunds, HTTP handlers, SQL beside the floor statements, the event broker, geocoding, routing and telemetry: input and output.
- The daily reset hour and the fixed-length pause presets: one addition each.
