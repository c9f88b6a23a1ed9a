# Verified model of a Python portfolio backtesting engine

This project models the simulation core of a Python backtesting library and proves properties of that model. The library has two generations of the engine:

- the current `bktest` package;
- the older `backtest` package.

Both are modelled side by side, with one Dafny module per source file. The modules for the older package carry a `Legacy` prefix.

What is modelled:

- **Account ledger.** An account holds `cash`, `cash_new` and a symbol-to-holding map. Orders carry a signed delta quantity and are validated, priced, charged a fee, and then merged into a holding, opened as a new holding, or netted away.
  - The account and holding classes (`Accounts`, `Holdings`, `LegacyAccounts`, `LegacyHoldings`) update their fields in place.
  - Each of their methods is proved against a function on plain values in `Ledgers` / `LegacyLedgers`. The cash-flow, clean-up, target-setting and equity lemmas are stated about those functions.
- **Order batches and the day loop.**
  - `PodOrders` and `LegacyBatches` model a batch of orders: percent-of-NAV sizing with truncation, the `others` set and auto-close of untouched symbols, and the success, failure and close counters.
  - `DayLoop` and `LegacyDayLoop` model the walk over trading days: weekends and holidays are skipped, orders given on skipped days are postponed, and snapshots are emitted.
  - `Backtests` and `LegacyBacktests` hold the backtester classes that drive all of this in place. The exporters are an event trace.
- **Price cache and data sources.** Covered here:
  - symbol mapping;
  - fetch-once download into a fixed daily grid;
  - lookups that return "missing" rather than zero;
  - the delegate fallback chain;
  - table sources that filter to a window and fill unknown symbols with empty columns;
  - chunking of symbol lists.
- **Order-file provider.** Dispatch on file extension, filtering and sorting of file names, and the date-keyed lookup.
- **Template helpers.**
  - Vector and colour arithmetic, and font enumeration.
  - The template slot index and `set`.
  - The sketch importer's text sanitising, span bookkeeping, clipping and page rules.
  - Word splitting, draw ordering and line breaking for the PDF renderer, with text width given as a parameter.

Conventions:

- Dates are integers: Python's proleptic Gregorian ordinal, with Monday = 0 for `weekday()`.
- Money and quantities are `real`.
- A missing price or a NaN is `None` of an `Option`.
- A Python exception is an `Error` value inside a `Result`.
- Data the engine reads from the outside world enters as a parameter: fetched prices, holiday calendars, directory listings, fee expressions and text widths.

Where the source has a defect, the model keeps the code's behaviour in an as-written member, and the rest of the model uses the corrected definition. Both are listed under "## Findings".

## Model

| member | source | states |
|---|---|---|
| Utils.StripLeft | bktest/utils.py:35-36 | the result is a suffix of the input, everything dropped is whitespace, and it does not start with whitespace |
| Utils.StripRight | bktest/utils.py:35-36 | the result is a prefix of the input, everything dropped is whitespace, and it does not end with whitespace |
| Utils.BlankIffAllWhitespace | bktest/utils.py:35-36 | a present string is blank exactly when every character is whitespace |
| Utils.BlankExamples | tests/test_utils.py:31-36 | None, the empty string and spaces are blank; a word is not |
| Utils.Signum | bktest/utils.py:5-12 | -1, 0 or 1 exactly when the number is negative, zero or positive |
| Utils.Abs | bktest/account.py:71 | abs(): non-negative and equal to the value or its negation |
| Utils.EnsureNotBlank | bktest/utils.py:39-46 | succeeds exactly on a non-blank value and returns it; otherwise a ValueError whose message names the property when one is given |
| Utils.IndexOf | bktest/utils.py:22-28 | the first position holding one of the characters, or the length when none does |
| Utils.IntIsFloat | bktest/utils.py:15-32 | every string int() accepts, float() accepts too, so a string is a number exactly when float() accepts it |
| Utils.Unpadded | bktest/utils.py:15-28 | without surrounding whitespace or a sign, int() accepts exactly a digit group, and float() exactly a special value or a decimal literal |
| Utils.WholeNumberExample | tests/test_utils.py:13-29 | "1" is an int, a float and a number |
| Utils.FractionExample | tests/test_utils.py:13-29 | "1.5" is a float and a number but not an int |
| Utils.WordExample | tests/test_utils.py:13-29 | "hello" is neither an int, nor a float, nor a number |
| Utils.Trunc | bktest/backtest.py:73 | int() truncates toward zero: within one of the value, never past it |
| Calendar.Weekday | bktest/iterator.py:43 | date.weekday() is in 0..6 and is 0 (Monday) exactly on the days congruent to ordinal 1 |
| Calendar.WeekdayNext | bktest/iterator.py:43 | the weekday advances by one per day and repeats every seven days |
| Calendar.WeekendFollowsFriday | bktest/iterator.py:43 | the two days after a Friday are weekend days and the third is not |
| Calendar.ToYmd | bktest/price_provider.py:257-258 | the calendar date of an ordinal, as `str(date)` in the cache path prints it, is a real day: year 1..9999, month 1..12, day within the month's length (29 allowed in February) |
| Calendar.MonthBoundaries | bktest/price_provider.py:257-258 | the last and first days of January, February and March 2024 come out as 2024-01-31, 2024-02-01, 2024-02-29 and 2024-03-01 |
| Calendar.LastOfJanuaryString | bktest/price_provider.py:257-258 | `str(date)` of 2024-01-31 is "2024-01-31" |
| Iterators.NewDateIterator | bktest/iterator.py:18-36 | the iterator keeps its arguments, with weekends and holidays disallowed by default |
| Iterators.ShouldSkipWeekends | bktest/iterator.py:38-50 | no skip exactly when weekends are allowed or the day is Monday to Friday; otherwise a "weekend" skip carrying the date and the ordered flag |
| Iterators.ShouldSkipHolidays | bktest/iterator.py:52-64 | no skip exactly when holidays are allowed or the provider says the day is no holiday; otherwise a "holiday" skip |
| Iterators.WeekendExamples | tests/test_iterator.py:23-37 | a Saturday is skipped unless weekends are allowed, a Tuesday never is |
| Iterators.HolidayExamples | tests/test_iterator.py:39-53 | Christmas is skipped unless holidays are allowed, an ordinary day never is |
| Holdings.Merged | bktest/holding.py:20-29 | the merged position keeps its symbol and date, gains exactly the order's quantity and `_value`, takes the order's price and is up to date |
| Holdings.FromOrder | bktest/holding.py:37-39 | a new up-to-date position with the order's symbol, quantity, price, `_value` and the given date |
| Holdings.Repr | bktest/holding.py:34-35 | the text is the symbol, an "x", then the quantity |
| Holdings.Str | bktest/holding.py:31-32 | the repr followed by "@" and the price |
| Holdings.Holding.constructor | bktest/holding.py:6-14 | the new holding's fields are the arguments |
| Holdings.Holding.MarketPrice | bktest/holding.py:16-18 | quantity times price of the current state |
| Holdings.Holding.Merge | bktest/holding.py:20-29 | another symbol raises ValueError naming both symbols and changes nothing; a missing quantity raises TypeError and changes nothing; otherwise the holding becomes Merged(old, order) and is returned |
| Holdings.MergeAtSamePrice | bktest/holding.py:16-29 | merging at the holding's own price moves the market price by quantity times price |
| Holdings.StrExample | tests/test_holdings.py:25-33 | "AAPLx15@2" and "AAPLx15" |
| LegacyHoldings.Merged | backtest/holding.py:16-24 | the merged position keeps its symbol, gains exactly the order's quantity, takes its price and is up to date |
| LegacyHoldings.FromOrder | backtest/holding.py:32-34 | a new up-to-date position with the order's symbol, quantity and price |
| LegacyHoldings.Holding.constructor | backtest/holding.py:6-10 | the new holding's fields are the arguments |
| LegacyHoldings.Holding.MarketPrice | backtest/holding.py:12-14 | quantity times price of the current state |
| LegacyHoldings.Holding.Merge | backtest/holding.py:16-24 | another symbol raises ValueError and changes nothing; a missing quantity raises TypeError and changes nothing; otherwise the holding becomes Merged(old, order) and is returned |
| LegacyHoldings.MergeMarketPrice | tests/test_holdings.py:13-23 | the market price after a merge is the old one plus the order's value plus the repricing of the old quantity; 15 at 2 merged with 30 at 4 gives 45 at 4 |
| Orders.DirectionCode | bktest/order.py:14-18 | the integer values of SELL, HOLD and BUY lie in -1..1 |
| Orders.NewOrder | bktest/order.py:21-26 | a three-argument Order keeps its symbol, quantity and price and has no `_value` yet |
| Orders.OrderCall | bktest/order.py:21-26 | calling the three-field Order with arguments after the price raises TypeError; with none it builds the three-argument Order |
| Orders.Value | bktest/order.py:28-30 | quantity times price when both are present; a TypeError exactly when either is None |
| Orders.GetDirection | bktest/order.py:32-40 | the direction's integer value is the sign of the quantity; a None quantity raises TypeError |
| Orders.IsValid | bktest/order.py:42-45 | valid exactly when the symbol is not blank and the price is positive; a blank symbol is invalid whatever the price; a non-blank symbol with no price raises TypeError |
| Orders.ValidExamples | tests/test_order.py:23-49 | None, empty and space-only symbols make an order invalid |
| Orders.PricedExamples | tests/test_order.py:23-49 | zero and negative prices are invalid, a positive price is valid whatever the quantity's sign |
| Orders.NewOrderResult | bktest/order.py:48-53 | a new OrderResult is unsuccessful and has no fee |
| Orders.NewCloseResult | bktest/order.py:56-62 | a new CloseResult is unsuccessful, not missing and has no fee |
| Orders.NewDataFrameOrderProvider | bktest/order.py:78-107 | keeps every row; a non-zero offset shifts every date by that many business days, and fails when the date column is not the one literally named "date" |
| Orders.FirstIndex | bktest/order.py:111 | the position where a value first appears: it holds the value and no earlier position does |
| Orders.Unique | bktest/order.py:110-116 | the distinct values, each once, exactly those of the input, in order of first appearance; the first is the input's first |
| Orders.DatesOf | bktest/order.py:111 | the date column, row by row |
| Orders.GetDates | bktest/order.py:109-116 | every date of the table, each exactly once, in order of first appearance; the first is the first row's date, which the backtesters start from |
| Orders.RowsOn | bktest/order.py:119-121 | only rows of the table that carry the requested date |
| Orders.Convert | bktest/order.py:129-142 | one order per row with that row's symbol and quantity and no price |
| Orders.GetOrders | bktest/order.py:118-127 | as many orders as the table has rows on the date, none of them priced |
| Orders.IndicesOn | bktest/order.py:119-121 | the positions the boolean mask keeps: going up, and a position is kept exactly when its row carries the date |
| Orders.RowsOnInOrder | bktest/order.py:119-121 | the mask keeps the rows in table order: the j-th selected row is the row at the j-th kept position |
| Orders.GetOrdersRows | bktest/order.py:118-142 | get_orders gives, in table order, one unpriced order per row on the date, with that row's symbol and quantity |
| Orders.RowsOnCount | bktest/order.py:119-121 | the rows selected for a date are exactly as many as the table has on that date |
| Orders.OrdersPartitionRows | bktest/order.py:109-127 | over the dates get_dates lists, get_orders hands out exactly as many orders as the table has rows |
| Orders.NoOrdersOffDates | bktest/order.py:109-127 | get_orders on a date get_dates does not list is empty |
| LegacyOrders.Current | backtest/order/_model.py:15-20 | an older order read as a newer one keeps symbol, quantity and price, with no `_value` |
| LegacyOrders.Value | backtest/order/_model.py:22-25 | quantity times price when both are present; a TypeError exactly when either is None |
| LegacyOrders.GetDirection | backtest/order/_model.py:26-35 | the direction's integer value is the sign of the quantity; a None quantity raises TypeError |
| LegacyOrders.IsValid | backtest/order/_model.py:36-41 | valid exactly when the symbol is not blank and the price positive; a blank symbol is invalid whatever the price; a non-blank symbol with no price raises TypeError |
| LegacyOrders.NewOrderResult | backtest/order/_model.py:42-49 | a new OrderResult is unsuccessful and has no fee |
| LegacyOrders.NewCloseResult | backtest/order/_model.py:50-55 | a new CloseResult is unsuccessful, not missing and has no fee |
| Fees.Fee | backtest/fee.py:7-37 | for an order with quantity and price: the base model charges nothing, the constant model its amount, the expression model its expression of quantity and price |
| Fees.GetOrderFee | backtest/fee.py:7-37 | the base and constant models always answer; the expression model fails with TypeError exactly when a variable its expression mentions is None, and charges Fee when both are set |
| Fees.OnlyMentionedVariablesRead | backtest/fee.py:33-37 | two orders that agree on the variables the expression mentions are charged the same, whatever the other variable holds, None included |
| Fees.PriceOnlyFee | backtest/fee.py:33-37 | an expression of the price alone charges an order without a quantity, and fails on one without a price |
| Fees.ConstantIgnoresOrder | tests/test_fee.py:6-11 | a constant model charges its amount for any order, even None |
| Fees.BrokerFee | tests/test_fee.py:22-29 | the broker-style expression charges at least 1 and at least one percent of the order's absolute value |
| Fees.BrokerFeeExamples | tests/test_fee.py:22-29 | 1 share at 20 costs 1, 150 shares at 20 cost 30 |
| Ledgers.HandleCash | bktest/account.py:154-157 | cash falls by the fee plus quantity times price, cash_new by the order's `_value`; holdings are untouched |
| Ledgers.PlaceOrderExecutes | bktest/account.py:63-100 | a valid order for a non-negligible quantity pays cash, then merges into, adds or drops the holding, and succeeds with the fee unless a holding check fails |
| Ledgers.PlaceInvalidOrder | bktest/account.py:63-66 | an invalid order comes back unsuccessful and free and changes nothing |
| Ledgers.PlaceNegligibleOrder | bktest/account.py:68-73 | a valid order whose quantity is below EPSILON changes nothing; it succeeds free exactly when its `_value` is within EPSILON of the quantity, and otherwise trips an AssertionError |
| Ledgers.PlaceOrderCashFlow | bktest/account.py:75-77 | cash pays exactly fee plus quantity times price, cash_new exactly the `_value`, before the holding checks and so also when they fail |
| Ledgers.PlaceOrderOnHeld | bktest/account.py:80-89 | on a held symbol: a holding not priced on the order's date fails the assertion and keeps the holdings; otherwise it is merged and removed when the merged quantity is below EPSILON |
| Ledgers.PlaceOrderOnUnheld | bktest/account.py:90-98 | on an unheld symbol exactly one holding is added: the order's symbol, quantity, price and `_value`, up to date as of the date |
| Ledgers.PlaceOrderKeepsKeyed | bktest/account.py:63-100 | every holding stays filed under its own symbol |
| Ledgers.PlaceOrderEquity | bktest/account.py:37-38 | a successful order loses its fee from equity, revalues the held quantity at the order's price, and a dropped position takes its residual market price with it |
| Ledgers.PlaceOrderNav | bktest/account.py:49-50 | a successful order leaves nav unchanged, except that a dropped position takes its residual `value` with it, which the assertions bound by twice EPSILON |
| Ledgers.RelativeOrderAsWritten | bktest/account.py:147-152 | as written, the four-argument Order raises TypeError for every order on a held symbol updated on the date, where the intended version succeeds; on every other order the two agree |
| Ledgers.ToRelativeOrder | bktest/account.py:139-152 | an unheld symbol or a None quantity leaves the order as it is; otherwise it succeeds exactly when the holding is priced on the date, and holding plus new order equals the target in quantity and in `_value`, at the same symbol and price |
| Ledgers.OrderPositionReachesTarget | bktest/account.py:102-105 | after a successful order_position the symbol is held within EPSILON of the target quantity, or is not held and the target was below EPSILON |
| Ledgers.OrderPositionExact | bktest/account.py:102-105 | when the relative order trades, the holding ends at exactly the target quantity, `_value` and price |
| Ledgers.OrderPositionSymbol | bktest/account.py:102-105 | the answer is for the same symbol |
| Ledgers.PlaceOrderAnswers | bktest/account.py:63-64 | place_order answers for the order it was given |
| Ledgers.OrderPositionLocal | bktest/account.py:102-105 | no holding but the order's own symbol's changes |
| Ledgers.PlaceOrderLocal | bktest/account.py:63-100 | no holding but the order's own symbol's changes |
| Ledgers.OrderPositionUnsuccessful | bktest/account.py:102-105 | an unsuccessful order_position changed nothing |
| Ledgers.CloseWithoutHolding | bktest/account.py:107-137 | a blank or unheld symbol changes nothing and is unsuccessful and free; only the unheld one is reported missing |
| Ledgers.CloseHeld | bktest/account.py:115-132 | closing a held symbol removes it, sells its whole quantity at the given price or else the last one, pays the fee, leaves nav unchanged and moves equity only by the fee and the revaluation |
| Ledgers.CloseHeldRemoves | bktest/account.py:115-132 | closing a held symbol succeeds and removes exactly that holding |
| Ledgers.CloseAtLastPriceKeepsEquity | bktest/account.py:115-132 | closing at the last price with a free fee model leaves equity unchanged |
| Accounts.Account.constructor | bktest/account.py:15-27 | no holdings, cash and cash_new both at the initial cash, and a free constant fee model when none is given |
| Accounts.Account.Symbols | bktest/account.py:52-54 | exactly the held symbols |
| Accounts.Account.FindHolding | bktest/account.py:60-61 | the holding filed under the symbol, or None exactly when there is none |
| Accounts.Account.Value | bktest/account.py:29-34 | the loop over the holdings returns the sum of their market prices |
| Accounts.Account.Equity | bktest/account.py:36-38 | cash plus the value of the holdings |
| Accounts.Account.EquityNew | bktest/account.py:41-46 | the loop over the holdings returns the sum of their `value`s |
| Accounts.Account.Nav | bktest/account.py:48-50 | cash_new plus equity_new |
| Accounts.Account.HandleCash | bktest/account.py:154-157 | the cash figures move as Ledgers.HandleCash says; the holdings are untouched |
| Accounts.Account.AddHolding | bktest/account.py:90-98 | files exactly one new holding built from the order, up to date as of the date |
| Accounts.Account.Rehold | bktest/account.py:79-98 | merges into the held holding object in place or files a new one, ending in the holdings Ledgers.Rehold describes and failing exactly when it does |
| Accounts.Account.PlaceOrder | bktest/account.py:63-100 | the new state and the answer are those of Ledgers.PlaceOrder on the old state |
| Accounts.Account.ToRelativeOrder | bktest/account.py:139-152 | the answer of Ledgers.ToRelativeOrder on the current state |
| Accounts.Account.OrderPosition | bktest/account.py:102-105 | the new state and the answer are those of Ledgers.OrderPosition on the old state |
| Accounts.Account.RemoveHolding | bktest/account.py:89 | the symbol's holding is gone and nothing else changes |
| Accounts.Account.ClosePosition | bktest/account.py:107-137 | the new state and the answer are those of Ledgers.ClosePosition on the old state |
| LegacyLedgers.HandleCash | backtest/account.py:117-119 | cash falls by the fee plus quantity times price; holdings are untouched |
| LegacyLedgers.Rehold | backtest/account.py:60-68 | only the order's symbol changes: a held one is merged and dropped exactly when the merged quantity is zero, an unheld one gets a holding built from the order |
| LegacyLedgers.PlaceInvalidOrder | backtest/account.py:46-49 | an invalid order comes back unsuccessful and free and changes nothing |
| LegacyLedgers.PlaceZeroOrder | backtest/account.py:51-54 | a valid order for exactly zero succeeds free and changes nothing |
| LegacyLedgers.PlaceOrderWithoutQuantity | backtest/account.py:56-63 | a valid order with no quantity raises TypeError and keeps the holdings; a constant model, or an expression that does not mention the quantity, has charged its fee by then, and an expression that mentions it has charged nothing |
| LegacyLedgers.PlaceOrderCashFlow | backtest/account.py:56-70 | a valid non-zero order succeeds with the fee, charges cash exactly the fee plus quantity times price, and reholds |
| LegacyLedgers.PlaceOrderKeepsInvariants | backtest/account.py:46-70 | every holding stays under its own symbol and none is left at quantity zero |
| LegacyLedgers.ReholdKeepsInvariants | backtest/account.py:60-68 | reholding a non-zero quantity keeps every holding under its own symbol and none at zero |
| LegacyLedgers.PlaceOrderEquity | backtest/account.py:31-33 | a non-zero order loses its fee from equity and revalues the held quantity at the order's price |
| LegacyLedgers.ToRelativeOrder | backtest/account.py:105-115 | no holding or no quantity leaves the order as it is; otherwise holding plus new order equals the target quantity, at the same symbol and price, with no date check |
| LegacyLedgers.OrderPositionReachesTarget | backtest/account.py:72-75 | after order_position on a valid order the symbol is held at exactly the target, and held at all exactly when the target is not zero |
| LegacyLedgers.CloseWithoutHolding | backtest/account.py:77-103 | a blank or unheld symbol changes nothing and is free; the answer holds quantity 0 and the given price, and it succeeds, as missing, exactly when the symbol is not blank |
| LegacyLedgers.CloseHeld | backtest/account.py:84-99 | closing a held symbol removes it, sells its whole quantity at the given or else the last price, pays the fee, and moves equity only by the fee and the revaluation |
| LegacyLedgers.PlaceOrderScenario | tests/test_account.py:8-42 | each order of the test succeeds free and takes the account to the next state |
| LegacyLedgers.ScenarioCounts | tests/test_account.py:8-42 | the account holds 1, 1, 2, 2 and 1 symbols along the way |
| LegacyLedgers.ScenarioValues | tests/test_account.py:8-42 | the value of the holdings is 30, 60, 90, 60 and 30, and equity stays at the initial cash |
| LegacyLedgers.ScenarioInvalidOrder | tests/test_account.py:11-15 | an order without a symbol leaves the fresh account as it was |
| LegacyLedgers.CloseScenarioFresh | tests/test_account.py:47-58 | on a fresh account None fails, AAPL succeeds as missing with quantity 0 and the given price |
| LegacyLedgers.CloseScenarioOther | tests/test_account.py:60-68 | closing TSLA while holding only AAPL succeeds and keeps the holding |
| LegacyLedgers.CloseScenarioHeld | tests/test_account.py:70-73 | closing AAPL empties the account back to its initial cash |
| LegacyAccounts.CallAccount | backtest/account.py:13-17 | `Account(**keywords)` raises TypeError for the first keyword the constructor does not declare, and succeeds exactly when all are declared |
| LegacyAccounts.AccountAttribute | backtest/account.py:24-117 | an attribute resolves exactly when Account defines it; any other name raises AttributeError naming it |
| LegacyAccounts.Account.constructor | backtest/account.py:13-22 | no holdings, cash at the initial cash, and a free constant fee model when none is given |
| LegacyAccounts.Account.Symbols | backtest/account.py:35-37 | exactly the held symbols |
| LegacyAccounts.Account.FindHolding | backtest/account.py:43-44 | the holding filed under the symbol, or None exactly when there is none |
| LegacyAccounts.Account.Value | backtest/account.py:24-29 | the loop over the holdings returns the sum of their market prices |
| LegacyAccounts.Account.Equity | backtest/account.py:31-33 | cash plus the value of the holdings |
| LegacyAccounts.Account.HandleCash | backtest/account.py:117-119 | cash moves as LegacyLedgers.HandleCash says; the holdings are untouched |
| LegacyAccounts.Account.AddHolding | backtest/account.py:67-68 | files exactly one new holding built from the order |
| LegacyAccounts.Account.RemoveHolding | backtest/account.py:65-66 | the symbol's holding is gone and nothing else changes |
| LegacyAccounts.Account.Rehold | backtest/account.py:60-68 | merges into the held holding object in place or files a new one, ending in the holdings LegacyLedgers.Rehold describes |
| LegacyAccounts.Account.PlaceOrder | backtest/account.py:46-70 | the new state and the answer are those of LegacyLedgers.PlaceOrder on the old state |
| LegacyAccounts.Account.ToRelativeOrder | backtest/account.py:105-115 | the answer of LegacyLedgers.ToRelativeOrder on the current state |
| LegacyAccounts.Account.OrderPosition | backtest/account.py:72-75 | the new state and the answer are those of LegacyLedgers.OrderPosition on the old state |
| LegacyAccounts.Account.ClosePosition | backtest/account.py:77-103 | the new state and the answer are those of LegacyLedgers.ClosePosition on the old state |
| PodOrders.AccountBroker | bktest/backtest.py:90 | the pod reaches the account only through order_position and close_position of the ledger |
| PodOrders.AccountBrokerSound | bktest/account.py:102-137 | the account's order_position answers for the order's own symbol, touches no other symbol and changes nothing when unsuccessful; close_position on a held non-blank symbol succeeds and removes exactly that holding |
| PodOrders.Start | bktest/backtest.py:50-57 | before the first order `others` is the set of held symbols, no result is collected and both counters are zero |
| PodOrders.PercentOrderRaises | bktest/backtest.py:83-88 | as written, every percent-mode order that finds a non-zero price raises TypeError from the four-argument Order before anything is placed; any other order ends as the corrected step ends it |
| PodOrders.Sized | bktest/backtest.py:70-77 | the percent-mode quantity fails with ZeroDivisionError exactly when the price is zero |
| PodOrders.SizedBounds | bktest/backtest.py:70-77 | with prices the quantity is whole and costs within one price of the cash value aimed at; without, it costs exactly that value |
| PodOrders.Counted | bktest/backtest.py:91-100 | the result is appended, a success takes the symbol out of `others`, and percent mode counts symbols new to the account and failures |
| PodOrders.PodOrderSettles | bktest/backtest.py:31-132 | the batch is the order loop from the start state followed by its closing checks; share mode runs with any nav, percent mode with the account's |
| PodOrders.StepPlaces | bktest/backtest.py:65-119 | an order that finds no price places nothing (percent mode counts it not executed); one that finds a price places the sized order |
| PodOrders.StepPriced | bktest/backtest.py:68-111 | a priced order is placed as sized, except in share mode as written, where the call without a date raises TypeError first |
| PodOrders.StepTracked | bktest/backtest.py:65-119 | one step keeps the loop invariant linking `others`, the held symbols and the successful results |
| PodOrders.ExecuteTracked | bktest/backtest.py:65-119 | the invariant linking `others`, the held symbols and the successful results holds through the whole order loop |
| PodOrders.ExecuteCounts | bktest/backtest.py:65-103 | in percent mode every order is either executed successfully or counted as not executed |
| PodOrders.CloseAllCounts | bktest/backtest.py:134-161 | `_close_all` appends one result per symbol not found missing; closed_total counts them and closed_count the successful ones |
| PodOrders.CloseAllEmpties | bktest/backtest.py:134-161 | closing distinct held non-blank symbols removes exactly those symbols and counts each as closed |
| PodOrders.ExecuteStops | bktest/backtest.py:65-119 | an exception ends the order loop: the orders after it change nothing |
| PodOrders.ExecuteIgnoresNav | bktest/backtest.py:104-119 | share mode never reads the nav |
| PodOrders.CloseAllStops | bktest/backtest.py:142-156 | an exception ends `_close_all`: the symbols after it are not closed |
| PodOrders.FinishCorrected | bktest/backtest.py:124-132 | after the loop the batch returns its results, or with auto-closing those of closing `others` together with the two closing counts |
| PodOrders.CloseOthers | bktest/backtest.py:126-127 | auto-closing `others` leaves held only symbols ordered successfully |
| PodOrders.CorrectedHoldings | bktest/backtest.py:31-132 | with auto-closing the account ends holding only symbols ordered successfully; without it, every symbol held before stays held unless the batch ordered it successfully |
| PodOrders.ShareModeAsWritten | bktest/backtest.py:110-111 | as written, share mode gets through only batches in which no order found a price, and those change nothing |
| PodOrders.ShareOrderReachesTarget | bktest/backtest.py:104-115 | corrected share mode: an order that goes through succeeds and holds the symbol within EPSILON of its target |
| PodOrders.ZeroTargetLookup | bktest/backtest.py:90-97 | as written, a zero percent target on a held symbol sells it off and the lookup on line 93 raises KeyError; corrected, the order succeeds and the symbol is gone |
| PodOrders.UnclosedOthersFailCheck | bktest/backtest.py:121-130 | as written, one order for a new symbol while something else is held fails the final assertion; corrected, the account holds the old symbols plus the new one |
| Backtests.Exporters.constructor | bktest/backtest.py:328 | a new exporter collection has been told nothing |
| Backtests.Exporters.FireInitialize | bktest/backtest.py:406 | records exactly one initialize call |
| Backtests.Exporters.FireSkip | bktest/backtest.py:425 | records exactly one skip call with its date, reason and ordered flag |
| Backtests.Exporters.FireSnapshot | bktest/backtest.py:438 | records exactly one snapshot call with the date, the account's state, the result and the postponed date |
| Backtests.Exporters.FireFinalize | bktest/backtest.py:460 | records exactly one finalize call |
| Backtests.PriceDate | bktest/backtest.py:39-40 | price_date defaults to the order date |
| Backtests.OrderSymbols | bktest/backtest.py:43-48 | the symbols handed to download_missing are exactly those of the batch's orders |
| Backtests.Pod.constructor | bktest/backtest.py:17-29 | the pod keeps its flags, its price provider, account and exporters |
| Backtests.Pod.Step | bktest/backtest.py:65-119 | one order of the loop on the account in place ends as PodOrders.Step describes, with the provider's price of the price date |
| Backtests.Pod.CloseOne | bktest/backtest.py:142-156 | one symbol closed in place at the provider's price, as PodOrders.CloseOne describes |
| Backtests.Pod.CloseAll | bktest/backtest.py:134-161 | `_close_all` in place ends as PodOrders.CloseAll describes: same ledger, results and counts |
| Backtests.Pod.PlaceAll | bktest/backtest.py:60-119 | the order loop in place ends as PodOrders.Execute describes from the account's state before it |
| Backtests.Pod.Settle | bktest/backtest.py:121-132 | after the loop, auto-closes `others` in some order when configured and returns the results as PodOrders.Finish describes |
| Backtests.Pod.Order | bktest/backtest.py:31-132 | downloads the batch's symbols first; a failed download changes nothing in the account and is the answer; otherwise the account and the answer are those of PodOrders.PodOrder at the price date |
| Backtests.Pod.OrderPriced | bktest/backtest.py:50-132 | once prices are downloaded, the account and the answer are those of PodOrders.PodOrder |
| Backtests.Pod.Refresh | bktest/backtest.py:349-355 | one holding rewritten in place from its read as DailyUpdates.Refreshed says; no other holding changes |
| Backtests.Pod.Listing | bktest/backtest.py:344 | `account.holdings` lists each held symbol exactly once |
| Backtests.Pod.FireSnapshot | bktest/backtest.py:163-174 | reports the account as it stands with the result and postponed date |
| Backtests.MarkOf | bktest/backtest.py:425-455 | a skip call is reported as its date, reason and flag, a snapshot as its date, whether it carries a result and its postponed date; initialize and finalize report no day |
| Backtests.MarksAppend | bktest/backtest.py:405-460 | the days reported by two stretches of calls are those of the first followed by those of the second |
| Backtests.ThroughNextDay | bktest/backtest.py:412-456 | one more day of the loop extends the run through the day before by exactly that day's reports |
| Backtests.OrdersNamed | bktest/order.py:118-142 | every order a table gives names its symbol when every row does |
| Backtests.SimpleBacktester.constructor | bktest/backtest.py:299-339 | the run starts at the later of the first order date and `start`; the provider, the account and the exporters are new, and the iterator sees the provider's closeable flag |
| Backtests.SimpleBacktester.Sweep | bktest/backtest.py:341-389 | the sweep over the holdings in place ends as DailyUpdates.UpdateAll describes, and a read that raises ends it with that exception |
| Backtests.SimpleBacktester.UpdateValues | bktest/backtest.py:373-389 | every holding's value grows by its total return of the day as DailyUpdates.UpdateAll describes; the answer is whether some holding was brought up to date |
| Backtests.SimpleBacktester.UpdatePrice | bktest/backtest.py:341-371 | with prices every holding takes the day's price, otherwise its quantity grows by its total return, as DailyUpdates.UpdateAll describes; the answer is whether some holding was brought up to date |
| Backtests.SimpleBacktester.Revalue | bktest/backtest.py:429-432 | update_values then update_price, as DailyUpdates.Revalue describes; the day trades when either brought a holding up to date |
| Backtests.SimpleBacktester.Order | bktest/backtest.py:391-403 | an empty batch fails the assertion before anything changes; otherwise the pod's order on the table's orders for the date |
| Backtests.SimpleBacktester.OpenDay | bktest/backtest.py:429-438 | a revaluation that brings nothing up to date reports a day without trading, any other a snapshot without a result |
| Backtests.SimpleBacktester.ReportValues | bktest/backtest.py:434-438 | reports a no-trading skip or a snapshot according to the revaluation's answer |
| Backtests.SimpleBacktester.PlacePending | bktest/backtest.py:440-452 | the pending order placed with the day as price date: no result reports a skip and keeps it pending; a result reports a snapshot, postponed when the order was given on an earlier day |
| Backtests.SimpleBacktester.Report | bktest/backtest.py:444-451 | a batch with no result reports a skip, any other a snapshot carrying it, postponed when given earlier |
| Backtests.SimpleBacktester.FirstSnapshot | bktest/backtest.py:454-456 | the first trading day ends with one snapshot without a result |
| Backtests.SimpleBacktester.Turn | bktest/backtest.py:413-456 | one day of the loop reports and changes the loop's flags as DayLoop.Day describes |
| Backtests.SimpleBacktester.Trade | bktest/backtest.py:429-456 | a day that is not skipped reports as DayLoop.Trading describes |
| Backtests.SimpleBacktester.Place | bktest/backtest.py:440-456 | the pending order and the first day's snapshot report as DayLoop.Placing describes |
| Backtests.SimpleBacktester.Run | bktest/backtest.py:405-460 | initialize, then every day from start to end reported as DayLoop.Through describes, then the cache saved and finalize; the saved files are non-empty exactly when caching is on and the cache changed |
| Backtests.SimpleBacktester.Walk | bktest/backtest.py:410-456 | the loop visits each day from start to end once, reporting as DayLoop.Through describes |
| Backtests.PodSweep | bktest/backtest.py:344-371 | the sweep on a pod ends as DailyUpdates.UpdateAll describes |
| Backtests.UpdateStep | bktest/backtest.py:344-369 | one more holding of the sweep: rewritten from its read, or the sweep ends with the read's exception |
| Backtests.SharedUpdate | bktest/backtest.py:232-246 | a pod's turn: each holding priced from the day's cache or the provider, then one snapshot without a result |
| Backtests.Lookup | bktest/backtest.py:235-237 | the cached price when the cache has one, otherwise the provider's answer, which joins the cache; either way it is the provider's price of the day |
| Backtests.Reprice | bktest/backtest.py:233-244 | one holding takes its price of the day, or is marked not up to date, without a date stamp |
| Backtests.SweepStep | bktest/backtest.py:233-244 | one more holding of a pod's turn |
| Backtests.SharedSweep | bktest/backtest.py:233-244 | a pod's sweep rewrites every held symbol from the day's prices, or ends with the read's exception |
| Backtests.SharedPrice | bktest/backtest.py:229-246 | two pods holding the same symbol end the day with the same price for it, read once and shared |
| Backtests.PodTurn | bktest/backtest.py:232-246 | a pod's turn over its holdings in the account's order |
| Backtests.UpdateOne | bktest/backtest.py:232-246 | one pod's turn leaves every other pod as it was |
| Backtests.NewPod | bktest/backtest.py:204-210 | a new pod with a new account at the initial cash and its own exporters, on the shared provider |
| Backtests.NewPods | bktest/backtest.py:203-212 | n separate new pods, all on the shared provider |
| Backtests.UpdatePods | bktest/backtest.py:229-246 | the pods in turn, sharing one price cache for the day; a read that raises ends the update |
| Backtests.ParallelBacktester.constructor | bktest/backtest.py:179-227 | the run starts at the later of the first order date and `start`; every pod has a new account and its own exporters, all sharing one new price provider |
| Backtests.ParallelBacktester.UpdatePrice | bktest/backtest.py:229-246 | every pod's holdings take the day's price, read once per symbol and shared, each pod followed by a snapshot; a read that raises ends the update |
| DailyUpdates.UpdateAll | bktest/backtest.py:341-389 | a sweep never adds or removes a holding |
| DailyUpdates.UpdateAllEach | bktest/backtest.py:344-369 | a sweep that raised nothing rewrote each listed holding exactly once from its own read and left every other holding as it was |
| DailyUpdates.UpdateAllOutcome | bktest/backtest.py:341-371 | a sweep raises exactly when some read raises; otherwise the day trades exactly when some read found a figure |
| DailyUpdates.UpdateAllStep | bktest/backtest.py:344-369 | one more holding of a sweep: its read's exception ends the sweep, otherwise the holding is refreshed and the trading flag takes its up_to_date |
| DailyUpdates.UpdateAllStops | bktest/backtest.py:344-369 | a read that raises ends the sweep: the holdings after it are not read |
| DailyUpdates.Revalue | bktest/backtest.py:429-432 | the day's revaluation never adds or removes a holding |
| DailyUpdates.RevalueStages | bktest/backtest.py:429-432 | update_values runs first and its exception ends the day; otherwise update_price runs over the same listing and the day trades when either sweep found a figure |
| DailyUpdates.RevalueMarks | bktest/backtest.py:349-385 | after the day a holding is up to date exactly when the second sweep found its figure, and stamped with the date when either sweep did |
| DailyUpdates.ParallelUpdate | bktest/backtest.py:229-246 | a pod's update never adds or removes a holding |
| DailyUpdates.ParallelUpdateLeavesStale | bktest/backtest.py:239-244 | the parallel update leaves last_date_updated as it was, so a holding priced today but bought earlier cannot be ordered again today (to_relative_order's assertion fails); with the date stamped, as the single-pod update does, it can |
| DayLoop.Skipping | bktest/backtest.py:420-423 | a day is skipped exactly when it is a holiday or a weekend day, and the skip carries the date and the ordered flag |
| DayLoop.PlanOf | bktest/iterator.py:18-64 | the run starts at the iterator's start, the order dates are its order dates and the skip is DayLoop.Skipping |
| DayLoop.ThroughAgrees | bktest/backtest.py:412-456 | what is reported through a day depends only on what the account answered up to that day |
| DayLoop.DayMarks | bktest/backtest.py:412-456 | every day is reported once or twice, always under its own date |
| DayLoop.DayPending | bktest/backtest.py:415-452 | a day leaves an order pending exactly when there was one and no result was reported; the pending order date is the latest order date seen; at most one result is reported a day and it is postponed exactly when the order date is not the day |
| DayLoop.ThroughOrdered | bktest/backtest.py:410-413 | reports are dated from the start to the last day, in order |
| DayLoop.ThroughCovers | bktest/backtest.py:410-413 | every day from the start to the last day is reported |
| DayLoop.ThroughPrefix | bktest/backtest.py:410-413 | what is reported through an earlier day is a prefix of what is reported through a later one |
| DayLoop.DayKeeps | bktest/backtest.py:415-452 | a day keeps the pending order given on a date, leaving it pending exactly when no result was reported |
| DayLoop.OrderPostponed | bktest/backtest.py:415-452 | an order is never lost: until a later order date replaces it, it stays pending exactly as long as no result has been reported since, and a later result carries its date as the postponement |
| LegacyBatches.Count | backtest/backtest.py:37-44 | `_count_by_success` counts at most all results |
| LegacyBatches.CountsAddUp | backtest/backtest.py:26-44 | success_count and failed_count add up to the number of results |
| LegacyBatches.TotalFeesBound | backtest/backtest.py:22-24 | with no negative fee, total_fees is non-negative and at least each single fee |
| LegacyBatches.Start | backtest/backtest.py:76-87 | before the first row no result is collected and `others` is the set of held symbols |
| LegacyBatches.ClosePrice | backtest/backtest.py:138-141 | the auto-close sells at the quote, or at the holding's last price when the quote is missing, zero or NaN |
| LegacyBatches.PlacePriced | backtest/backtest.py:103 | a priced order never raises, answers for itself, succeeds exactly when the symbol is not blank and the price positive, changes nothing when it fails and no other symbol when it succeeds |
| LegacyBatches.PlacePricedSound | backtest/account.py:46-70 | a priced order keeps every holding under its own symbol and none at zero |
| LegacyBatches.StepTracked | backtest/backtest.py:92-127 | one row keeps `others` within the symbols held at the start and not ordered successfully; a row without a tradable price adds no result, one with a price adds exactly one, for the row's symbol |
| LegacyBatches.ExecuteTracked | backtest/backtest.py:89-127 | the loop keeps `others` tracked and the account sound, and without an exception its results correspond one to one, in order, to the rows with a tradable price |
| LegacyBatches.OthersStillHeld | backtest/backtest.py:129-136 | after the rows every symbol left in `others` is still held, so the auto-close never skips one |
| LegacyBatches.PercentSizing | backtest/backtest.py:96-99 | in percent mode a row at a positive price buys whole shares worth at most its share of the equity and less than one share short of it |
| LegacyBatches.PercentQuantity | backtest/backtest.py:96-99 | the percent-mode quantity is the share of the equity divided by the price, truncated toward zero |
| LegacyBatches.SellOff | backtest/backtest.py:143 | selling a held symbol off succeeds exactly at a positive price, and then the symbol is no longer held |
| LegacyBatches.CloseOneHeld | backtest/backtest.py:132-144 | the corrected auto-close of a held symbol is the sale of its whole quantity at the close price |
| LegacyBatches.CloseOneSells | backtest/backtest.py:132-149 | closing one held symbol adds exactly one result for it, succeeding exactly when it sold at a positive price, after which the symbol is gone |
| LegacyBatches.CloseAllSells | backtest/backtest.py:129-151 | over distinct held symbols the auto-close adds one result per symbol in order and ends holding what was held less the symbols it sold off |
| LegacyBatches.ExecuteStops | backtest/backtest.py:92-127 | an exception ends the loop over the rows |
| LegacyBatches.ExecuteIgnoresEquity | backtest/backtest.py:112-127 | share mode never reads the equity |
| LegacyBatches.CloseAllStops | backtest/backtest.py:132-149 | an exception ends the auto-close |
| LegacyBatches.StepVersions | backtest/backtest.py:109-125 | the code as written and the corrected code agree on the account and results; the written one only adds a NameError where a failed share-mode order is warned about with the unassigned `percent` |
| LegacyBatches.NegativePriceRaises | backtest/backtest.py:118-125 | a share-mode row at a negative price: as written the warning raises NameError; corrected, the failed order is recorded and nothing else changes |
| LegacyDayLoop.SkipReason | backtest/backtest.py:175-195 | only a closeable source skips: a weekend day unless weekends are allowed, otherwise a listed holiday unless holidays are allowed |
| LegacyDayLoop.Replayed | backtest/backtest.py:197-199 | a trading day replays one postponed-order snapshot per postponed date, in the order they were postponed |
| LegacyDayLoop.DayMarks | backtest/backtest.py:172-211 | a skipped day reports once, a trading day once per postponed date and once more, always under its own date |
| LegacyDayLoop.ThroughSorted | backtest/backtest.py:172-211 | reports are dated from the start to the last day, in order |
| LegacyDayLoop.ThroughPrefix | backtest/backtest.py:172-211 | what is reported through an earlier day is a prefix of what is reported through a later one |
| LegacyDayLoop.DayFaithful | backtest/backtest.py:172-211 | one day keeps the postponed list made of skipped order dates and reports only faithful marks |
| LegacyDayLoop.SkipKeepsPending | backtest/backtest.py:176-195 | a skipped order date joins the postponed list as its latest entry |
| LegacyDayLoop.TradeFaithful | backtest/backtest.py:197-209 | a trading day's snapshots are faithful to the plan |
| LegacyDayLoop.ThroughFaithful | backtest/backtest.py:172-211 | every report through a day is faithful to the plan and the postponed list holds only skipped order dates |
| LegacyDayLoop.OrderNotLost | backtest/backtest.py:172-211 | every order date has been executed, on its day or on a later trading day, or is still postponed |
| LegacyDayLoop.ThroughRegulars | backtest/backtest.py:203-209 | the regular snapshots are exactly one per trading day, in order, and none on a skipped day |
| LegacyDayLoop.DayRegulars | backtest/backtest.py:203-209 | a day has its own regular snapshot exactly when it trades |
| LegacyDayLoop.NoSkipUnlessCloseable | backtest/backtest.py:175 | a source that is not closeable skips nothing: one snapshot per day, ordered exactly on order dates, nothing postponed |
| LegacyDayLoop.ThroughNext | backtest/backtest.py:172-211 | one more day of the run extends the reports by that day's |
| LegacyDayLoop.SkipStep | backtest/backtest.py:176-195 | a skipped day reports its skip and postpones its order date |
| LegacyDayLoop.TradeStep | backtest/backtest.py:197-209 | a trading day replays the postponed dates, clears them, and ends with its own snapshot |
| LegacyDayLoop.TenDays | tests/test_iterator.py:55-75 | 2024-01-01 to 2024-01-10 with orders on the 1st, 4th, 7th and 9th and the 1st a holiday: the exact trace of skips, postponed executions and snapshots |
| LegacyDayLoop.FiveDays | tests/test_iterator.py:55-75 | on any plan shaped like that run, the first five days skip the holiday, replay its orders on the 2nd, then trade normally, leaving nothing postponed |
| LegacyDayLoop.LastFiveDays | tests/test_iterator.py:55-75 | on the same plan, the next five days skip the weekend, replay Sunday's orders on Monday and then trade |
| LegacyBacktests.Exporters.constructor | backtest/backtest.py:58-66 | no exporter has been called yet |
| LegacyBacktests.Exporters.Initialize | backtest/backtest.py:167-168 | the exporters record exactly one initialize call, after what they recorded before |
| LegacyBacktests.Exporters.OnSkip | backtest/backtest.py:218-220 | the exporters record exactly one on_skip call with the date, reason and ordered flag |
| LegacyBacktests.Exporters.OnSnapshot | backtest/backtest.py:242-243 | the exporters record exactly one on_snapshot call with the snapshot |
| LegacyBacktests.Exporters.Finalize | backtest/backtest.py:215-216 | the exporters record exactly one finalize call |
| LegacyBacktests.SnapshotOf | backtest/backtest.py:222-240 | the snapshot carries the date, postponed date, cash, equity and holdings of the account; it is ordered exactly when a batch is given, whose success and failed counts then add up to its result count; otherwise fees and counts are zero |
| LegacyBacktests.MarkOf | backtest/backtest.py:218-243 | a skip call tells its date, reason and ordered flag, a snapshot call its date, ordered flag and postponed date, and initialize/finalize tell nothing |
| LegacyBacktests.MarksAppend | backtest/backtest.py:162-216 | what calls fired in two goes tell is what each go tells, one after the other |
| LegacyBacktests.MassOrderResult.constructor | backtest/backtest.py:76 | a new batch result holds no results |
| LegacyBacktests.MassOrderResult.Of | backtest/backtest.py:17-20 | the batch result holds the given results in their order |
| LegacyBacktests.MassOrderResult.Append | backtest/backtest.py:34-35 | append adds the result at the end and keeps the others |
| LegacyBacktests.MassOrderResult.CountBySuccess | backtest/backtest.py:37-44 | the loop counts exactly the results whose success flag is the one asked for |
| LegacyBacktests.MassOrderResult.SuccessCount | backtest/backtest.py:26-28 | the number of successful results |
| LegacyBacktests.MassOrderResult.FailedCount | backtest/backtest.py:30-32 | the number of failed results |
| LegacyBacktests.RowSymbols | backtest/backtest.py:83 | the downloaded symbols are exactly the symbols of the rows |
| LegacyBacktests.PriceDate | backtest/backtest.py:78-79 | the price date is the one given, or the order date when none is |
| LegacyBacktests.RepriceSpec | backtest/backtest.py:155-160 | update_price keeps the held symbols, quantities and everything but prices; unless a quote raises, a holding takes its quote exactly when it is tradable and keeps its price otherwise |
| LegacyBacktests.ReaderReads | backtest/backtest.py:97 | reading a row's quote is the price provider's get at that date |
| LegacyBacktests.RepriceSnoc | backtest/backtest.py:156-160 | the sweep over one more holding is the sweep so far followed by that holding |
| LegacyBacktests.RepriceStops | backtest/backtest.py:155-160 | once a quote has raised, the rest of the holdings are left as they are |
| LegacyBacktests.BacktesterAsWritten | backtest/backtest.py:73-143 | as written, `Account(cash=…)` raises TypeError, `account.order` is not an attribute and Account is not subscriptable; the `initial_cash`, `place_order` and `find_holding` the model uses all exist |
| LegacyBacktests.Backtester.constructor | backtest/backtest.py:49-73 | the run starts at the later of the first order date and the start, or nowhere without order dates; the provider covers start to end; the account starts with the initial cash and no holdings; no exporter has been called |
| LegacyBacktests.Backtester.PlanOf | backtest/backtest.py:162-195 | the day loop runs from the start to the end, with the provider's closeable flag, the provider's order dates and the holiday list |
| LegacyBacktests.Backtester.PlaceRow | backtest/backtest.py:92-127 | one row: the account changes as the batch model's step says, at the price date's quotes |
| LegacyBacktests.Backtester.PlaceNext | backtest/backtest.py:92-127 | one pass of the row loop extends the batch by that row, or ends it with the row's exception |
| LegacyBacktests.Backtester.PlaceRows | backtest/backtest.py:89-127 | the row loop leaves the account and the batch as the batch model says for all rows in order |
| LegacyBacktests.Backtester.CloseOther | backtest/backtest.py:133-149 | one auto-closed symbol: the held one is sold off at the order date's quote, or at its last price when the quote is not tradable |
| LegacyBacktests.Backtester.Sell | backtest/backtest.py:143-144 | the sale is the account's place_order on the batch's ledger, its result appended |
| LegacyBacktests.Backtester.CloseNext | backtest/backtest.py:132-149 | one pass of the auto-close extends the batch by that symbol, or ends it with its exception |
| LegacyBacktests.Backtester.CloseOthers | backtest/backtest.py:132-149 | the auto-close loop leaves the account and the batch as the batch model's close-all says, in the order visited |
| LegacyBacktests.Backtester.AutoClose | backtest/backtest.py:129-151 | when auto-closing and symbols are left over, exactly those symbols are sold off, each once; otherwise the batch is unchanged |
| LegacyBacktests.Backtester.OrderPriced | backtest/backtest.py:87-153 | the account and the answer after the rows and the auto-close are the batch model's, sized against the equity read before the loop, the auto-close visiting each leftover symbol once |
| LegacyBacktests.Backtester.Sized | backtest/backtest.py:89-127 | the rows are sized against the equity read before the loop |
| LegacyBacktests.Backtester.Order | backtest/backtest.py:75-153 | a failing table read or download raises and leaves account and prices alone; otherwise exactly the unknown symbols are fetched and the batch runs as the model says |
| LegacyBacktests.Backtester.SetPrice | backtest/backtest.py:160 | one holding takes the new price and nothing else in the account changes |
| LegacyBacktests.Backtester.RepriceNext | backtest/backtest.py:156-160 | one more holding of the sweep, as the repricing model says, raising exactly when its quote raises |
| LegacyBacktests.Backtester.UpdatePrice | backtest/backtest.py:155-160 | every holding, visited once each, is repriced as the repricing model says; the loop raises exactly when a quote raises |
| LegacyBacktests.Backtester.FireSkip | backtest/backtest.py:218-220 | every exporter's on_skip gets the date, reason and ordered flag |
| LegacyBacktests.Backtester.FireSnapshot | backtest/backtest.py:222-243 | every exporter's on_snapshot gets the account's snapshot with the batch's figures |
| LegacyBacktests.Backtester.OrderAndReport | backtest/backtest.py:197-209 | an order date's batch is followed by one ordered snapshot carrying the postponed date, or nothing is reported when it raises |
| LegacyBacktests.Backtester.RepriceAndReport | backtest/backtest.py:207-209 | a day without orders reprices the holdings and reports one snapshot without a batch |
| LegacyBacktests.Backtester.ReplayNext | backtest/backtest.py:197-199 | one more postponed date replayed and reported |
| LegacyBacktests.Backtester.Replay | backtest/backtest.py:197-201 | the postponed order dates are replayed in order, each with a snapshot under the day's date |
| LegacyBacktests.Backtester.TradingDay | backtest/backtest.py:197-209 | a trading day reports the replays then its own snapshot |
| LegacyBacktests.Backtester.OwnDay | backtest/backtest.py:203-209 | a day's own snapshot is ordered exactly when it is an order date |
| LegacyBacktests.Backtester.Turn | backtest/backtest.py:172-211 | one day's calls and the new postponed list are those the day-loop model gives |
| LegacyBacktests.Backtester.Run | backtest/backtest.py:162-216 | without a start nothing happens; otherwise initialize, every day's calls as the day-loop model gives, then finalize; the cache is written exactly when caching and new prices were fetched |
| LegacyBacktests.Backtester.WalkNext | backtest/backtest.py:172-211 | one pass of the loop extends the reports to that day |
| LegacyBacktests.Backtester.Walk | backtest/backtest.py:172-211 | the loop's calls, from start to end, are those the day-loop model gives |
| PriceProviders.MapSymbol | bktest/price_provider.py:25-26 | map gives the registered partner, or the symbol itself |
| PriceProviders.UnmapSymbol | bktest/price_provider.py:28-29 | unmap gives the registered partner, or the symbol itself |
| PriceProviders.Added | bktest/price_provider.py:21-23 | after add both directions are registered and every other symbol maps and unmaps as before |
| PriceProviders.MapAll | bktest/price_provider.py:31-35 | maps maps the list one by one, keeping its length and order |
| PriceProviders.UnmapAll | bktest/price_provider.py:37-43 | unmaps unmaps the list one by one, keeping its length and order |
| PriceProviders.AddedRoundTrips | bktest/price_provider.py:21-29 | the symbol just added round-trips, and so does every earlier round-tripping symbol whose target was not reused |
| PriceProviders.ReusedTargetBreaksRoundTrip | bktest/price_provider.py:21-23 | registering a second symbol onto a used target breaks the first symbol's round trip |
| PriceProviders.UnmapAllMapAll | bktest/price_provider.py:31-43 | unmaps after maps gives the list back when each of its symbols round-trips |
| PriceProviders.AddItems | bktest/price_provider.py:60-64 | the items load exactly when every value is a string; otherwise ValueError names a key whose value is not |
| PriceProviders.Parse | bktest/price_provider.py:48-71 | a non-JSON path is a ValueError, so is a root that is not an object; otherwise the items are added in order |
| PriceProviders.AddItemsMapsEachKey | bktest/price_provider.py:60-64 | with distinct keys, each key maps to its own value and every other symbol maps as before |
| PriceProviders.SymbolMapper.constructor | bktest/price_provider.py:17-19 | a new mapper maps and unmaps nothing |
| PriceProviders.SymbolMapper.Add | bktest/price_provider.py:21-23 | add registers the pair in both directions |
| PriceProviders.SymbolMapper.Map | bktest/price_provider.py:25-26 | map on the mapper's registrations |
| PriceProviders.SymbolMapper.Unmap | bktest/price_provider.py:28-29 | unmap on the mapper's registrations |
| PriceProviders.Change | bktest/price_provider.py:142-144 | a return exists exactly when both prices exist and the previous is not zero, and then it is the relative change |
| PriceProviders.ReturnCells | bktest/price_provider.py:142-144 | the first date of a column has no return |
| PriceProviders.Returns | bktest/price_provider.py:142-147 | the returns table has the prices' dates and columns |
| PriceProviders.Ones | bktest/price_provider.py:150-153 | each priced cell becomes one and each missing one stays missing |
| PriceProviders.Prepare | bktest/price_provider.py:111-155 | prices and returns share dates and columns; the only error is the NaN-pattern assertion, raised only when working on returns |
| PriceProviders.Joined | bktest/price_provider.py:157-184 | both tables are left-joined with the new columns, the symbols gain the requested ones and the cache is marked updated |
| PriceProviders.DownloadKeepsDates | bktest/price_provider.py:95-184 | with nothing missing nothing changes; otherwise both tables keep their dates and columns, gain the new ones after them, and every requested symbol is known |
| PriceProviders.ReadPrice | bktest/price_provider.py:186-196 | ValueError for a symbol never downloaded; a missing, NaN or zero price reads as none; any other price is read as stored |
| PriceProviders.ReadReturn | bktest/price_provider.py:198-208 | ValueError for a symbol never downloaded; otherwise the stored return, zero included |
| PriceProviders.DownloadedSymbolsResolve | bktest/price_provider.py:136-192 | a downloaded, round-tripping symbol whose column was fetched can be read under its own name on every cached date |
| PriceProviders.DownloadJoins | bktest/price_provider.py:102-184 | a download that fetched joins exactly the prepared tables |
| PriceProviders.JoinedNames | bktest/price_provider.py:161-166 | the joined storage lists the new columns after the old ones |
| PriceProviders.RenamedColumn | bktest/price_provider.py:136 | a round-tripping symbol's fetched column keeps its place and carries the user symbol after renaming |
| PriceProviders.CachePath | bktest/price_provider.py:257-258 | the path is under .cache/ and starts with the table's name and a dash |
| PriceProviders.CachePathsDiffer | bktest/price_provider.py:210-221 | the prices and returns are saved to different files |
| PriceProviders.SymbolsOf | bktest/price_provider.py:253-256 | the known symbols are exactly the columns except the placeholder |
| PriceProviders.CreateStorage | bktest/price_provider.py:227-252 | the cached table when caching and it exists; otherwise one row per day from start to end and no symbol |
| PriceProviders.DownloadFetches | bktest/price_provider.py:102-184 | with something missing, a fetch error or a preparation error is raised, and otherwise the prepared tables are joined |
| PriceProviders.PriceProvider.constructor | bktest/price_provider.py:75-93 | the provider starts from the cached tables or fresh grids, knows the symbols of its storage, is not updated, and works on prices only when the source holds prices |
| PriceProviders.PriceProvider.DownloadMissing | bktest/price_provider.py:95-184 | only the unknown symbols are fetched, once, as one mapped request; the cache becomes the download's result, or stays as it was on an exception |
| PriceProviders.PriceProvider.Install | bktest/price_provider.py:157-184 | the join replaces both tables and the symbol set, and records no request |
| PriceProviders.PriceProvider.Get | bktest/price_provider.py:186-196 | get reads the price under the mapped symbol |
| PriceProviders.PriceProvider.GetUnmapped | bktest/price_provider.py:186-196 | the corrected get reads the price under the user symbol |
| PriceProviders.PriceProvider.GetTotalReturn | bktest/price_provider.py:198-208 | get_total_return reads the return under the mapped symbol |
| PriceProviders.PriceProvider.GetTotalReturnUnmapped | bktest/price_provider.py:198-208 | the corrected get_total_return reads the return under the user symbol |
| PriceProviders.PriceProvider.Save | bktest/price_provider.py:210-221 | nothing is written unless caching and updated; then the prices file and the returns file |
| PriceProviders.IdentityMapperReadsAlike | bktest/price_provider.py:186-196 | with no mapping, get as written and the corrected get agree |
| PriceProviders.MappedLookupMisses | bktest/price_provider.py:136-192 | with a mapper to another name, get as written raises KeyError after a download while the corrected lookup finds the price |
| LegacyPriceProviders.AsTable | backtest/price_provider.py:98-115 | a table is kept; a one-symbol Series becomes a column named after the symbol over its dates, or all NaN over the storage dates when empty; None raises AttributeError |
| LegacyPriceProviders.Renamed | backtest/price_provider.py:117 | the columns are unmapped back to user symbols |
| LegacyPriceProviders.Merged | backtest/price_provider.py:122-133 | the storage is left-joined with the prices, the symbols gain the requested ones and the cache is marked updated |
| LegacyPriceProviders.DownloadUnfolds | backtest/price_provider.py:86-133 | with something missing, the corrected download joins the renamed answer and the written one raises NameError when a column has no price |
| LegacyPriceProviders.DownloadKeepsDates | backtest/price_provider.py:82-133 | with nothing missing nothing changes; otherwise the storage keeps its dates and columns, the new ones after them, and every requested symbol is known |
| LegacyPriceProviders.AsWrittenDiffersOnlyByNameError | backtest/price_provider.py:118-120 | the written download differs from the corrected one only by raising NameError, exactly when an answer column has no price |
| LegacyPriceProviders.EmptySeriesRaises | backtest/price_provider.py:109-120 | a one-symbol empty Series makes the written download raise NameError; the corrected one records the symbol with no price |
| LegacyPriceProviders.ReadRaw | backtest/price_provider.py:135-143 | ValueError for a symbol never downloaded; otherwise the raw stored cell under the mapped column |
| LegacyPriceProviders.ZeroPriceReadRaw | backtest/price_provider.py:135-143 | a stored zero price is handed back as zero, where the newer get reads no price |
| LegacyPriceProviders.LegacyPriceProvider.constructor | backtest/price_provider.py:70-80 | the provider starts from the cached table or a fresh grid, knows the symbols of its storage and is not updated |
| LegacyPriceProviders.LegacyPriceProvider.DownloadMissing | backtest/price_provider.py:82-133 | only the unknown symbols are fetched, once; the cache becomes the download's result, or stays as it was on an exception |
| LegacyPriceProviders.LegacyPriceProvider.Get | backtest/price_provider.py:135-143 | get reads the raw cell under the mapped symbol |
| LegacyPriceProviders.LegacyPriceProvider.IsCloseable | backtest/price_provider.py:156-157 | the data source's closeable flag |
| LegacyPriceProviders.LegacyPriceProvider.Save | backtest/price_provider.py:145-154 | nothing is written unless caching and updated; then the prices file |
| DataSources.RemoveAll | bktest/data/source/base.py:34-35 | replace with "" leaves a string without the pattern unchanged and removes at least one copy from a string that has it |
| DataSources.ShortNotContains | bktest/data/source/base.py:34 | a string shorter than the pattern does not contain it |
| DataSources.GetName | bktest/data/source/base.py:27-37 | the base class answers "DataSource"; any other class keeps a name without "DataSource" and loses at least that much of a name with it |
| DataSources.LegacyGetName | backtest/data/source/base.py:24-31 | a name without "DataSource" is kept; one with it loses at least that much |
| DataSources.NoFirstCharNotContains | bktest/data/source/base.py:34 | text without the pattern's first character does not contain it |
| DataSources.RemoveAfterFree | bktest/data/source/base.py:35 | text without the pattern's first character passes through the replacement unchanged |
| DataSources.SuffixStripped | bktest/data/source/base.py:27-37 | any stem without a capital D followed by "DataSource" is reported as the stem, by both versions of get_name |
| DataSources.NameKept | bktest/data/source/base.py:27-37 | any class name without a capital D is reported unchanged, by both versions of get_name |
| DataSources.SuffixRemoved | tests/test_data_source.py:9-17 | "ValidNameDataSource" is named "ValidName" by both versions |
| DataSources.OtherNameKept | tests/test_data_source.py:13-18 | "InvalidNameSource" keeps its name in both versions |
| DataSources.BaseClassName | bktest/data/source/base.py:28-31 | the newer base class is named "DataSource"; the older one's name reduces to the empty string |
| DataSources.DefaultIsCloseable | bktest/data/source/base.py:19-25 | a source that does not override is_closeable is closeable |
| DataSources.DefaultFetchPrices | bktest/data/source/base.py:10-17 | the newer base fetch_prices raises NotImplementedError |
| DataSources.LegacyDefaultFetchPrices | backtest/data/source/base.py:10-12 | the older base fetch_prices answers no table |
| DelegateSources.Remaining | bktest/data/source/delegate.py:48-52 | the remaining symbols are all of them without a table, else exactly those without a column |
| DelegateSources.FindRemaining | bktest/data/source/delegate.py:48-52 | the list itself without a table; else the remaining symbols, each once, in some order |
| DelegateSources.Accumulate | bktest/data/source/delegate.py:24-36 | one answer joined on: there is a table afterwards exactly when there was one before or the answer is one, and the gathered columns come first |
| DelegateSources.Combined | bktest/data/source/delegate.py:16-36 | the loop has a table exactly when some delegate answered with one |
| DelegateSources.PricedOnLarger | bktest/data/source/delegate.py:31-36 | a priced column stays priced when the outer join adds dates |
| DelegateSources.CombinedColumnsPriced | bktest/data/source/delegate.py:24-36 | every gathered column holds a price: all-NaN answers are dropped and joins only add dates |
| DelegateSources.UnpricedAskedAgain | bktest/data/source/delegate.py:18-26 | a symbol that every delegate answered with no price is still asked for |
| DelegateSources.NeverGathered | bktest/data/source/delegate.py:24-36 | a symbol only ever answered all NaN has no gathered column |
| DelegateSources.AskDelegates | bktest/data/source/delegate.py:16-36 | the delegates are asked in order, each for the symbols still unpriced; the loop stops early only when nothing remains, a delegate's exception ends the call, and otherwise the result is all the answers joined |
| DelegateSources.FillMissing | bktest/data/source/delegate.py:38-42 | the unpriced symbols are added as NaN columns after the gathered ones, so every symbol has a column; with no table at all this raises TypeError unless no symbol was asked for |
| DelegateSources.FetchPrices | bktest/data/source/delegate.py:15-42 | the loop over the delegates, then every unpriced symbol added as a NaN column |
| DelegateSources.DelegateIsCloseable | bktest/data/source/delegate.py:44-45 | a delegate source is always closeable |
| TableSources.Dates | bktest/data/source/dataframe.py:26-30 | the pivot's dates are exactly the rows' dates, each once and in ascending order whatever the order of the rows |
| TableSources.InsertDate | bktest/data/source/dataframe.py:26-30 | one more date in a sorted index keeps it sorted and adds exactly that date |
| TableSources.Symbols | bktest/data/source/dataframe.py:26-30 | the pivot's columns are exactly the rows' symbols |
| TableSources.Cells | bktest/data/source/dataframe.py:21-30 | a symbol's prices are keyed by exactly the dates of its rows |
| TableSources.CellsKeepFirst | bktest/data/source/dataframe.py:21-24 | the cell of a (symbol, date) holds the price of the first row with that key |
| TableSources.Pivot | bktest/data/source/dataframe.py:21-30 | the table has one row per date, in ascending date order, and one column per symbol of the rows, filled from the rows |
| TableSources.PivotKeepsFirst | bktest/data/source/dataframe.py:21-30 | looking a (symbol, date) up in the pivot gives the first such row's price |
| TableSources.FetchFromTable | bktest/data/source/dataframe.py:39-64 | every requested symbol gets a column; known ones read as the table on its dates from start to end, unknown ones are NaN; without any known symbol the dates are every day from start to end; a sorted table gives a sorted index |
| TableSources.FilledLookup | bktest/data/source/dataframe.py:62 | the added NaN columns read as NaN and the table's own columns are unchanged |
| TableSources.NewDataFrameSource | bktest/data/source/dataframe.py:10-37 | the source holds the pivoted rows and the given flags |
| TableSources.DataFrameIsCloseable | bktest/data/source/dataframe.py:66-67 | the constructor's closeable flag |
| TableSources.ExpectColumn | backtest/data/source/file/parquet.py:18-26 | the first field with the name decides: true when it has the expected type, ValueError otherwise, and "not found" exactly when no field has the name |
| TableSources.NewParquetSource | backtest/data/source/file/parquet.py:31-51 | the source loads exactly when the date, symbol and price columns check, the date column's error coming first; it then holds the pivoted rows |
| TableSources.ParquetIsCloseable | backtest/data/source/file/parquet.py:78-80 | a parquet source is always closeable |
| Frames.Lookup | bktest/price_provider.py:192 | reading a cell raises KeyError unless both the column and the date exist |
| Frames.WithNaNColumns | bktest/data/source/dataframe.py:62 | the named columns are added after the others, all NaN, on the same dates |
| Frames.DayRange | bktest/data/source/dataframe.py:55-60 | every day from start to end, in order |
| Frames.LeftJoin | bktest/price_provider.py:161-166 | the left dates are kept and the right columns appended, read only on those dates |
| Frames.OuterJoin | bktest/data/source/delegate.py:31-36 | the dates of both tables and the columns of both |
| Frames.Rename | bktest/price_provider.py:136 | each column is renamed in place and keeps its cells |
| Frames.DropAllNaN | bktest/data/source/delegate.py:26 | exactly the columns holding a price on the index are kept |
| Frames.Window | bktest/data/source/dataframe.py:50-53 | the rows between start and end and the named columns the table has, with the table's cells |
| Batches.Chunks | backtest/data/source/factset.py:14-16 | laid end to end the chunks give the list back; every chunk is full but the last, which is not empty |
| Batches.ChunkCount | backtest/data/source/factset.py:14-16 | there are ceil(len / max(1, n)) chunks |
| Batches.ChunksEdges | backtest/data/source/factset.py:15-16 | an empty list gives no chunk and a size below 1 acts as 1 |
| OrderFiles.Lower | backtest/order/provider/multiple.py:38 | lower-casing keeps the length and turns each capital letter into its small letter |
| OrderFiles.Find | backtest/order/provider/multiple.py:33-44 | ValueError without an extension; the CSV reader exactly for "csv" and the JSON reader exactly for "json" in any case; otherwise ValueError naming the lower-cased extension |
| OrderFiles.FindIgnoresCase | backtest/order/provider/multiple.py:38-42 | "CSV" and "Json" are found and "txt" is not |
| OrderFiles.JoinPath | backtest/order/provider/multiple.py:75 | the joined path ends with the file name |
| OrderFiles.KeptQualify | backtest/order/provider/multiple.py:70-84 | every kept file comes from a listed name with the extension, carries the reader found, and is not before skip_until |
| OrderFiles.KeepOne | backtest/order/provider/multiple.py:71-84 | a name is skipped or appended as one file with the joined path and the found reader, not before skip_until; an earlier error stays |
| OrderFiles.KeptErrorEnds | backtest/order/provider/multiple.py:74 | a name whose date does not parse ends the listing with that error |
| OrderFiles.KeepFiles | backtest/order/provider/multiple.py:70-84 | the loop over the listing keeps exactly what the filter says |
| OrderFiles.LoadFrom | backtest/order/provider/multiple.py:64-88 | an unknown extension or an unparsable name raises; otherwise the kept files, sorted by date and a permutation of what the loop kept |
| OrderFiles.ByShiftedDate | backtest/order/provider/multiple.py:103-109 | the files are keyed by exactly their shifted dates, each key holding a file with that shifted date |
| OrderFiles.LastFileWins | backtest/order/provider/multiple.py:103-109 | the file kept under a shifted date is the last one in the sorted list with that date |
| OrderFiles.NewFileOrderProvider | backtest/order/provider/multiple.py:93-112 | the error of the reader lookup or of the listing is raised as load_from raises it; otherwise the files kept from the listing, sorted by date, are keyed by shifted date, and the dates are exactly those keys, each once, sorted |
| OrderFiles.GetDates | backtest/order/provider/multiple.py:115-116 | get_dates answers the sorted dates |
| OrderFiles.OrderFileFor | backtest/order/provider/multiple.py:119-120 | the file of the date, or KeyError for a date without one |
| Sorting.InsertBy | backtest/order/provider/multiple.py:86 | inserting one element adds exactly that element |
| Sorting.InsertBySorted | backtest/order/provider/multiple.py:86 | inserting into a sorted list keeps it sorted |
| Sorting.SortBy | backtest/order/provider/multiple.py:86 | sort leaves the list sorted by the key and a permutation of itself |
| Sorting.InsertByRun | backtest/order/provider/multiple.py:86 | inserting into a sorted list puts the element after every element with the same key |
| Sorting.SortByStable | backtest/order/provider/multiple.py:86 | the sort is stable: for every key, the elements with that key come out in the order they went in |
| Sums.SumRemove | bktest/account.py:29-46 | any holding's term can be taken out of the equity sum first: the sum does not depend on the order of the holdings |
| Sums.SumUpdate | bktest/account.py:29-46 | replacing one holding replaces its term in the sum, and filing a new one adds its term |
| Sums.Enumerate | backtest/backtest.py:132 | iterating over a set visits each element exactly once, in some order |
| Sums.EnumerationDistinct | backtest/backtest.py:132 | such an iteration visits nothing twice |
| ExportModel.HoldingCount | bktest/export/model.py:27-29 | the number of holdings in the snapshot |
| ExportModel.RealDate | bktest/export/model.py:31-33 | the postponed order date when there is one, else the snapshot's day |
| ExportModel.NewSnapshot | bktest/export/model.py:6-25 | a snapshot built with the eight required fields has no fees, zero counts and no auto-close figures |
| Templates.ReplaceAt | backtest/template/template.py:44-58 | rewriting one element in place keeps the document's shape and every other element |
| Templates.Entries | backtest/template/template.py:22-23 | the elements of the pages with their places, each where it sits in the document |
| Templates.Append | backtest/template/template.py:24-32 | appending under a key creates its slot if need be and touches no other key |
| Templates.SlotsMeaning | backtest/template/template.py:21-32 | a key has a slot exactly when some element carries it as id or natural id, and the slot lists those elements in document order |
| Templates.SameIdTwice | backtest/template/template.py:24-32 | an element whose id equals its natural id is listed twice in a row in that slot |
| Templates.UpdatedAsWritten | backtest/template/template.py:44-60 | a Text takes the value's text and a Shape is untouched; an Image given a BytesIO raises the unbound-local error; given a path it passes on the read error, raises TypeError when the file has any content, and takes empty bytes only from an empty file; given anything else it raises ValueError |
| Templates.Updated | backtest/template/template.py:44-60 | the intended update: an Image takes the buffer it is given, or the bytes of the file at the path, failing exactly when the file cannot be read |
| Templates.BytesIOImage | backtest/template/template.py:51-52 | a buffer handed to an image slot raises as written and reaches the image in the intended update |
| Templates.ApplyAll | backtest/template/template.py:44-60 | rewriting the elements of a slot in turn keeps the document's shape |
| Templates.ApplyAllOutside | backtest/template/template.py:44-60 | elements outside the slot are untouched |
| Templates.ApplyAllTexts | backtest/template/template.py:45-47 | without a failure every Text of the slot holds the value's text |
| Templates.Template.constructor | backtest/template/template.py:13-32 | the template keeps its name and document, and its slots are the document's elements filed under id, then natural id |
| Templates.Template.Set | backtest/template/template.py:38-60 | an unknown key changes nothing; otherwise the slot's elements are rewritten in turn, stopping at the first failure, and the slots stay |
| Templates.Template.SetIntended | backtest/template/template.py:38-60 | the same with the image branches doing what they evidently intend |
| Templates.Template.SetWith | backtest/template/template.py:44-60 | the loop over the slot's elements rewrites them in turn and stops at the first failure |
| Templates.Template.Apply | backtest/template/template.py:34-36 | set for each variable in order, stopping at the first failure |
| Templates.AddPage | backtest/template/template.py:23-32 | the inner loop files every element of the page after those of the pages before |
| Templates.SlotsValid | backtest/template/template.py:21-32 | every place a slot lists is a place of the document |
| TemplateModels.Add | bktest/template/models.py:17-30 | componentwise with a vector, the number added to both components with a number, ValueError naming the type with anything else |
| TemplateModels.Zero | bktest/template/models.py:32-34 | the zero vector |
| TemplateModels.AddLaws | bktest/template/models.py:17-34 | adding zero changes nothing, adding vectors commutes, adding a number is adding the vector with that number twice |
| TemplateModels.Tuple | bktest/template/models.py:45-47 | the tuple gives the rectangle back |
| TemplateModels.Hex2 | bktest/template/models.py:60 | at least two digits; a byte is two hexadecimal digits that read back as it |
| TemplateModels.HexString | bktest/template/models.py:59-65 | "#" followed by at least eight digits |
| TemplateModels.HexStringRoundTrip | bktest/template/models.py:59-65 | for components in 0..255 the string is nine characters and its pairs read back as the truncated components |
| TemplateModels.Black | bktest/template/models.py:67-69 | opaque black |
| TemplateModels.BlackHexString | bktest/template/models.py:59-69 | black reads "#000000ff" |
| TemplateModels.FileName | bktest/template/models.py:95-97 | the family followed by ".ttf" |
| TemplateModels.FileNameInjective | bktest/template/models.py:95-97 | two fonts share a file exactly when they share a family |
| TemplateModels.End | bktest/template/models.py:115-117 | one past the span's last position |
| TemplateModels.ContiguousCover | bktest/template/models.py:115-117 | spans laid end to end cover from the first start to the last end, their lengths together |
| TemplateModels.ElementFonts | bktest/template/models.py:153-158 | a Text gives its own font first; other elements give none |
| TemplateModels.SpanFontsFromSpans | bktest/template/models.py:156-158 | the span fonts listed are exactly those the spans set |
| TemplateModels.FontsAppend | bktest/template/models.py:150-158 | the fonts of pages laid end to end are theirs in order |
| TemplateModels.FontsComeFromTexts | bktest/template/models.py:150-158 | every font listed belongs to a Text of the document |
| PdfLayout.RunEnd | bktest/template/pdf.py:370-373 | a run of characters of one class ends where the class changes |
| PdfLayout.SplitFrom | bktest/template/pdf.py:370-373 | there are runs exactly when text is left, and the first starts at the given index |
| PdfLayout.SplitWords | bktest/template/pdf.py:370-373 | an empty text has no runs and any other has some; no run is empty and none starts before 0 |
| PdfLayout.SplitFromBounds | bktest/template/pdf.py:370-373 | no run is empty and none starts before the index |
| PdfLayout.SplitFromIndices | bktest/template/pdf.py:370-373 | each run starts where the one before it ends |
| PdfLayout.SplitFromConcat | bktest/template/pdf.py:370-373 | the runs laid end to end give the text back |
| PdfLayout.SplitFromClasses | bktest/template/pdf.py:370-373 | each run holds one class and neighbouring runs differ in class |
| PdfLayout.NewlineRunsCount | bktest/template/pdf.py:370-373 | the newline runs hold every newline of the text |
| PdfLayout.CommitLine | bktest/template/pdf.py:118-136 | the line holds the words, is as wide as they are together and at least as high as each, or the minimum height without words |
| PdfLayout.MaxHeightBounds | bktest/template/pdf.py:126 | the highest word is at least as high as every word |
| PdfLayout.FirstAfter | bktest/template/pdf.py:147-151 | the first span that starts after the index, every span before it starting at or before it |
| PdfLayout.FindSpan | bktest/template/pdf.py:144-153 | with no span the loop index is unbound (NameError); with the first span starting later there is no span (AttributeError); otherwise the last span starting at or before the index; it always succeeds at index 0 exactly when the first span starts at or before 0 |
| PdfLayout.SpanAt | bktest/template/pdf.py:144-153 | a run takes its span among the text's spans, one starting at or before the run |
| PdfLayout.LinesOf | bktest/template/pdf.py:114-212 | the lines of a text are the runs of its content placed one by one by the rule of Place in their spans' fonts, and the last line committed; the error exactly when there is content and no span starts at or before 0 |
| PdfLayout.ComputeLines | bktest/template/pdf.py:114-212 | the lines LinesOf gives: one per newline and one per word that overflowed where the pen was, plus one; the lines hold the words of the text in order; no word ends past the box unless it starts its line |
| PdfLayout.LayOutRuns | bktest/template/pdf.py:157-210 | the loop over the runs ends in the state of the fold of Place over the runs, with the error of find_span for the first run when there is one |
| PdfLayout.PrefixStep | bktest/template/pdf.py:157-208 | one more run moves the layout by the rule of Place in that run's span font, and counts one more wrap exactly when the run is a word that overflows the pen position |
| PdfLayout.NextRun | bktest/template/pdf.py:157-208 | one pass of the loop takes the state of the runs so far to that of one run more, keeping the words in order, the line count and the box |
| PdfLayout.PlaceRun | bktest/template/pdf.py:170-208 | the state after the run is what Place gives (a newline run commits one line per newline, a space run only moves the pen, a word wraps exactly when its right edge would pass the box width plus 2), and a wrap is counted exactly then |
| PdfLayout.CommitNewlines | bktest/template/pdf.py:172-179 | a newline run of k characters adds k lines, the first holding the words so far and the others empty |
| PdfLayout.Commit | bktest/template/pdf.py:118-136 | commit_line appends the current words as one line |
| PdfLayout.ExtraSpace | bktest/template/pdf.py:224-226 | never negative; the lines and the gaps fill the box exactly when they fit, and there is no gap when they do not |
| PdfLayout.ResolveFont | bktest/template/pdf.py:60-75 | a font keeps its size and bytes; its family becomes "helvetica" exactly when the PDF does not know it, its file is missing and it carries no bytes |
| PdfLayout.LastX | bktest/template/pdf.py:230-231 | the right end of the rightmost word: no word ends after it and one ends at it; 0 for a line without words |
| PdfLayout.PlacedLine | bktest/template/pdf.py:228-248 | every word keeps its size and is moved down by the line number times the extra space; left-aligned words sit at the text's origin plus their own x, right-aligned ones all move by the same offset |
| PdfLayout.RightAligned | bktest/template/pdf.py:229-245 | in a right-aligned text every word of a line ends within the box and the rightmost ends exactly at its right edge |
| PdfLayout.ClassName | bktest/template/pdf.py:89-90 | an element's class is "shape", "text" or "image" |
| PdfLayout.WithIndices | bktest/template/pdf.py:85-87 | each element carries its index on the page |
| PdfLayout.DrawOrder | bktest/template/pdf.py:85-90 | KeyError exactly when some element's class has no priority; otherwise the page's elements, each once, ordered by priority and then index |
| PdfLayout.MissingClass | bktest/template/pdf.py:89-90 | there is no missing class exactly when every element's class has a priority |
| PdfLayout.DefaultPriorityOrder | bktest/template/pdf.py:30-34 | by default shapes are drawn first, then images, then texts |
| Sketch.Replacement | backtest/template/sketch.py:212-217 | a replaced character becomes a non-empty string |
| Sketch.Extra | backtest/template/sketch.py:233-235 | a character adds the length of its replacement less one |
| Sketch.Sanitize | backtest/template/sketch.py:219-239 | None for None; otherwise the text with each character replaced and the count of characters added |
| Sketch.SanitizedLength | backtest/template/sketch.py:219-239 | the output is as long as the input and the characters added |
| Sketch.SanitizedAppend | backtest/template/sketch.py:226-237 | sanitizing works character by character |
| Sketch.AddedAppend | backtest/template/sketch.py:226-237 | so does counting the added characters |
| Sketch.SanitizedKeeps | backtest/template/sketch.py:229-231 | characters outside the table are kept and add nothing |
| Sketch.SanitizedClean | backtest/template/sketch.py:212-217 | no replacement holds a character of the table |
| Sketch.SanitizeIdempotent | backtest/template/sketch.py:219-239 | sanitizing twice is sanitizing once |
| Sketch.Absolute | backtest/template/sketch.py:18-20 | the layer's local position plus its parent's offset |
| Sketch.ConvertColor | backtest/template/sketch.py:184-190 | every component scaled by 255 |
| Sketch.ConvertBlack | backtest/template/sketch.py:184-199 | opaque black in fractions converts to the default black |
| Sketch.ScaledPoints | backtest/template/sketch.py:202-208 | each curve point scaled to the frame and moved to its position |
| Sketch.ExtractShapePoints | backtest/template/sketch.py:201-210 | the point loop gives exactly the scaled points |
| Sketch.PointsInside | backtest/template/sketch.py:202-208 | a curve point in the unit square lands inside the element's box |
| Sketch.Slice | backtest/template/sketch.py:278 | an in-range slice is the substring |
| Sketch.ExtractSpan | backtest/template/sketch.py:270-296 | the span starts at the location; its content is the sanitized slice and its length the run's length plus what sanitizing added; its font and color are the run's |
| Sketch.ExtractSpans | backtest/template/sketch.py:298-308 | one span per attribute run, in order |
| Sketch.ExtractText | backtest/template/sketch.py:241-268 | a null string fails to unpack; otherwise the text loads exactly when the spans are as long together as the content, with ValueError giving both lengths; right alignment exactly when the paragraph alignment is 1 |
| Sketch.TilesSum | backtest/template/sketch.py:264 | attribute runs that tile the string sum to its length plus the characters added |
| Sketch.TiledTextPasses | backtest/template/sketch.py:263-266 | attribute runs that tile the string always pass the length check |
| Sketch.Prepend | backtest/template/sketch.py:38-82 | elements found are appended after those found before; a failure wins |
| Sketch.OwnElement | backtest/template/sketch.py:14-82 | a shape always gives a Shape carrying the clip; a bitmap loads exactly when its file is in the archive; a text exactly when its text extracts; other classes give nothing; the element has the layer's ids and its absolute box |
| Sketch.ChildClip | backtest/template/sketch.py:84-98 | a sub-layer is searched with a clip exactly when the sub-layer just before it is a mask |
| Sketch.ClipOnlyNext | backtest/template/sketch.py:84-98 | the clip the loop carries is the one the mask just before sets, and it clips no later sibling |
| Sketch.OwnElementOf | backtest/template/sketch.py:27-82 | the layer's own element, as the model says |
| Sketch.Find | backtest/template/sketch.py:14-98 | the layer's element, then those of its sub-layers searched recursively, appended to what was found before |
| Sketch.PageOf | backtest/template/sketch.py:102-112 | an artboard gives a page only when it has more than one element, sized as its frame |
| Sketch.Pages | backtest/template/sketch.py:100-114 | at most one page per artboard, each with more than one element |
| Sketch.PagesPrefix | backtest/template/sketch.py:101 | the artboards are taken from the last to the first |
| Sketch.TopAtOrigin | backtest/template/sketch.py:102-106 | an artboard's own element sits at the origin |
| Sketch.LoadSketch | backtest/template/sketch.py:100-114 | the loop over the artboards gives the model's pages |
| Sketch.LoadPage | backtest/template/sketch.py:102-112 | one artboard gives the model's page |
| Sketch.AllPages | backtest/template/sketch.py:133-135 | the pages of every design page, in order, each with more than one element |
| Sketch.LoadFonts | backtest/template/sketch.py:141-159 | every font file the fonts use is looked up exactly once, and its bytes are recorded when found |
| Sketch.SetFont | backtest/template/sketch.py:145-157 | a font takes the bytes of its file when found and is otherwise unchanged |
| Sketch.FontsWithBytes | backtest/template/sketch.py:141-159 | after the font loop the document's fonts are those before, each with its file's bytes when found |
| Sketch.Load | backtest/template/sketch.py:116-164 | fails exactly when a page fails; otherwise the template named after the path holds every page, its fonts given their bytes, each file looked up once |
| Sketch.AllPagesFails | backtest/template/sketch.py:134-135 | a failing design page makes the whole load fail the same way |
| Sketch.OwnElementAsWritten | backtest/template/sketch.py:47-82 | against the models it imports, shapes and other layers load as intended while every text and bitmap layer fails |
| Sketch.TextLayerAsWritten | backtest/template/sketch.py:47-67 | a text layer that loads with the newer models fails with NameError on the imported ones |

## Left out

- Input and output stay outside the model. Values read from outside come in as parameters:
  - prices fetched by a data source and the holiday calendar;
  - directory listings and file contents;
  - the zip/JSON content of a sketch file;
  - HTTP answers;
  - the parsed fee expression;
  - the text width used for line breaking.
- The warnings and info lines written to stderr and stdout are not modelled.
- IEEE floating point is not modelled. Money, quantities and returns are `real`, and NaN and a missing value are both `None`. Rounding error is not modelled; the 1e-10 and 1e-6 epsilons are named constants.
- TableSources.Pivot: the columns are kept in the order the symbols first appear, where pandas sorts them by name. Every lookup goes by name, so nothing in the model depends on column order. The date index is sorted, as pandas does.
- Several pandas mechanics are replaced by maps over dates and symbols:
  - row order after an outer join;
  - business-day offsets;
  - CSV cache reading and writing;
  - date type conversions.
- The exporters (console, dump, report, InfluxDB) are an event trace. The fire methods append to it, and the snapshot record is a value.
- Backtests.ParallelBacktester: `order` and `run` are not modelled. They call `ParallelOrderProvider.get_orders_list`, `OrderResultCollection` and the date iterator's iteration API, and none of these is defined in the files of this model. Its constructor and `update_price` are modelled.
- The iteration API of bktest/iterator.py is not part of this model; only its `Skip` record and the two skip predicates are. Both day loops are modelled from the loops in the backtester files.
- Orders: three-argument constructions give `value_` the value 0.0. In the source the undeclared `_value` attribute would be missing there.
- PodOrders and Ledgers: the four-argument Order constructions of bktest/backtest.py:83-88 and bktest/account.py:147-152 are modelled as an Order that carries `_value`. The TypeError they raise against the three-field dataclass is modelled separately, by PercentStepAsWritten and ToRelativeOrderAsWritten (see Findings). The `AsWritten` version of PodOrders keeps only the share-mode defect, so ZeroTargetLookup and UnclosedOthersFailCheck show defects that, as written, the TypeError would reach first.
- PriceProviders: the bktest `download_missing` branch for a one-symbol answer that is a pandas Series (bktest/price_provider.py:116-132) is not modelled. The data source's answer is a table or None. The same branch of the legacy package is modelled as LegacyPriceProviders.AsTable.
- Sums.Enumerate: a set of held symbols is visited in some order, each once, not in the insertion order of the holdings dict. This covers LegacyBacktests.Backtester.UpdatePrice, the auto-close of both packages and the bktest price sweeps. The model proves the outcome for every order of visit, but it does not pin which order the results and exporter calls come in.
- Utils.ParsesAsInt and Utils.ParsesAsFloat: only ASCII digits are recognised, while `int()` and `float()` also take other Unicode decimal digits.
- Fees: an expression is given by the variables it mentions and a function of them; the py_expression_eval parser is not modelled. An expression that is a bare variable bound to None evaluates to None rather than raising, and this case is not modelled.
- OrderFiles.Lower: folds only the ASCII capitals A to Z, while `str.lower` folds all of Unicode. Extensions outside ASCII are therefore compared differently.
- The fee module of the `bktest` package is not part of this model. Both packages' accounts take the fee models of backtest/fee.py.
- LegacyBacktests.Backtester.constructor: the source calls `Account(cash=…)`, `account.order` and `account[symbol]`, and backtest/account.py defines none of them. The model reads them as `initial_cash`, `place_order` and `find_holding`. LegacyBacktests.BacktesterAsWritten shows what the names as written do (see Findings).
- Holdings.Holding.Merge: requires a priced order. The account only merges orders that passed the validity check, and these always carry a price.
- LegacyHoldings.Holding.Merge: requires a priced order, for the same reason.
- Backtests.SimpleBacktester.constructor: requires at least one order date, symbol-carrying rows and dates within Python's date range. Without order dates the source sets `start` to None and fails later with a TypeError, which is not modelled.
- Backtests.ParallelBacktester.constructor: requires at least one order date, for the same reason.
- Snapshots carry the holdings as values rather than references to the live holding objects.
- LegacyBatches.Start: the source's `_MassOrderResult` is built after the batch, from its list of results. The model counts the same list.
- The bktest package's `PriceProvider.is_closeable` is not modelled separately from the legacy one (backtest/price_provider.py:156-157), which it repeats.
- `SymbolMapper.from_file`: the JSON parsing is not modelled. Its checks on the parsed value are modelled: the `.json` suffix, an object root and string values.
- OrderFiles: `FileReader.CSV`, `FileReader.JSON` and `OrderFile.read` are not modelled because they only read files. The dispatch, filtering, sorting and date-keyed lookup are modelled.
- PdfLayout: the drawing calls of `render` and the `_render_*` methods, and `_add_font_from_bytes`, go to the PDF and font libraries and are not modelled. What decides positions and fonts is modelled: the font fallback for one font (ResolveFont), the extra space between lines (ExtraSpace), and where a line's words are drawn (PlacedLine). The loop that applies ResolveFont to each font of the document, and the PDF's table of known fonts that it consults, are not modelled; whether a family is known comes in as a parameter.
- Templates: `TemplateLoader.load` and `TemplateRenderer.render` are abstract in the source and are not modelled.
- Sketch: `_extract_xy` parses a point string into two floats. The curve points come in as vectors.
- Sketch: the zip archive and JSON decoding are not modelled. The loader reads plain dictionaries from `json.load`; the archive enters as a map from file name to bytes.
- PdfLayout.FindSpan is modelled as written:
  - with no spans the loop variable is unbound;
  - with a first span that starts after the run, `None.color` is read.
  These are reachable only through malformed documents, so no corrected version is given.
- The NameError on bktest/backtest.py:117, from the undefined `percent`, is unreachable: the line is only reached by a priced share-mode order, and every such order already fails on line 111 (see Findings).
- bktest `SimpleBacktester.run` does not consult `is_closeable` before skipping weekends and holidays, while the legacy backtester does. Both are modelled as written.

## Findings

| source | as written | input that shows it | evidently intended | confidence | as-written member | corrected member |
|---|---|---|---|---|---|---|
| bktest/backtest.py:110-111 | share mode calls `order_position` without the `date` argument it requires | any share-mode batch with one priced order, e.g. 10 shares of a symbol at 5.0 | the order moves the holding to the target quantity at the price date | not executed | PodOrders.ShareModeAsWritten | PodOrders.ShareOrderReachesTarget |
| bktest/backtest.py:90-97 | after a percent-mode order, `_holdings[symbol]` is read even when the order netted the holding to zero and deleted it | a percent-mode order of 0 for a held, up-to-date symbol | a zero target sells the symbol off and the batch goes on | not executed | PodOrders.ZeroTargetLookup | PodOrders.CorrectedHoldings |
| bktest/backtest.py:121-130 | the batch asserts symbol-count equalities that ordinary batches break | one order for a new symbol while another symbol is held and auto-close is off | no assertion; the account holds the old symbols plus the ordered ones | not executed | PodOrders.UnclosedOthersFailCheck | PodOrders.CorrectedHoldings |
| backtest/backtest.py:125, 149 | the warning for a failed order or auto-close formats `percent`, which is unbound in share mode | 10 shares of "AAPL" at a price of -1.0 | the failed order is recorded and the batch goes on | not executed | LegacyBatches.NegativePriceRaises | LegacyBatches.StepVersions |
| backtest/price_provider.py:118-120 | the warning for an all-NaN downloaded column writes to `sys.stderr`, but `sys` is never imported | a data source answering one symbol with an empty column | the symbol is recorded as known with no price | not executed | LegacyPriceProviders.EmptySeriesRaises | LegacyPriceProviders.LegacyPriceProvider.DownloadMissing |
| bktest/price_provider.py:136, 190 | `get` looks a column up under the mapped symbol, but downloaded columns are stored under the user's symbols | a mapper from "AAPL" to "AAPL.US", a download of "AAPL", then `get` of "AAPL" | `get` finds the downloaded price | not executed | PriceProviders.MappedLookupMisses | PriceProviders.PriceProvider.GetUnmapped |
| backtest/template/template.py:51-52 | an Image set from a `BytesIO` reads the local `bytes` before it is assigned | `set` on an image slot with a `BytesIO` value | the image takes the buffer's bytes | not executed | Templates.BytesIOImage | Templates.Template.SetIntended |
| backtest/template/template.py:53-58 | an Image set from a path opens the file in text mode and copies it into a `BytesIO` | `set` on an image slot with the path of a non-empty file | the image takes the file's bytes | not executed | Templates.UpdatedAsWritten | Templates.Updated |
| backtest/template/sketch.py:5, 47-82 | the sketch loader imports the older template models but builds elements with the newer ones' fields (alignment, spans, file name) | a sketch page holding a text layer | the layers load into the newer models | not executed | Sketch.TextLayerAsWritten | Sketch.OwnElement |
| bktest/account.py:147-152 | `to_relative_order` builds `Order(symbol, quantity, price, _value)`, but the Order dataclass has three fields | an order for 10 of a symbol already held and updated on the date | the relative order carries the quantity and value differences | not executed | Ledgers.RelativeOrderAsWritten | Ledgers.OrderPositionReachesTarget |
| bktest/backtest.py:83-88 | percent mode builds `Order(symbol, quantity, price, nav * percent)`, but the Order dataclass has three fields | a percent-mode order of 0.5 for a symbol priced at 10.0 | the sized order is placed toward its target | not executed | PodOrders.PercentOrderRaises | PodOrders.CorrectedHoldings |
| backtest/backtest.py:73, 103, 133 | the backtester builds `Account(cash=…)` and calls `account.order` and `account[symbol]`, which backtest/account.py does not define | constructing any Backtester | an account with the initial cash, ordered through `place_order` and read through `find_holding` | not executed | LegacyBacktests.BacktesterAsWritten | LegacyBacktests.Backtester.constructor |
