/** bktest/backtest.py, `_Pod.order` and `_Pod._close_all`, stated on
    values: one pod executes a batch of orders against its ledger, then
    closes the symbols it held that no order of the batch touched.

    The batch is stated twice.  `AsWritten` follows the code line by line,
    including the holding lookup of its debug print (line 93), the call
    without a date in share mode (line 111) and the three count assertions
    (lines 122, 128, 130).  `Corrected` leaves those out; the classes of
    `Backtests` perform the corrected batch. */
module PodOrders {
  import opened Wrappers
  import opened Utils
  import opened Calendar
  import opened Orders
  import opened Fees
  import opened Ledgers
  import opened Sums

  /** An element of the result collection: an order's result or an
      auto-close's result. */
  datatype Item = Placed(placed: OrderResult) | Closed(closed: CloseResult)
  {
    predicate Success() {
      if Placed? then placed.success else closed.success
    }
  }

  /** OrderResultCollection: the results in order, and the auto-close
      counters, None unless auto-closing ran. */
  datatype Collection = Collection(elements: seq<Item>, closedCount: Option<int>, closedTotal: Option<int>)

  /** The two account operations the pod calls: `order_position` and
      `close_position` (the latter always with a symbol). */
  datatype Broker = Broker(orderPosition: (Ledger, Order, Date) -> Outcome<OrderResult>,
                           closePosition: (Ledger, string, Option<real>) -> Outcome<CloseResult>)

  /** The account's own operations under a fee model. */
  function AccountBroker(model: FeeModel): (k: Broker)
    ensures forall l, o, d :: k.orderPosition(l, o, d) == OrderPosition(model, l, o, d)
    ensures forall l, s, p :: k.closePosition(l, s, p) == ClosePosition(model, l, Some(s), p)
  {
    Broker((l, o, d) => OrderPosition(model, l, o, d), (l, s, p) => ClosePosition(model, l, Some(s), p))
  }

  /** What the batch relies on from the account: an order is answered for
      its own symbol, an unsuccessful one changes nothing, an order touches
      no other symbol's holding, and closing a held, non-blank symbol
      succeeds and removes exactly that holding. */
  ghost predicate Sound(k: Broker) {
    AnswersOwn(k) && TouchesOwn(k) && ClosesHeld(k)
  }

  /** An order is answered for its own symbol, and an unsuccessful one
      changes nothing. */
  ghost predicate AnswersOwn(k: Broker) {
    forall l, o, d :: k.orderPosition(l, o, d).result.Ok? ==>
      k.orderPosition(l, o, d).result.value.order.symbol == o.symbol &&
      (!k.orderPosition(l, o, d).result.value.success ==> k.orderPosition(l, o, d).ledger == l)
  }

  /** An order touches no other symbol's holding. */
  ghost predicate TouchesOwn(k: Broker) {
    forall l, o: Order, d :: o.symbol.Some? ==>
      k.orderPosition(l, o, d).ledger.positions.Keys - {o.symbol.value} == l.positions.Keys - {o.symbol.value}
  }

  /** Closing a held, non-blank symbol succeeds and removes exactly that
      holding. */
  ghost predicate ClosesHeld(k: Broker) {
    forall l: Ledger, s, p :: !IsBlank(Some(s)) && s in l.positions ==>
      k.closePosition(l, s, p).result.Ok? && k.closePosition(l, s, p).result.value.success &&
      !k.closePosition(l, s, p).result.value.missing &&
      k.closePosition(l, s, p).ledger.positions.Keys == l.positions.Keys - {s}
  }

  /** The account's operations are sound under every fee model. */
  lemma AccountBrokerSound(model: FeeModel)
    ensures Sound(AccountBroker(model))
  {
    var k := AccountBroker(model);
    forall l, o, d | k.orderPosition(l, o, d).result.Ok?
      ensures k.orderPosition(l, o, d).result.value.order.symbol == o.symbol
      ensures !k.orderPosition(l, o, d).result.value.success ==> k.orderPosition(l, o, d).ledger == l
    {
      OrderPositionSymbol(model, l, o, d);
      if !k.orderPosition(l, o, d).result.value.success {
        OrderPositionUnsuccessful(model, l, o, d);
      }
    }
    forall l, o: Order, d | o.symbol.Some?
      ensures k.orderPosition(l, o, d).ledger.positions.Keys - {o.symbol.value} == l.positions.Keys - {o.symbol.value}
    {
      var after := k.orderPosition(l, o, d).ledger.positions.Keys;
      forall s | s != o.symbol.value ensures s in after <==> s in l.positions {
        OrderPositionLocal(model, l, o, d, s);
      }
    }
    forall l: Ledger, s, p | !IsBlank(Some(s)) && s in l.positions
      ensures k.closePosition(l, s, p).result.Ok? && k.closePosition(l, s, p).result.value.success
      ensures !k.closePosition(l, s, p).result.value.missing
      ensures k.closePosition(l, s, p).ledger.positions.Keys == l.positions.Keys - {s}
    {
      CloseHeldRemoves(model, l, s, p);
    }
  }

  /** The pod's settings: `quantity_in_decimal`, `auto_close_others`, the
      price provider's `work_with_prices` and the account's operations. */
  datatype Config = Config(quantityInDecimal: bool, autoCloseOthers: bool, workWithPrices: bool, broker: Broker)

  datatype Version = AsWritten | Corrected

  /** The price provider's `get` at the price date, after the batch's
      symbols were downloaded. */
  type Quote = string -> Result<Option<real>>

  /** The loop's variables: the account, the results so far, `others`, and
      the counters `new_positions_in_account` and
      `number_of_orders_not_executed`. */
  datatype Batch = Batch(ledger: Ledger, results: seq<Item>, others: set<string>, newPositions: nat, notExecuted: nat)

  /** Where the loop stopped, and the exception that stopped it, if any. */
  datatype Run = Run(batch: Batch, failure: Option<Error>)

  const MissingDate: string := "Account.order_position() missing 1 required positional argument: 'date'"

  predicate Named(orders: seq<Order>) {
    forall i :: 0 <= i < |orders| ==> orders[i].symbol.Some?
  }

  /** The batch before its first order: `others` is the set of held symbols. */
  function Start(l: Ledger): (b: Batch)
    ensures b.ledger == l && b.results == [] && b.others == l.positions.Keys
    ensures b.newPositions == 0 && b.notExecuted == 0
  {
    Batch(l, [], l.positions.Keys, 0, 0)
  }

  /** `order.price or get(price_date, symbol)`: a zero or missing order price
      falls back to the provider. */
  function PriceOf(order: Order, quote: Quote): Result<Option<real>>
    requires order.symbol.Some?
  {
    if order.price.Some? && order.price.value != 0.0 then Ok(order.price) else quote(order.symbol.value)
  }

  /** What dividing by a zero price raises. */
  const DivisionByZero: string := "float division by zero"

  /** Percent mode's quantity: the share of the nav divided by the price,
      truncated toward zero when the provider works with prices. */
  function Sized(nav: real, percent: real, price: real, workWithPrices: bool): (r: Result<real>)
    ensures r.Err? <==> price == 0.0
    ensures r.Err? ==> r.error == ZeroDivisionError(DivisionByZero)
  {
    if price == 0.0 then Err(ZeroDivisionError(DivisionByZero))
    else if workWithPrices then Ok(Trunc(nav * percent / price) as real)
    else Ok(nav * percent / price)
  }

  /** In price mode what the quantity costs stays within one price of the
      cash value aimed at, and the quantity is whole; otherwise it costs
      exactly that value. */
  lemma SizedBounds(nav: real, percent: real, price: real, workWithPrices: bool)
    requires price != 0.0
    ensures var q := Sized(nav, percent, price, workWithPrices).value;
      (!workWithPrices ==> q * price == nav * percent) &&
      (workWithPrices ==> q == q.Floor as real) &&
      (workWithPrices && price > 0.0 && nav * percent >= 0.0 ==> q * price <= nav * percent < q * price + price)
  {
    var x := nav * percent / price;
    assert x * price == nav * percent;
    TruncScaled(x, price, nav * percent);
  }

  /** The truncated quotient, multiplied back, is within one price of the
      value it was computed from. */
  lemma TruncScaled(x: real, price: real, value: real)
    requires x * price == value
    ensures price > 0.0 && value >= 0.0 ==>
      (Trunc(x) as real) * price <= value < (Trunc(x) as real) * price + price
  {
    if price > 0.0 && value >= 0.0 {
      var q := Trunc(x) as real;
      assert x >= 0.0;
      var y := x - q;
      assert 0.0 <= y < 1.0;
      assert value == q * price + y * price;
      assert 0.0 <= y * price < price;
      assert value < q * price + price;
      assert q * price <= value;
    }
  }

  /** Placing one priced order with order_position and counting it.  In
      percent mode the code as written looks the symbol's holding up
      afterwards for its debug print (line 93). */
  function Place(v: Version, c: Config, b: Batch, symbol: string, placed: Order, priceDate: Date, percentMode: bool): Run {
    var o := c.broker.orderPosition(b.ledger, placed, priceDate);
    if o.result.Err? then Run(b.(ledger := o.ledger), Some(o.result.error))
    else if v.AsWritten? && percentMode && symbol !in o.ledger.positions then Run(b.(ledger := o.ledger), Some(KeyError(symbol)))
    else Run(Counted(b, symbol, o.ledger, o.result.value, percentMode), None)
  }

  /** The loop's bookkeeping after a placed order: the result is appended, a
      success takes the symbol out of `others`; percent mode also counts new
      positions (symbols not in `others`) and failures. */
  function Counted(b: Batch, symbol: string, l: Ledger, result: OrderResult, percentMode: bool): (r: Batch)
    ensures r.ledger == l && r.results == b.results + [Placed(result)]
    ensures r.others == if result.success then b.others - {symbol} else b.others
    ensures r.newPositions == b.newPositions + (if percentMode && symbol !in b.others then 1 else 0)
    ensures r.notExecuted == b.notExecuted + (if percentMode && !result.success then 1 else 0)
  {
    Batch(l, b.results + [Placed(result)],
          if result.success then b.others - {symbol} else b.others,
          b.newPositions + (if percentMode && symbol !in b.others then 1 else 0),
          b.notExecuted + (if percentMode && !result.success then 1 else 0))
  }

  /** What multiplying the net asset value by a None percent raises. */
  const FloatTimesNone: string := "unsupported operand type(s) for *: 'float' and 'NoneType'"

  /** One order of percent mode (lines 65-103). */
  function PercentStep(v: Version, c: Config, b: Batch, order: Order, nav: real, priceDate: Date, quote: Quote): Run
    requires order.symbol.Some?
  {
    var symbol := order.symbol.value;
    var price := PriceOf(order, quote);
    if price.Err? then Run(b, Some(price.error))
    else if order.quantity.None? then Run(b, Some(TypeError(FloatTimesNone)))
    else if price.value.None? then Run(b.(notExecuted := b.notExecuted + 1), None)
    else
      var percent := order.quantity.value;
      var p := price.value.value;
      var sized := Sized(nav, percent, p, c.workWithPrices);
      if sized.Err? then Run(b, Some(sized.error))
      else Place(v, c, b, symbol, Order(order.symbol, Some(sized.value), Some(p), nav * percent), priceDate, true)
  }

  /** Lines 83-88 as written: the sized order is built with a fourth
      argument, `nav * percent`, which the three-field Order does not
      take. */
  function PercentStepAsWritten(c: Config, b: Batch, order: Order, nav: real, priceDate: Date, quote: Quote): Run
    requires order.symbol.Some?
  {
    var price := PriceOf(order, quote);
    if price.Err? then Run(b, Some(price.error))
    else if order.quantity.None? then Run(b, Some(TypeError(FloatTimesNone)))
    else if price.value.None? then Run(b.(notExecuted := b.notExecuted + 1), None)
    else
      var percent := order.quantity.value;
      var p := price.value.value;
      var sized := Sized(nav, percent, p, c.workWithPrices);
      if sized.Err? then Run(b, Some(sized.error))
      else match OrderCall(order.symbol, Some(sized.value), Some(p), [nav * percent])
        case Err(e) => Run(b, Some(e))
        case Ok(o) => Place(AsWritten, c, b, order.symbol.value, o, priceDate, true)
  }

  /** As written, every percent order that finds a non-zero price raises
      TypeError before anything is placed; the other orders end as the
      step the rest of the model uses ends them. */
  lemma PercentOrderRaises(c: Config, b: Batch, order: Order, nav: real, priceDate: Date, quote: Quote)
    requires order.symbol.Some?
    ensures var p := PriceOf(order, quote);
      p.Ok? && p.value.Some? && p.value.value != 0.0 && order.quantity.Some? ==>
        PercentStepAsWritten(c, b, order, nav, priceDate, quote) == Run(b, Some(TypeError(TooManyArguments)))
    ensures var p := PriceOf(order, quote);
      !(p.Ok? && p.value.Some? && p.value.value != 0.0 && order.quantity.Some?) ==>
        PercentStepAsWritten(c, b, order, nav, priceDate, quote) == PercentStep(Corrected, c, b, order, nav, priceDate, quote)
  {
  }

  /** One order of share mode (lines 105-119).  As written, a priced order
      is placed without the date order_position requires. */
  function ShareStep(v: Version, c: Config, b: Batch, order: Order, priceDate: Date, quote: Quote): Run
    requires order.symbol.Some?
  {
    var price := PriceOf(order, quote);
    if price.Err? then Run(b, Some(price.error))
    else if price.value.None? then Run(b, None)
    else if v.AsWritten? then Run(b, Some(TypeError(MissingDate)))
    else Place(v, c, b, order.symbol.value, NewOrder(order.symbol, order.quantity, price.value), priceDate, false)
  }

  function Step(v: Version, c: Config, b: Batch, order: Order, nav: real, priceDate: Date, quote: Quote): Run
    requires order.symbol.Some?
  {
    if c.quantityInDecimal then PercentStep(v, c, b, order, nav, priceDate, quote)
    else ShareStep(v, c, b, order, priceDate, quote)
  }

  /** The order loop: the orders in turn, stopping at the first exception. */
  function Execute(v: Version, c: Config, b: Batch, orders: seq<Order>, nav: real, priceDate: Date, quote: Quote): Run
    requires Named(orders)
    decreases |orders|
  {
    if orders == [] then Run(b, None)
    else
      var run := Execute(v, c, b, orders[..|orders| - 1], nav, priceDate, quote);
      if run.failure.Some? then run
      else Step(v, c, run.batch, orders[|orders| - 1], nav, priceDate, quote)
  }

  /** `_close_all`'s variables: the account, the results, `closed` and
      `total`. */
  datatype Closing = Closing(ledger: Ledger, results: seq<Item>, closed: nat, total: nat)

  datatype CloseRun = CloseRun(closing: Closing, failure: Option<Error>)

  /** One symbol of `_close_all`: closed at the provider's price (the
      holding's last price when there is none); a missing holding is passed
      over, anything else is appended and counted. */
  function CloseOne(k: Broker, c: Closing, symbol: string, quote: Quote): CloseRun {
    var price := quote(symbol);
    if price.Err? then CloseRun(c, Some(price.error))
    else
      var o := k.closePosition(c.ledger, symbol, price.value);
      if o.result.Err? then CloseRun(c.(ledger := o.ledger), Some(o.result.error))
      else if o.result.value.missing then CloseRun(c.(ledger := o.ledger), None)
      else
        var result := o.result.value;
        CloseRun(Closing(o.ledger, c.results + [Closed(result)], c.closed + (if result.success then 1 else 0), c.total + 1), None)
  }

  /** `_close_all` over the symbols in the order they are iterated. */
  function CloseAll(k: Broker, c: Closing, symbols: seq<string>, quote: Quote): CloseRun
    decreases |symbols|
  {
    if symbols == [] then CloseRun(c, None)
    else
      var run := CloseAll(k, c, symbols[..|symbols| - 1], quote);
      if run.failure.Some? then run
      else CloseOne(k, run.closing, symbols[|symbols| - 1], quote)
  }

  /** The messages of the three count assertions. */
  const NotExecutedMismatch: string := "mismatch between symbols not executed"
  const AddedMismatch: string := "mismatch between symbols added"
  const ClosedMismatch: string := "mismatch between symbols closed"

  /** The last assertion (line 130), and the collection returned. */
  function Checked(v: Version, l: Ledger, count: nat, notExecuted: nat, results: Collection): Outcome<Collection> {
    if v.AsWritten? && |l.positions| != count - notExecuted then
      Outcome(l, Err(AssertionError(NotExecutedMismatch)))
    else Outcome(l, Ok(results))
  }

  /** Everything after the order loop (lines 121-132): the first
      assertion, auto-closing `others` in the order `closing` lists them,
      the second assertion, then the last. */
  function Finish(v: Version, c: Config, start: nat, count: nat, run: Run, quote: Quote, closing: seq<string>): Outcome<Collection> {
    if run.failure.Some? then Outcome(run.batch.ledger, Err(run.failure.value))
    else
      var b := run.batch;
      if v.AsWritten? && start + b.newPositions != |b.ledger.positions| then
        Outcome(b.ledger, Err(AssertionError(AddedMismatch)))
      else if c.autoCloseOthers then
        var closed := CloseAll(c.broker, Closing(b.ledger, b.results, 0, 0), closing, quote);
        var l := closed.closing.ledger;
        if closed.failure.Some? then Outcome(l, Err(closed.failure.value))
        else if v.AsWritten? && |l.positions| != start + b.newPositions - |b.others| then
          Outcome(l, Err(AssertionError(ClosedMismatch)))
        else Checked(v, l, count, b.notExecuted,
                     Collection(closed.closing.results, Some(closed.closing.closed), Some(closed.closing.total)))
      else Checked(v, b.ledger, count, b.notExecuted, Collection(b.results, None, None))
  }

  /** `_Pod.order` after the download: the nav is read once, before the
      loop, and `closing` is the order in which the set `others` is
      iterated. */
  ghost function PodOrder(v: Version, c: Config, l: Ledger, orders: seq<Order>, priceDate: Date, quote: Quote,
                          closing: seq<string>): Outcome<Collection>
    requires Named(orders)
  {
    Finish(v, c, |l.positions|, |orders|, Execute(v, c, Start(l), orders, Nav(l), priceDate, quote), quote, closing)
  }

  /** The batch is the loop followed by its finish; share mode may run the
      loop with any nav, percent mode needs the account's. */
  lemma PodOrderSettles(v: Version, c: Config, l: Ledger, orders: seq<Order>, nav: real, priceDate: Date, quote: Quote,
                        closing: seq<string>)
    requires Named(orders)
    requires c.quantityInDecimal ==> nav == Nav(l)
    ensures PodOrder(v, c, l, orders, priceDate, quote, closing) ==
      Finish(v, c, |l.positions|, |orders|, Execute(v, c, Start(l), orders, nav, priceDate, quote), quote, closing)
  {
    if !c.quantityInDecimal {
      ExecuteIgnoresNav(v, c, Start(l), orders, nav, Nav(l), priceDate, quote);
    }
  }

  /** The symbols a result reports a successful order for. */
  function Gained(x: Item): set<string> {
    if x.Placed? && x.placed.success && x.placed.order.symbol.Some? then {x.placed.order.symbol.value} else {}
  }

  /** The symbols ordered successfully, over a list of results. */
  function Succeeded(results: seq<Item>): set<string>
    decreases |results|
  {
    if results == [] then {}
    else Succeeded(results[..|results| - 1]) + Gained(results[|results| - 1])
  }

  /** The number of successful results. */
  function SuccessCount(results: seq<Item>): nat
    decreases |results|
  {
    if results == [] then 0
    else SuccessCount(results[..|results| - 1]) + (if results[|results| - 1].Success() then 1 else 0)
  }

  lemma Appended(results: seq<Item>, x: Item)
    ensures Succeeded(results + [x]) == Succeeded(results) + Gained(x)
    ensures SuccessCount(results + [x]) == SuccessCount(results) + (if x.Success() then 1 else 0)
  {
    assert (results + [x])[..|results|] == results;
  }

  /** What the order loop keeps true, `init` being the symbols held before
      it: `others` is what was held and has not been ordered successfully;
      every symbol of `others` is still held; every held symbol is in
      `others` or was ordered successfully. */
  ghost predicate Tracked(b: Batch, init: set<string>) {
    b.others == init - Succeeded(b.results) &&
    b.others <= b.ledger.positions.Keys &&
    b.ledger.positions.Keys <= b.others + Succeeded(b.results)
  }

  /** Placing one order keeps the loop's invariant. */
  lemma PlaceTracked(v: Version, c: Config, b: Batch, init: set<string>, symbol: string, placed: Order, date: Date, percentMode: bool)
    requires Sound(c.broker) && Tracked(b, init) && placed.symbol == Some(symbol)
    requires Place(v, c, b, symbol, placed, date, percentMode).failure.None?
    ensures Tracked(Place(v, c, b, symbol, placed, date, percentMode).batch, init)
  {
    var o := c.broker.orderPosition(b.ledger, placed, date);
    var b' := Counted(b, symbol, o.ledger, o.result.value, percentMode);
    assert o.result.value.order.symbol == Some(symbol);
    Appended(b.results, Placed(o.result.value));
    if o.result.value.success {
      assert Succeeded(b'.results) == Succeeded(b.results) + {symbol};
      var held := o.ledger.positions.Keys;
      assert held - {symbol} == b.ledger.positions.Keys - {symbol};
      forall s | s in b'.others ensures s in held {
        assert s in b.ledger.positions.Keys - {symbol};
      }
      forall s | s in held ensures s in b'.others + Succeeded(b'.results) {
        if s != symbol {
          assert s in b.ledger.positions.Keys - {symbol};
        }
      }
    }
  }

  /** The order a priced step places: in percent mode the sized quantity
      at the price found, with the share of the nav as its value; in share
      mode the order's own quantity at that price. */
  function PlacedOrder(c: Config, order: Order, nav: real, price: real): Order
    requires order.symbol.Some?
    requires c.quantityInDecimal ==> order.quantity.Some? && price != 0.0
  {
    if c.quantityInDecimal then
      Order(order.symbol, Some(Sized(nav, order.quantity.value, price, c.workWithPrices).value), Some(price), nav * order.quantity.value)
    else NewOrder(order.symbol, order.quantity, Some(price))
  }

  /** A step that finds a price and raises nothing before order_position
      places `PlacedOrder`; one that finds no price places nothing. */
  lemma StepPlaces(v: Version, c: Config, b: Batch, order: Order, nav: real, priceDate: Date, quote: Quote)
    requires order.symbol.Some?
    requires Step(v, c, b, order, nav, priceDate, quote).failure.None?
    ensures PriceOf(order, quote).Ok?
    ensures c.quantityInDecimal ==> order.quantity.Some?
    ensures var price := PriceOf(order, quote).value;
      var r := Step(v, c, b, order, nav, priceDate, quote);
      (price.None? ==> r.batch == if c.quantityInDecimal then b.(notExecuted := b.notExecuted + 1) else b) &&
      (price.Some? ==> (c.quantityInDecimal ==> price.value != 0.0) &&
                       r == Place(v, c, b, order.symbol.value, PlacedOrder(c, order, nav, price.value), priceDate, c.quantityInDecimal))
  {
  }

  /** A priced order (at a non-zero price in percent mode) is placed as
      `PlacedOrder`, but for share mode as written, which raises first. */
  lemma StepPriced(v: Version, c: Config, b: Batch, order: Order, nav: real, priceDate: Date, quote: Quote)
    requires order.symbol.Some?
    requires PriceOf(order, quote).Ok? && PriceOf(order, quote).value.Some?
    requires c.quantityInDecimal ==> order.quantity.Some? && PriceOf(order, quote).value.value != 0.0
    ensures var price := PriceOf(order, quote).value.value;
      Step(v, c, b, order, nav, priceDate, quote) ==
        if v.AsWritten? && !c.quantityInDecimal then Run(b, Some(TypeError(MissingDate)))
        else Place(v, c, b, order.symbol.value, PlacedOrder(c, order, nav, price), priceDate, c.quantityInDecimal)
  {
  }

  lemma StepTracked(v: Version, c: Config, b: Batch, init: set<string>, order: Order, nav: real, priceDate: Date, quote: Quote)
    requires Sound(c.broker) && Tracked(b, init) && order.symbol.Some?
    requires Step(v, c, b, order, nav, priceDate, quote).failure.None?
    ensures Tracked(Step(v, c, b, order, nav, priceDate, quote).batch, init)
  {
    StepPlaces(v, c, b, order, nav, priceDate, quote);
    var price := PriceOf(order, quote).value;
    if price.Some? {
      PlaceTracked(v, c, b, init, order.symbol.value, PlacedOrder(c, order, nav, price.value), priceDate, c.quantityInDecimal);
    }
  }

  /** The invariant holds through the whole order loop. */
  lemma {:induction false} ExecuteTracked(v: Version, c: Config, b: Batch, init: set<string>, orders: seq<Order>, nav: real,
                                          priceDate: Date, quote: Quote)
    requires Sound(c.broker) && Named(orders) && Tracked(b, init)
    requires Execute(v, c, b, orders, nav, priceDate, quote).failure.None?
    ensures Tracked(Execute(v, c, b, orders, nav, priceDate, quote).batch, init)
    decreases |orders|
  {
    if orders != [] {
      var prefix := orders[..|orders| - 1];
      ExecuteTracked(v, c, b, init, prefix, nav, priceDate, quote);
      StepTracked(v, c, Execute(v, c, b, prefix, nav, priceDate, quote).batch, init, orders[|orders| - 1], nav, priceDate, quote);
    }
  }

  /** In percent mode every order is either executed successfully or
      counted as not executed. */
  lemma {:induction false} ExecuteCounts(v: Version, c: Config, b: Batch, orders: seq<Order>, nav: real, priceDate: Date, quote: Quote)
    requires Named(orders) && c.quantityInDecimal
    requires Execute(v, c, b, orders, nav, priceDate, quote).failure.None?
    ensures var r := Execute(v, c, b, orders, nav, priceDate, quote).batch;
      r.notExecuted + SuccessCount(r.results) == b.notExecuted + SuccessCount(b.results) + |orders|
    decreases |orders|
  {
    if orders != [] {
      var prefix := orders[..|orders| - 1];
      ExecuteCounts(v, c, b, prefix, nav, priceDate, quote);
      var before := Execute(v, c, b, prefix, nav, priceDate, quote).batch;
      var order := orders[|orders| - 1];
      StepPlaces(v, c, before, order, nav, priceDate, quote);
      var price := PriceOf(order, quote).value;
      if price.Some? {
        var placed := PlacedOrder(c, order, nav, price.value);
        Appended(before.results, Placed(c.broker.orderPosition(before.ledger, placed, priceDate).result.value));
      }
    }
  }

  /** `_close_all` appends one closing result per symbol it did not find
      missing: `closed_total` counts them and `closed_count` counts the
      successful ones; no order result is added. */
  lemma {:induction false} CloseAllCounts(k: Broker, c: Closing, symbols: seq<string>, quote: Quote)
    requires CloseAll(k, c, symbols, quote).failure.None?
    ensures var r := CloseAll(k, c, symbols, quote).closing;
      |c.results| <= |r.results| && r.results[..|c.results|] == c.results &&
      r.total - c.total == |r.results| - |c.results| &&
      r.closed - c.closed == SuccessCount(r.results) - SuccessCount(c.results) &&
      Succeeded(r.results) == Succeeded(c.results)
    decreases |symbols|
  {
    if symbols != [] {
      var prefix := symbols[..|symbols| - 1];
      CloseAllCounts(k, c, prefix, quote);
      var before := CloseAll(k, c, prefix, quote).closing;
      var price := quote(symbols[|symbols| - 1]);
      var o := k.closePosition(before.ledger, symbols[|symbols| - 1], price.value);
      if !o.result.value.missing {
        Appended(before.results, Closed(o.result.value));
        assert (before.results + [Closed(o.result.value)])[..|c.results|] == before.results[..|c.results|];
      }
    }
  }

  /** Closing distinct held symbols with non-blank names removes exactly
      those symbols, each closing counted as a success. */
  lemma {:induction false} CloseAllEmpties(k: Broker, c: Closing, symbols: seq<string>, quote: Quote)
    requires ClosesHeld(k)
    requires forall i, j :: 0 <= i < j < |symbols| ==> symbols[i] != symbols[j]
    requires forall i :: 0 <= i < |symbols| ==> symbols[i] in c.ledger.positions && !IsBlank(Some(symbols[i]))
    requires CloseAll(k, c, symbols, quote).failure.None?
    ensures var r := CloseAll(k, c, symbols, quote).closing;
      r.ledger.positions.Keys == c.ledger.positions.Keys - (set s | s in symbols) &&
      r.closed == c.closed + |symbols| && r.total == c.total + |symbols|
    decreases |symbols|
  {
    if symbols != [] {
      var prefix := symbols[..|symbols| - 1];
      var last := symbols[|symbols| - 1];
      assert symbols == prefix + [last];
      assert CloseAll(k, c, prefix, quote).failure.None?;
      assert forall i :: 0 <= i < |prefix| ==> prefix[i] == symbols[i];
      CloseAllEmpties(k, c, prefix, quote);
      var before := CloseAll(k, c, prefix, quote).closing;
      CloseAllSnoc(k, c, prefix, last, quote);
      assert last !in (set s | s in prefix);
      assert last in before.ledger.positions;
      CloseOneEmpties(k, before, last, quote);
      ElementsSnoc(prefix, last);
      RemoveOneMore(c.ledger.positions.Keys, (set s | s in prefix), last);
    }
  }

  /** The symbols of a list are those before its last one, and that one. */
  lemma ElementsSnoc(prefix: seq<string>, last: string)
    ensures (set s | s in prefix + [last]) == (set s | s in prefix) + {last}
  {
  }

  lemma RemoveOneMore(a: set<string>, b: set<string>, x: string)
    ensures (a - b) - {x} == a - (b + {x})
  {
  }

  /** Closing one held, non-blank symbol removes exactly its holding and
      counts it, as closed, among the results. */
  lemma CloseOneEmpties(k: Broker, c: Closing, symbol: string, quote: Quote)
    requires ClosesHeld(k) && symbol in c.ledger.positions && !IsBlank(Some(symbol))
    requires CloseOne(k, c, symbol, quote).failure.None?
    ensures var r := CloseOne(k, c, symbol, quote).closing;
      r.ledger.positions.Keys == c.ledger.positions.Keys - {symbol} && r.closed == c.closed + 1 && r.total == c.total + 1
  {
  }

  /** An exception ends the order loop: the orders after it change
      nothing. */
  lemma {:induction false} ExecuteStops(v: Version, c: Config, b: Batch, orders: seq<Order>, n: nat, nav: real,
                                        priceDate: Date, quote: Quote)
    requires Named(orders) && n <= |orders|
    requires Execute(v, c, b, orders[..n], nav, priceDate, quote).failure.Some?
    ensures Execute(v, c, b, orders, nav, priceDate, quote) == Execute(v, c, b, orders[..n], nav, priceDate, quote)
    decreases |orders| - n
  {
    if n < |orders| {
      var prefix := orders[..|orders| - 1];
      assert prefix[..n] == orders[..n];
      ExecuteStops(v, c, b, prefix, n, nav, priceDate, quote);
    } else {
      assert orders[..n] == orders;
    }
  }

  /** Share mode never reads the nav. */
  lemma {:induction false} ExecuteIgnoresNav(v: Version, c: Config, b: Batch, orders: seq<Order>, nav: real, nav': real,
                                             priceDate: Date, quote: Quote)
    requires Named(orders) && !c.quantityInDecimal
    ensures Execute(v, c, b, orders, nav, priceDate, quote) == Execute(v, c, b, orders, nav', priceDate, quote)
    decreases |orders|
  {
    if orders != [] {
      ExecuteIgnoresNav(v, c, b, orders[..|orders| - 1], nav, nav', priceDate, quote);
    }
  }

  /** `_close_all` over one more symbol, after no exception. */
  lemma CloseAllSnoc(k: Broker, c: Closing, done: seq<string>, symbol: string, quote: Quote)
    requires CloseAll(k, c, done, quote).failure.None?
    ensures CloseAll(k, c, done + [symbol], quote) == CloseOne(k, CloseAll(k, c, done, quote).closing, symbol, quote)
  {
    assert (done + [symbol])[..|done|] == done;
  }

  /** An exception ends `_close_all`: the symbols after it are not
      closed. */
  lemma {:induction false} CloseAllStops(k: Broker, c: Closing, symbols: seq<string>, n: nat, quote: Quote)
    requires n <= |symbols|
    requires CloseAll(k, c, symbols[..n], quote).failure.Some?
    ensures CloseAll(k, c, symbols, quote) == CloseAll(k, c, symbols[..n], quote)
    decreases |symbols| - n
  {
    if n < |symbols| {
      var prefix := symbols[..|symbols| - 1];
      assert prefix[..n] == symbols[..n];
      CloseAllStops(k, c, prefix, n, quote);
    } else {
      assert symbols[..n] == symbols;
    }
  }

  /** After a loop that raised nothing, the corrected finish returns the
      loop's results, or those of auto-closing `others` when it is on. */
  lemma FinishCorrected(c: Config, start: nat, count: nat, run: Run, quote: Quote, closing: seq<string>)
    requires run.failure.None?
    requires Finish(Corrected, c, start, count, run, quote, closing).result.Ok?
    ensures var o := Finish(Corrected, c, start, count, run, quote, closing);
      var closed := CloseAll(c.broker, Closing(run.batch.ledger, run.batch.results, 0, 0), closing, quote);
      (c.autoCloseOthers ==> closed.failure.None? && o.ledger == closed.closing.ledger &&
                             o.result.value == Collection(closed.closing.results, Some(closed.closing.closed), Some(closed.closing.total))) &&
      (!c.autoCloseOthers ==> o.ledger == run.batch.ledger && o.result.value == Collection(run.batch.results, None, None))
  {
  }

  /** Auto-closing `others` after a loop that kept its invariant leaves
      held only symbols ordered successfully. */
  lemma CloseOthers(k: Broker, b: Batch, init: set<string>, closing: seq<string>, quote: Quote)
    requires ClosesHeld(k) && Tracked(b, init)
    requires forall s :: s in init ==> !IsBlank(Some(s))
    requires IsEnumeration(closing, b.others)
    requires CloseAll(k, Closing(b.ledger, b.results, 0, 0), closing, quote).failure.None?
    ensures var r := CloseAll(k, Closing(b.ledger, b.results, 0, 0), closing, quote).closing;
      r.ledger.positions.Keys <= Succeeded(r.results)
  {
    var start := Closing(b.ledger, b.results, 0, 0);
    EnumerationDistinct(closing, b.others);
    OthersHeld(b, init, closing);
    CloseAllEmpties(k, start, closing, quote);
    CloseAllCounts(k, start, closing, quote);
    var r := CloseAll(k, start, closing, quote).closing;
    assert r.ledger.positions.Keys == b.ledger.positions.Keys - b.others;
    RemoveCovered(b.ledger.positions.Keys, b.others, Succeeded(b.results));
  }

  /** The symbols the batch auto-closes are held, and named. */
  lemma OthersHeld(b: Batch, init: set<string>, closing: seq<string>)
    requires Tracked(b, init) && IsEnumeration(closing, b.others)
    requires forall s :: s in init ==> !IsBlank(Some(s))
    ensures forall i :: 0 <= i < |closing| ==> closing[i] in b.ledger.positions && !IsBlank(Some(closing[i]))
    ensures (set s | s in closing) == b.others
  {
    forall i | 0 <= i < |closing|
      ensures closing[i] in b.ledger.positions && !IsBlank(Some(closing[i]))
    {
      assert closing[i] in closing;
      assert closing[i] in b.others;
    }
  }

  lemma RemoveCovered(a: set<string>, b: set<string>, c: set<string>)
    requires a <= b + c
    ensures a - b <= c
  {
  }

  /** The corrected batch leaves the account holding what was asked: with
      auto-closing, nothing but symbols ordered successfully in the batch;
      without it, every symbol held before stays held unless the batch
      ordered it successfully.  (Held symbols are non-blank: holdings come
      from valid orders.) */
  lemma CorrectedHoldings(c: Config, l: Ledger, orders: seq<Order>, priceDate: Date, quote: Quote, closing: seq<string>)
    requires Sound(c.broker) && Named(orders)
    requires forall s :: s in l.positions ==> !IsBlank(Some(s))
    requires IsEnumeration(closing, Execute(Corrected, c, Start(l), orders, Nav(l), priceDate, quote).batch.others)
    requires PodOrder(Corrected, c, l, orders, priceDate, quote, closing).result.Ok?
    ensures var o := PodOrder(Corrected, c, l, orders, priceDate, quote, closing);
      (c.autoCloseOthers ==> o.ledger.positions.Keys <= Succeeded(o.result.value.elements)) &&
      (!c.autoCloseOthers ==> l.positions.Keys - Succeeded(o.result.value.elements) <= o.ledger.positions.Keys)
  {
    var run := Execute(Corrected, c, Start(l), orders, Nav(l), priceDate, quote);
    assert run.failure.None?;
    assert Succeeded([]) == {};
    ExecuteTracked(Corrected, c, Start(l), l.positions.Keys, orders, Nav(l), priceDate, quote);
    FinishCorrected(c, |l.positions|, |orders|, run, quote, closing);
    if c.autoCloseOthers {
      CloseOthers(c.broker, run.batch, l.positions.Keys, closing, quote);
    }
  }

  /** Share mode as written: the only batches that get through are those in
      which no order found a price, and they change nothing. */
  lemma {:induction false} ShareModeAsWritten(c: Config, b: Batch, orders: seq<Order>, nav: real, priceDate: Date, quote: Quote)
    requires Named(orders) && !c.quantityInDecimal
    requires Execute(AsWritten, c, b, orders, nav, priceDate, quote).failure.None?
    ensures forall i :: 0 <= i < |orders| ==> PriceOf(orders[i], quote) == Ok(None)
    ensures Execute(AsWritten, c, b, orders, nav, priceDate, quote).batch == b
    decreases |orders|
  {
    if orders != [] {
      var prefix := orders[..|orders| - 1];
      ShareModeAsWritten(c, b, prefix, nav, priceDate, quote);
      forall i | 0 <= i < |orders| ensures PriceOf(orders[i], quote) == Ok(None) {
        if i < |orders| - 1 {
          assert orders[i] == prefix[i];
        }
      }
    }
  }

  /** Share mode corrected: an order that goes through reaches its target
      quantity, or leaves the symbol unheld when the target is negligible. */
  lemma ShareOrderReachesTarget(model: FeeModel, c: Config, b: Batch, order: Order, nav: real, priceDate: Date, quote: Quote)
    requires c.broker == AccountBroker(model)
    requires !c.quantityInDecimal && order.symbol.Some? && !IsBlank(order.symbol) && order.quantity.Some?
    requires Keyed(b.ledger.positions)
    requires PriceOf(order, quote).Ok? && PriceOf(order, quote).value.Some? && PriceOf(order, quote).value.value > 0.0
    requires Step(Corrected, c, b, order, nav, priceDate, quote).failure.None?
    ensures var r := Step(Corrected, c, b, order, nav, priceDate, quote).batch;
      var sym := order.symbol.value;
      |r.results| == |b.results| + 1 && r.results[|b.results|].Success() &&
      (sym in r.ledger.positions ==> Abs(r.ledger.positions[sym].quantity - order.quantity.value) < Epsilon) &&
      (sym !in r.ledger.positions ==> Abs(order.quantity.value) < Epsilon)
  {
    var placed := NewOrder(order.symbol, order.quantity, PriceOf(order, quote).value);
    OrderPositionReachesTarget(model, b.ledger, placed, priceDate);
  }

  /** Line 93 as written: a percent order with a zero target for a held,
      priced symbol sells the holding off, and the debug print's lookup of
      that holding then raises KeyError.  The corrected step counts the
      order as a success and the symbol is no longer held. */
  lemma ZeroTargetLookup(model: FeeModel, c: Config, b: Batch, order: Order, nav: real, priceDate: Date, quote: Quote)
    requires c.broker == AccountBroker(model) && c.quantityInDecimal
    requires order.symbol.Some? && !IsBlank(order.symbol) && order.quantity == Some(0.0)
    requires PriceOf(order, quote).Ok? && PriceOf(order, quote).value.Some? && PriceOf(order, quote).value.value > 0.0
    requires order.symbol.value in b.ledger.positions
    requires b.ledger.positions[order.symbol.value].lastDateUpdated == Some(priceDate)
    requires Abs(b.ledger.positions[order.symbol.value].quantity) >= Epsilon
    ensures Step(AsWritten, c, b, order, nav, priceDate, quote).failure == Some(KeyError(order.symbol.value))
    ensures var r := Step(Corrected, c, b, order, nav, priceDate, quote);
      r.failure.None? && r.batch.ledger.positions == b.ledger.positions - {order.symbol.value} &&
      |r.batch.results| == |b.results| + 1 && r.batch.results[|b.results|].Success()
  {
    var sym := order.symbol.value;
    var p := PriceOf(order, quote).value.value;
    var h := b.ledger.positions[sym];
    assert Sized(nav, 0.0, p, c.workWithPrices) == Ok(0.0);
    var placed := PlacedOrder(c, order, nav, p);
    assert placed == Order(order.symbol, Some(0.0), Some(p), 0.0);
    var relative := Order(order.symbol, Some(-h.quantity), Some(p), -h.value);
    assert ToRelativeOrder(b.ledger, placed, priceDate) == Ok(relative);
    assert IsValid(relative) == Ok(true);
    PlaceOrderExecutes(model, b.ledger, relative, priceDate);
    var o := OrderPosition(model, b.ledger, placed, priceDate);
    assert o.result.Ok? && o.result.value.success && o.ledger.positions == b.ledger.positions - {sym};
    assert Step(AsWritten, c, b, order, nav, priceDate, quote) == Run(b.(ledger := o.ledger), Some(KeyError(sym)));
    assert Step(Corrected, c, b, order, nav, priceDate, quote) == Run(Counted(b, sym, o.ledger, o.result.value, true), None);
  }

  /** Lines 122-130 as written: without auto-closing, a symbol held before
      the batch and not ordered in it stays held, so the last assertion,
      that the account holds one symbol per executed order, fails as soon
      as anything was held before.  One order for a new symbol shows it:
      as written the batch raises AssertionError; corrected, it returns and
      the account holds the old symbols and the new one. */
  lemma UnclosedOthersFailCheck(model: FeeModel, c: Config, l: Ledger, order: Order, priceDate: Date, quote: Quote,
                                closing: seq<string>)
    requires c.broker == AccountBroker(model) && c.quantityInDecimal && !c.autoCloseOthers
    requires order.symbol.Some? && !IsBlank(order.symbol) && order.quantity.Some?
    requires order.symbol.value !in l.positions && |l.positions| > 0
    requires PriceOf(order, quote).Ok? && PriceOf(order, quote).value.Some? && PriceOf(order, quote).value.value > 0.0
    requires Abs(Sized(Nav(l), order.quantity.value, PriceOf(order, quote).value.value, c.workWithPrices).value) >= Epsilon
    ensures PodOrder(AsWritten, c, l, [order], priceDate, quote, closing).result ==
            Err(AssertionError(NotExecutedMismatch))
    ensures var o := PodOrder(Corrected, c, l, [order], priceDate, quote, closing);
      o.result.Ok? && o.ledger.positions.Keys == l.positions.Keys + {order.symbol.value}
  {
    var sym := order.symbol.value;
    var p := PriceOf(order, quote).value.value;
    var placed := PlacedOrder(c, order, Nav(l), p);
    assert ToRelativeOrder(l, placed, priceDate) == Ok(placed);
    PlaceOrderOnUnheld(model, l, placed, priceDate);
    var o := OrderPosition(model, l, placed, priceDate);
    OrderPositionSymbol(model, l, placed, priceDate);
    assert o.result.Ok? && o.result.value.success && sym in o.ledger.positions;
    assert |o.ledger.positions| == |l.positions| + 1;
    assert [order][..0] == [];
    forall v: Version
      ensures Execute(v, c, Start(l), [order], Nav(l), priceDate, quote) ==
              Run(Counted(Start(l), sym, o.ledger, o.result.value, true), None)
    {
      assert Execute(v, c, Start(l), [order], Nav(l), priceDate, quote) == Step(v, c, Start(l), order, Nav(l), priceDate, quote);
    }
  }
}
