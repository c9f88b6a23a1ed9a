/** backtest/backtest.py, `_MassOrderResult` and `Backtester.order`, stated
    on values: the rows of a day's orders table placed one after the other
    on the older account, then the held symbols that no row touched
    successfully sold off.  The account's operations are those of
    `LegacyLedgers`: the code calls `account.order(...)` and
    `account[symbol]`, which backtest/account.py does not define, and they
    are read as `place_order` and `find_holding`. */
module LegacyBatches {
  import opened Wrappers
  import opened Utils
  import opened Fees
  import opened LegacyOrders
  import opened LegacyHoldings
  import opened LegacyLedgers
  import PodOrders

  /** A row of the orders table: its symbol, and its quantity column (a
      share of the equity in percent mode, a number of shares otherwise). */
  datatype Row = Row(symbol: string, quantity: real)

  /** price_provider.get at a fixed date; None stands for NaN. */
  type Quote = string -> Result<Option<real>>

  /** `price and not numpy.isnan(price)`: a price that is there and not zero. */
  predicate Tradable(price: Option<real>) {
    price.Some? && price.value != 0.0
  }

  /** _MassOrderResult.total_fees: the fees summed from 0.0, in order. */
  function TotalFees(results: seq<OrderResult>): real
    decreases |results|
  {
    if results == [] then 0.0 else TotalFees(results[..|results| - 1]) + results[|results| - 1].fee
  }

  /** `_count_by_success(value)`: how many results have that success flag. */
  function Count(results: seq<OrderResult>, success: bool): (r: nat)
    ensures r <= |results|
    decreases |results|
  {
    if results == [] then 0
    else Count(results[..|results| - 1], success) + (if results[|results| - 1].success == success then 1 else 0)
  }

  /** success_count and failed_count share out the results. */
  lemma {:induction false} CountsAddUp(results: seq<OrderResult>)
    ensures Count(results, true) + Count(results, false) == |results|
    decreases |results|
  {
    if results != [] {
      CountsAddUp(results[..|results| - 1]);
    }
  }

  /** No fee is negative, so neither is their total, and each fee is at
      most the total. */
  lemma {:induction false} TotalFeesBound(results: seq<OrderResult>)
    requires forall i :: 0 <= i < |results| ==> results[i].fee >= 0.0
    ensures TotalFees(results) >= 0.0
    ensures forall i :: 0 <= i < |results| ==> results[i].fee <= TotalFees(results)
    decreases |results|
  {
    if results != [] {
      var init := results[..|results| - 1];
      TotalFeesBound(init);
      forall i | 0 <= i < |results| ensures results[i].fee <= TotalFees(results) {
        if i < |init| {
          assert results[i] == init[i];
        }
      }
    }
  }

  /** The loop's variables: the account, `mass_result`'s list and `others`. */
  datatype Mass = Mass(ledger: Ledger, results: seq<OrderResult>, others: set<string>)

  /** Where a loop stopped, and the exception that stopped it, if any. */
  datatype Run = Run(mass: Mass, failure: Option<Error>)

  /** The code as written, and with its warnings naming nothing undefined. */
  datatype Version = AsWritten | Corrected

  const NoPercent: string := "name 'percent' is not defined"

  /** Before the first row: no results, `others` is the held symbols. */
  function Start(l: Ledger): (m: Mass)
    ensures m.ledger == l && m.results == [] && m.others == l.positions.Keys
  {
    Mass(l, [], l.positions.Keys)
  }

  /** The quantity ordered for a row at a tradable price: the share of the
      equity divided by the price in percent mode, the row's quantity
      otherwise, both truncated toward zero. */
  function OrderedQuantity(percentMode: bool, equity: real, row: Row, price: real): real
    requires price != 0.0
  {
    if percentMode then Shares(Portion(equity, row), price) as real else Trunc(row.quantity) as real
  }

  /** `holding_cash_value`: the row's share of the equity. */
  function Portion(equity: real, row: Row): real {
    equity * row.quantity
  }

  /** `int(holding_cash_value / price)` */
  function Shares(value: real, price: real): int
    requires price != 0.0
  {
    Trunc(value / price)
  }

  /** One row (lines 92-111 in percent mode, 113-127 otherwise): with a
      tradable price the order is placed and recorded, a success taking the
      symbol out of `others`; without one nothing happens.  A failure is
      only warned about, but in share mode the warning names `percent`,
      which that branch never assigns. */
  function Step(v: Version, model: FeeModel, percentMode: bool, equity: real, m: Mass, row: Row, quote: Quote): Run {
    var price := quote(row.symbol);
    if price.Err? then Run(m, Some(price.error))
    else if !Tradable(price.value) then Run(m, None)
    else
      var p := price.value.value;
      Placed(v, percentMode, m, row.symbol,
             PlaceOrder(model, m.ledger, Order(Some(row.symbol), Some(OrderedQuantity(percentMode, equity, row, p)), Some(p))))
  }

  /** Where the order of a row leaves the batch: the ledger after it, its
      result appended, and its symbol out of `others` when it succeeded. */
  function Placed(v: Version, percentMode: bool, m: Mass, symbol: string, o: Outcome<OrderResult>): Run {
    if o.result.Err? then Run(m.(ledger := o.ledger), Some(o.result.error))
    else
      var r := o.result.value;
      var m' := Mass(o.ledger, m.results + [r], if r.success then m.others - {symbol} else m.others);
      if v.AsWritten? && !percentMode && !r.success then Run(m', Some(NameError(NoPercent)))
      else Run(m', None)
  }

  /** The rows in order; an exception stops the loop. */
  function Execute(v: Version, model: FeeModel, percentMode: bool, equity: real, m: Mass, rows: seq<Row>, quote: Quote): Run
    decreases |rows|
  {
    if rows == [] then Run(m, None)
    else
      var before := Execute(v, model, percentMode, equity, m, rows[..|rows| - 1], quote);
      if before.failure.Some? then before
      else Step(v, model, percentMode, equity, before.mass, rows[|rows| - 1], quote)
  }

  /** The price the auto-close sells at: the quote, or the holding's last
      price when the quote is missing or zero. */
  function ClosePrice(quoted: Option<real>, last: real): (p: real)
    ensures Tradable(quoted) ==> p == quoted.value
    ensures !Tradable(quoted) ==> p == last
  {
    if Tradable(quoted) then quoted.value else last
  }

  /** One symbol of the auto-close (lines 132-149): an unheld symbol is
      passed over; a held one is sold off at the order date's price or its
      last price.  A failure is only warned about, but the warning names
      `percent`, which is unassigned unless a percent-mode row was read
      (`percentKnown`). */
  function CloseOne(v: Version, model: FeeModel, percentKnown: bool, m: Mass, symbol: string, quote: Quote): Run {
    if symbol !in m.ledger.positions then Run(m, None)
    else
      var h := m.ledger.positions[symbol];
      var price := quote(symbol);
      if price.Err? then Run(m, Some(price.error))
      else
        var o := PlaceOrder(model, m.ledger, Order(Some(symbol), Some(-h.quantity), Some(ClosePrice(price.value, h.price))));
        if o.result.Err? then Run(m.(ledger := o.ledger), Some(o.result.error))
        else
          var m' := m.(ledger := o.ledger, results := m.results + [o.result.value]);
          if v.AsWritten? && !percentKnown && !o.result.value.success then Run(m', Some(NameError(NoPercent)))
          else Run(m', None)
  }

  /** The symbols of `others` in the order the set is iterated. */
  function CloseAll(v: Version, model: FeeModel, percentKnown: bool, m: Mass, symbols: seq<string>, quote: Quote): Run
    decreases |symbols|
  {
    if symbols == [] then Run(m, None)
    else
      var before := CloseAll(v, model, percentKnown, m, symbols[..|symbols| - 1], quote);
      if before.failure.Some? then before
      else CloseOne(v, model, percentKnown, before.mass, symbols[|symbols| - 1], quote)
  }

  /** Backtester.order after the download: the rows at the price date's
      quotes (`atPrice`), sized against the equity read before the loop,
      then, when auto-closing and something is left in `others`, those
      symbols in the order `closing` lists them, at the order date's quotes
      (`atDate`). */
  function MassOrder(v: Version, model: FeeModel, percentMode: bool, autoClose: bool, l: Ledger, equity: real,
                     rows: seq<Row>, atPrice: Quote, atDate: Quote, closing: seq<string>): Run
  {
    var run := Execute(v, model, percentMode, equity, Start(l), rows, atPrice);
    if run.failure.Some? || !autoClose || run.mass.others == {} then run
    else CloseAll(v, model, percentMode && |rows| > 0, run.mass, closing, atDate)
  }

  // ---------------------------------------------------------------------
  // What an order does to the ledger

  /** Every held symbol is a non-blank string. */
  predicate NonBlank(positions: map<string, Position>) {
    forall s :: s in positions ==> !IsBlank(Some(s))
  }

  /** The account's invariants: holdings filed under their own non-blank
      symbol, none at zero. */
  predicate Sound(l: Ledger) {
    Keyed(l.positions) && NoneEmpty(l.positions) && NonBlank(l.positions)
  }

  /** A priced order for a named symbol: it never raises, it succeeds
      exactly when the symbol is not blank and the price positive, a
      failure changes nothing, and a success touches no other symbol. */
  lemma PlacePriced(model: FeeModel, l: Ledger, sym: string, q: real, p: real)
    ensures var o := PlaceOrder(model, l, Order(Some(sym), Some(q), Some(p)));
      o.result.Ok? && o.result.value.order == Order(Some(sym), Some(q), Some(p)) &&
      (o.result.value.success <==> !IsBlank(Some(sym)) && p > 0.0) &&
      (!o.result.value.success ==> o.ledger == l) &&
      o.ledger.positions - {sym} == l.positions - {sym}
  {
    var order := Order(Some(sym), Some(q), Some(p));
    if IsValid(order) == Ok(true) && q != 0.0 {
      PlaceOrderCashFlow(model, l, order);
    }
  }

  /** A successful priced order keeps the account's invariants. */
  lemma PlacePricedSound(model: FeeModel, l: Ledger, sym: string, q: real, p: real)
    requires Sound(l)
    ensures Sound(PlaceOrder(model, l, Order(Some(sym), Some(q), Some(p))).ledger)
  {
    var order := Order(Some(sym), Some(q), Some(p));
    PlaceOrderKeepsInvariants(model, l, order);
    PlacePriced(model, l, sym, q, p);
    var after := PlaceOrder(model, l, order).ledger.positions;
    forall s | s in after ensures !IsBlank(Some(s)) {
      if s != sym {
        assert s in after - {sym};
      } else if !(s in l.positions) {
        assert PlaceOrder(model, l, order).result.value.success;
      }
    }
  }

  /** The symbols of the successful results. */
  function Succeeded(results: seq<OrderResult>): set<string>
    decreases |results|
  {
    if results == [] then {}
    else
      var last := results[|results| - 1];
      Succeeded(results[..|results| - 1]) + (if last.success && last.order.symbol.Some? then {last.order.symbol.value} else {})
  }

  /** `others` is what was held at the start less the symbols of
      successful orders, and each of them is still held as it was. */
  predicate Tracked(m: Mass, l: Ledger) {
    m.others == l.positions.Keys - Succeeded(m.results) &&
    forall s :: s in m.others ==> s in m.ledger.positions && m.ledger.positions[s] == l.positions[s]
  }

  /** One row keeps `others` tracked and the account sound; a row whose
      price is not tradable adds no result, and one with a tradable price
      adds exactly one, for the row's symbol. */
  lemma StepTracked(v: Version, model: FeeModel, percentMode: bool, equity: real, m: Mass, l: Ledger, row: Row, quote: Quote)
    requires Tracked(m, l) && Sound(m.ledger)
    ensures var run := Step(v, model, percentMode, equity, m, row, quote);
      Tracked(run.mass, l) && Sound(run.mass.ledger) &&
      (quote(row.symbol).Ok? && Tradable(quote(row.symbol).value) ==>
         |run.mass.results| == |m.results| + 1 &&
         run.mass.results[..|m.results|] == m.results &&
         run.mass.results[|m.results|].order.symbol == Some(row.symbol)) &&
      (!(quote(row.symbol).Ok? && Tradable(quote(row.symbol).value)) ==> run.mass == m)
  {
    var price := quote(row.symbol);
    if price.Ok? && Tradable(price.value) {
      var p := price.value.value;
      var q := OrderedQuantity(percentMode, equity, row, p);
      var o := PlaceOrder(model, m.ledger, Order(Some(row.symbol), Some(q), Some(p)));
      PlacePriced(model, m.ledger, row.symbol, q, p);
      PlacePricedSound(model, m.ledger, row.symbol, q, p);
      PlacedTracked(v, percentMode, m, l, row.symbol, o);
    }
  }

  /** StepTracked for a placed order, whatever the order did within what
      PlacePriced promises. */
  lemma PlacedTracked(v: Version, percentMode: bool, m: Mass, l: Ledger, sym: string, o: Outcome<OrderResult>)
    requires Tracked(m, l) && Sound(m.ledger)
    requires o.result.Ok? && o.result.value.order.symbol == Some(sym) && Sound(o.ledger)
    requires !o.result.value.success ==> o.ledger == m.ledger
    requires o.ledger.positions - {sym} == m.ledger.positions - {sym}
    ensures var run := Placed(v, percentMode, m, sym, o);
      Tracked(run.mass, l) && Sound(run.mass.ledger) &&
      |run.mass.results| == |m.results| + 1 && run.mass.results[..|m.results|] == m.results &&
      run.mass.results[|m.results|].order.symbol == Some(sym)
  {
    var r := o.result.value;
    var m' := Placed(v, percentMode, m, sym, o).mass;
    assert m'.results[..|m'.results| - 1] == m.results;
    forall s | s in m'.others ensures s in m'.ledger.positions && m'.ledger.positions[s] == l.positions[s] {
      assert s in m.others;
      if r.success {
        assert s != sym;
        assert s in o.ledger.positions - {sym};
        assert (o.ledger.positions - {sym})[s] == (m.ledger.positions - {sym})[s];
      }
    }
  }

  /** The rows with a tradable price: those that produce a result. */
  function Priced(rows: seq<Row>, quote: Quote): seq<Row>
    decreases |rows|
  {
    if rows == [] then []
    else
      var last := rows[|rows| - 1];
      var q := quote(last.symbol);
      Priced(rows[..|rows| - 1], quote) + (if q.Ok? && Tradable(q.value) then [last] else [])
  }

  /** The loop over the rows keeps `others` tracked and the account sound,
      and when no exception stops it the results correspond one to one, in
      order, to the rows with a tradable price. */
  lemma {:induction false} ExecuteTracked(v: Version, model: FeeModel, percentMode: bool, equity: real, l: Ledger,
                                          rows: seq<Row>, quote: Quote)
    requires Sound(l)
    ensures TrackedRun(Execute(v, model, percentMode, equity, Start(l), rows, quote), l, rows, quote)
    decreases |rows|
  {
    if rows != [] {
      ExecuteTracked(v, model, percentMode, equity, l, rows[..|rows| - 1], quote);
      ExecuteTrackedStep(v, model, percentMode, equity, l, rows, quote);
    } else {
      assert Succeeded([]) == {};
    }
  }

  /** What ExecuteTracked promises of the loop over `rows`. */
  predicate TrackedRun(run: Run, l: Ledger, rows: seq<Row>, quote: Quote) {
    Tracked(run.mass, l) && Sound(run.mass.ledger) &&
    (run.failure.None? ==> Matches(run.mass.results, Priced(rows, quote)))
  }

  /** The inductive step of ExecuteTracked. */
  lemma ExecuteTrackedStep(v: Version, model: FeeModel, percentMode: bool, equity: real, l: Ledger,
                           rows: seq<Row>, quote: Quote)
    requires rows != []
    requires TrackedRun(Execute(v, model, percentMode, equity, Start(l), rows[..|rows| - 1], quote), l, rows[..|rows| - 1], quote)
    ensures TrackedRun(Execute(v, model, percentMode, equity, Start(l), rows, quote), l, rows, quote)
  {
    var init := rows[..|rows| - 1];
    var row := rows[|rows| - 1];
    var before := Execute(v, model, percentMode, equity, Start(l), init, quote);
    if before.failure.None? {
      var run := Step(v, model, percentMode, equity, before.mass, row, quote);
      assert Execute(v, model, percentMode, equity, Start(l), rows, quote) == run;
      StepTracked(v, model, percentMode, equity, before.mass, l, row, quote);
      var q := quote(row.symbol);
      if q.Ok? && Tradable(q.value) {
        assert Priced(rows, quote) == Priced(init, quote) + [row];
        MatchesSnoc(before.mass.results, Priced(init, quote), run.mass.results, row);
      } else {
        assert Priced(rows, quote) == Priced(init, quote);
      }
    }
  }

  /** The results are for the rows' symbols, one to one and in order. */
  predicate Matches(results: seq<OrderResult>, rows: seq<Row>) {
    |results| == |rows| && forall i :: 0 <= i < |results| ==> results[i].order.symbol == Some(rows[i].symbol)
  }

  lemma MatchesSnoc(results: seq<OrderResult>, rows: seq<Row>, results': seq<OrderResult>, row: Row)
    requires Matches(results, rows)
    requires |results'| == |results| + 1 && results'[..|results|] == results
    requires results'[|results|].order.symbol == Some(row.symbol)
    ensures Matches(results', rows + [row])
  {
    forall i | 0 <= i < |results'| ensures results'[i].order.symbol == Some((rows + [row])[i].symbol) {
      if i < |results| {
        assert results'[i] == results[i];
      }
    }
  }

  /** After the rows every symbol left in `others` is still held, so the
      auto-close's `if not holding: continue` never skips one. */
  lemma OthersStillHeld(v: Version, model: FeeModel, percentMode: bool, equity: real, l: Ledger, rows: seq<Row>, quote: Quote)
    requires Sound(l)
    ensures var m := Execute(v, model, percentMode, equity, Start(l), rows, quote).mass;
      m.others <= m.ledger.positions.Keys
  {
    ExecuteTracked(v, model, percentMode, equity, l, rows, quote);
  }

  /** In percent mode the order placed for a row at a positive price buys
      whole shares worth at most the row's share of the equity, and less
      than one share short of it. */
  lemma PercentSizing(equity: real, row: Row, price: real)
    requires price > 0.0 && Portion(equity, row) >= 0.0
    ensures var q := OrderedQuantity(true, equity, row, price);
      q == q.Floor as real && q * price <= Portion(equity, row) < q * price + price
  {
    var value := Portion(equity, row);
    var x := value / price;
    PercentQuantity(equity, row, price);
    assert x * price == value;
    PodOrders.TruncScaled(x, price, value);
  }

  lemma PercentQuantity(equity: real, row: Row, price: real)
    requires price != 0.0
    ensures OrderedQuantity(true, equity, row, price) == Trunc(Portion(equity, row) / price) as real
  {
  }

  // ---------------------------------------------------------------------
  // The auto-close

  /** Selling a held symbol off at price `p`: it succeeds exactly when `p`
      is positive, and then the symbol is no longer held. */
  lemma SellOff(model: FeeModel, l: Ledger, sym: string, p: real)
    requires Sound(l) && sym in l.positions
    ensures var o := PlaceOrder(model, l, Order(Some(sym), Some(-l.positions[sym].quantity), Some(p)));
      o.result.Ok? && (o.result.value.success <==> p > 0.0) &&
      o.ledger.positions == if p > 0.0 then l.positions - {sym} else l.positions
  {
    var q := -l.positions[sym].quantity;
    PlacePriced(model, l, sym, q, p);
    if p > 0.0 {
      PlaceOrderCashFlow(model, l, Order(Some(sym), Some(q), Some(p)));
      assert Merged(l.positions[sym], q, p).quantity == 0.0;
    }
  }

  /** The symbols the successful closes sold off. */
  function SoldOff(results: seq<OrderResult>): set<string>
    decreases |results|
  {
    Succeeded(results)
  }

  lemma SucceededAppend(a: seq<OrderResult>, r: OrderResult)
    ensures Succeeded(a + [r]) == Succeeded(a) + (if r.success && r.order.symbol.Some? then {r.order.symbol.value} else {})
  {
    assert (a + [r])[..|a|] == a;
  }

  /** Where a sale of the auto-close leaves the batch. */
  function Sold(m: Mass, o: Outcome<OrderResult>): Run {
    if o.result.Err? then Run(m.(ledger := o.ledger), Some(o.result.error))
    else Run(m.(ledger := o.ledger, results := m.results + [o.result.value]), None)
  }

  /** The corrected auto-close of a held symbol with a quote is the sale
      at its close price. */
  lemma CloseOneHeld(model: FeeModel, percentKnown: bool, m: Mass, symbol: string, quote: Quote, p: Option<real>,
                     quantity: real, last: real, order: Order)
    requires symbol in m.ledger.positions && quote(symbol) == Ok(p)
    requires m.ledger.positions[symbol].quantity == quantity && m.ledger.positions[symbol].price == last
    requires order == Order(Some(symbol), Some(-quantity), Some(ClosePrice(p, last)))
    ensures CloseOne(Corrected, model, percentKnown, m, symbol, quote) == Sold(m, PlaceOrder(model, m.ledger, order))
  {
  }

  /** Closing one held symbol, in the corrected version: unless the quote
      raises, exactly one result is added, for that symbol, succeeding
      exactly when it sold at a positive price, and the symbol is then no
      longer held. */
  lemma CloseOneSells(model: FeeModel, percentKnown: bool, m: Mass, sym: string, quote: Quote)
    requires Sound(m.ledger) && sym in m.ledger.positions
    ensures var run := CloseOne(Corrected, model, percentKnown, m, sym, quote);
      run.failure.None? ==>
        exists r: OrderResult :: run.mass.results == m.results + [r] &&
          SoldAt(r, sym) &&
          Sound(run.mass.ledger) &&
          run.mass.ledger.positions == m.ledger.positions - (if r.success then {sym} else {})
  {
    var price := quote(sym);
    if price.Ok? {
      var h := m.ledger.positions[sym];
      var p := ClosePrice(price.value, h.price);
      var order := Order(Some(sym), Some(-h.quantity), Some(p));
      CloseOneHeld(model, percentKnown, m, sym, quote, price.value, h.quantity, h.price, order);
      SellOff(model, m.ledger, sym, p);
      PlacePricedSound(model, m.ledger, sym, -h.quantity, p);
      PlacePriced(model, m.ledger, sym, -h.quantity, p);
      var o := PlaceOrder(model, m.ledger, order);
      var r := o.result.value;
      var run := Sold(m, o);
      assert run.mass.results == m.results + [r] && SoldAt(r, sym) && Sound(run.mass.ledger) &&
             run.mass.ledger.positions == m.ledger.positions - (if r.success then {sym} else {});
    }
  }

  /** A close of `sym` at a price that succeeded exactly when the price was
      positive. */
  predicate SoldAt(r: OrderResult, sym: string) {
    r.order.symbol == Some(sym) && r.order.price.Some? && (r.success <==> r.order.price.value > 0.0)
  }

  /** What a run of closes added to the results it started from. */
  predicate SoldEach(results: seq<OrderResult>, symbols: seq<string>) {
    |results| == |symbols| &&
    forall i :: 0 <= i < |symbols| ==>
      SoldAt(results[i], symbols[i])
  }

  /** What a corrected run of closes of `symbols`, started from `m`,
      promises when it did not fail: one result per symbol appended, in
      order, each succeeding exactly when it sold at a positive price, and
      the ledger holding what was held less the symbols sold off. */
  predicate ClosedOff(m: Mass, symbols: seq<string>, run: Run) {
    run.failure.None? ==>
      |run.mass.results| >= |m.results| && run.mass.results[..|m.results|] == m.results &&
      SoldEach(run.mass.results[|m.results|..], symbols) &&
      Sound(run.mass.ledger) &&
      run.mass.ledger.positions == m.ledger.positions - Succeeded(run.mass.results[|m.results|..])
  }

  /** With distinct symbols that are all held, the corrected auto-close
      adds one result per symbol, in order, each succeeding exactly when it
      sold at a positive price, and ends holding what was held less the
      symbols it sold off. */
  lemma {:induction false} CloseAllSells(model: FeeModel, percentKnown: bool, m: Mass, symbols: seq<string>, quote: Quote)
    requires Sound(m.ledger)
    requires forall i :: 0 <= i < |symbols| ==> symbols[i] in m.ledger.positions
    requires forall i, j :: 0 <= i < j < |symbols| ==> symbols[i] != symbols[j]
    ensures ClosedOff(m, symbols, CloseAll(Corrected, model, percentKnown, m, symbols, quote))
    decreases |symbols|
  {
    if symbols == [] {
      assert m.results[|m.results|..] == [];
    } else {
      var init := symbols[..|symbols| - 1];
      HeldDistinctInit(symbols, m.ledger.positions);
      CloseAllSells(model, percentKnown, m, init, quote);
      CloseAllStep(model, percentKnown, m, symbols, quote);
    }
  }

  /** Distinct held symbols stay distinct and held without the last. */
  lemma HeldDistinctInit(symbols: seq<string>, positions: map<string, Position>)
    requires symbols != []
    requires forall i :: 0 <= i < |symbols| ==> symbols[i] in positions
    requires forall i, j :: 0 <= i < j < |symbols| ==> symbols[i] != symbols[j]
    ensures var init := symbols[..|symbols| - 1];
      (forall i :: 0 <= i < |init| ==> init[i] in positions) &&
      (forall i, j :: 0 <= i < j < |init| ==> init[i] != init[j])
  {
    var init := symbols[..|symbols| - 1];
    assert forall i :: 0 <= i < |init| ==> init[i] == symbols[i];
  }

  /** The inductive step of CloseAllSells: the closes of all but the last
      symbol, followed by the close of the last one. */
  lemma CloseAllStep(model: FeeModel, percentKnown: bool, m: Mass, symbols: seq<string>, quote: Quote)
    requires symbols != [] && symbols[|symbols| - 1] in m.ledger.positions
    requires forall i :: 0 <= i < |symbols| - 1 ==> symbols[i] != symbols[|symbols| - 1]
    requires ClosedOff(m, symbols[..|symbols| - 1], CloseAll(Corrected, model, percentKnown, m, symbols[..|symbols| - 1], quote))
    ensures ClosedOff(m, symbols, CloseAll(Corrected, model, percentKnown, m, symbols, quote))
  {
    var init := symbols[..|symbols| - 1];
    var sym := symbols[|symbols| - 1];
    assert symbols == init + [sym];
    assert sym !in init;
    var before := CloseAll(Corrected, model, percentKnown, m, init, quote);
    CloseAllUnfold(model, percentKnown, m, symbols, quote);
    if before.failure.None? {
      assert before == Run(before.mass, None);
      CloseAllNext(model, percentKnown, m, before.mass, init, sym, quote);
    }
  }

  lemma CloseAllUnfold(model: FeeModel, percentKnown: bool, m: Mass, symbols: seq<string>, quote: Quote)
    requires symbols != []
    ensures var before := CloseAll(Corrected, model, percentKnown, m, symbols[..|symbols| - 1], quote);
      CloseAll(Corrected, model, percentKnown, m, symbols, quote) ==
        if before.failure.Some? then before else CloseOne(Corrected, model, percentKnown, before.mass, symbols[|symbols| - 1], quote)
  {
  }

  /** The close of the next symbol, after the closes of `init`. */
  lemma CloseAllNext(model: FeeModel, percentKnown: bool, m: Mass, b: Mass, init: seq<string>, sym: string, quote: Quote)
    requires sym in m.ledger.positions && sym !in init
    requires ClosedOff(m, init, Run(b, None))
    ensures ClosedOff(m, init + [sym], CloseOne(Corrected, model, percentKnown, b, sym, quote))
  {
    var added := b.results[|m.results|..];
    assert sym !in Succeeded(added) by {
      SucceededFrom(added, init);
    }
    assert sym in b.ledger.positions;
    var run := CloseOne(Corrected, model, percentKnown, b, sym, quote);
    CloseOneSells(model, percentKnown, b, sym, quote);
    if run.failure.None? {
      CloseAllExtend(m, b, run.mass, init, sym);
    }
  }

  /** One more close, appended to the closes before it. */
  lemma CloseAllExtend(m: Mass, b: Mass, after: Mass, init: seq<string>, sym: string)
    requires |b.results| >= |m.results| && b.results[..|m.results|] == m.results
    requires SoldEach(b.results[|m.results|..], init)
    requires b.ledger.positions == m.ledger.positions - Succeeded(b.results[|m.results|..])
    requires exists r: OrderResult :: (after.results == b.results + [r] && SoldAt(r, sym) &&
      after.ledger.positions == b.ledger.positions - (if r.success then {sym} else {}))
    ensures |after.results| >= |m.results| && after.results[..|m.results|] == m.results
    ensures SoldEach(after.results[|m.results|..], init + [sym])
    ensures after.ledger.positions == m.ledger.positions - Succeeded(after.results[|m.results|..])
  {
    var r: OrderResult :| after.results == b.results + [r] && SoldAt(r, sym) &&
      after.ledger.positions == b.ledger.positions - (if r.success then {sym} else {});
    var added := b.results[|m.results|..];
    assert after.results[|m.results|..] == added + [r];
    assert after.results[..|m.results|] == m.results;
    SucceededAppend(added, r);
    SoldEachSnoc(added, init, r, sym);
  }

  lemma SoldEachSnoc(added: seq<OrderResult>, symbols: seq<string>, r: OrderResult, sym: string)
    requires SoldEach(added, symbols)
    requires SoldAt(r, sym)
    ensures SoldEach(added + [r], symbols + [sym])
  {
    var a := added + [r];
    forall i | 0 <= i < |symbols| + 1
      ensures SoldAt(a[i], (symbols + [sym])[i])
    {
      if i < |symbols| {
        assert a[i] == added[i];
      }
    }
  }

  /** The successful results among `added` are for symbols of `symbols`. */
  lemma {:induction false} SucceededFrom(added: seq<OrderResult>, symbols: seq<string>)
    requires |added| == |symbols|
    requires forall i :: 0 <= i < |symbols| ==> added[i].order.symbol == Some(symbols[i])
    ensures forall s :: s in Succeeded(added) ==> s in symbols
    decreases |added|
  {
    if added != [] {
      SucceededFrom(added[..|added| - 1], symbols[..|symbols| - 1]);
      forall s | s in Succeeded(added) ensures s in symbols {
        if s in Succeeded(added[..|added| - 1]) {
          assert s in symbols[..|symbols| - 1];
        }
      }
    }
  }

  // ---------------------------------------------------------------------
  // The loops, one step at a time

  /** The loop over one more row is one more step. */
  lemma ExecuteSnoc(v: Version, model: FeeModel, percentMode: bool, equity: real, m: Mass, done: seq<Row>, row: Row, quote: Quote)
    requires Execute(v, model, percentMode, equity, m, done, quote).failure.None?
    ensures Execute(v, model, percentMode, equity, m, done + [row], quote) ==
      Step(v, model, percentMode, equity, Execute(v, model, percentMode, equity, m, done, quote).mass, row, quote)
  {
    assert (done + [row])[..|done|] == done;
  }

  /** An exception ends the loop over the rows: the rows after it are not
      placed. */
  lemma {:induction false} ExecuteStops(v: Version, model: FeeModel, percentMode: bool, equity: real, m: Mass,
                                        rows: seq<Row>, n: nat, quote: Quote)
    requires n <= |rows|
    requires Execute(v, model, percentMode, equity, m, rows[..n], quote).failure.Some?
    ensures Execute(v, model, percentMode, equity, m, rows, quote) == Execute(v, model, percentMode, equity, m, rows[..n], quote)
    decreases |rows| - n
  {
    if n < |rows| {
      var init := rows[..|rows| - 1];
      assert init[..n] == rows[..n];
      ExecuteStops(v, model, percentMode, equity, m, init, n, quote);
    } else {
      assert rows[..n] == rows;
    }
  }

  /** Share mode never reads the equity. */
  lemma {:induction false} ExecuteIgnoresEquity(v: Version, model: FeeModel, equity: real, equity': real, m: Mass,
                                                rows: seq<Row>, quote: Quote)
    ensures Execute(v, model, false, equity, m, rows, quote) == Execute(v, model, false, equity', m, rows, quote)
    decreases |rows|
  {
    if rows != [] {
      var init := rows[..|rows| - 1];
      ExecuteIgnoresEquity(v, model, equity, equity', m, init, quote);
      var before := Execute(v, model, false, equity, m, init, quote);
      var row := rows[|rows| - 1];
      var p := quote(row.symbol);
      if p.Ok? && Tradable(p.value) {
        assert OrderedQuantity(false, equity, row, p.value.value) == OrderedQuantity(false, equity', row, p.value.value);
      }
    }
  }

  /** The auto-close over one more symbol is one more close. */
  lemma CloseAllSnoc(v: Version, model: FeeModel, percentKnown: bool, m: Mass, done: seq<string>, symbol: string, quote: Quote)
    requires CloseAll(v, model, percentKnown, m, done, quote).failure.None?
    ensures CloseAll(v, model, percentKnown, m, done + [symbol], quote) ==
      CloseOne(v, model, percentKnown, CloseAll(v, model, percentKnown, m, done, quote).mass, symbol, quote)
  {
    assert (done + [symbol])[..|done|] == done;
  }

  /** An exception ends the auto-close: the symbols after it are not
      closed. */
  lemma {:induction false} CloseAllStops(v: Version, model: FeeModel, percentKnown: bool, m: Mass,
                                         symbols: seq<string>, n: nat, quote: Quote)
    requires n <= |symbols|
    requires CloseAll(v, model, percentKnown, m, symbols[..n], quote).failure.Some?
    ensures CloseAll(v, model, percentKnown, m, symbols, quote) == CloseAll(v, model, percentKnown, m, symbols[..n], quote)
    decreases |symbols| - n
  {
    if n < |symbols| {
      var init := symbols[..|symbols| - 1];
      assert init[..n] == symbols[..n];
      CloseAllStops(v, model, percentKnown, m, init, n, quote);
    } else {
      assert symbols[..n] == symbols;
    }
  }

  /** One pass of the loop over the rows: a step after rows[..i] either
      carries the loop to rows[..i + 1] or, raising, ends it for good. */
  lemma ExecutePass(v: Version, model: FeeModel, percentMode: bool, equity: real, m: Mass, rows: seq<Row>, i: nat,
                    quote: Quote, run: Run, next: Run)
    requires i < |rows| && run == Execute(v, model, percentMode, equity, m, rows[..i], quote) && run.failure.None?
    requires next == Step(v, model, percentMode, equity, run.mass, rows[i], quote)
    ensures next.failure.None? ==> next == Execute(v, model, percentMode, equity, m, rows[..i + 1], quote)
    ensures next.failure.Some? ==> next == Execute(v, model, percentMode, equity, m, rows, quote)
  {
    assert rows[..i + 1] == rows[..i] + [rows[i]];
    ExecuteSnoc(v, model, percentMode, equity, m, rows[..i], rows[i], quote);
    if next.failure.Some? {
      ExecuteStops(v, model, percentMode, equity, m, rows, i + 1, quote);
    }
  }

  /** One pass of the auto-close: a close after symbols[..j] either
      carries it to symbols[..j + 1] or, raising, ends it for good. */
  lemma CloseAllPass(v: Version, model: FeeModel, percentKnown: bool, m: Mass, symbols: seq<string>, j: nat,
                     quote: Quote, run: Run, next: Run)
    requires j < |symbols| && run == CloseAll(v, model, percentKnown, m, symbols[..j], quote) && run.failure.None?
    requires next == CloseOne(v, model, percentKnown, run.mass, symbols[j], quote)
    ensures next.failure.None? ==> next == CloseAll(v, model, percentKnown, m, symbols[..j + 1], quote)
    ensures next.failure.Some? ==> next == CloseAll(v, model, percentKnown, m, symbols, quote)
  {
    assert symbols[..j + 1] == symbols[..j] + [symbols[j]];
    CloseAllSnoc(v, model, percentKnown, m, symbols[..j], symbols[j], quote);
    if next.failure.Some? {
      CloseAllStops(v, model, percentKnown, m, symbols, j + 1, quote);
    }
  }

  // ---------------------------------------------------------------------
  // The two versions

  /** The written code and the corrected one agree, except that the
      written one stops with NameError where a failed order is warned
      about in a place `percent` is not assigned. */
  lemma {:induction false} StepVersions(model: FeeModel, percentMode: bool, equity: real, m: Mass, row: Row, quote: Quote)
    ensures var w := Step(AsWritten, model, percentMode, equity, m, row, quote);
      var c := Step(Corrected, model, percentMode, equity, m, row, quote);
      w.mass == c.mass &&
      (w.failure == c.failure ||
       (c.failure.None? && w.failure == Some(NameError(NoPercent)) && !percentMode &&
        |c.mass.results| > 0 && !c.mass.results[|c.mass.results| - 1].success))
  {
  }

  /** A share-mode row at a negative price (a price the provider hands
      back raw): the corrected loop records the failed order and goes on,
      the written one raises NameError while warning about it. */
  lemma NegativePriceRaises(model: FeeModel, l: Ledger, aapl: string)
    requires aapl == "AAPL"
    ensures var quote: Quote := _ => Ok(Some(-1.0));
      var row := Row(aapl, 10.0);
      Step(AsWritten, model, false, 0.0, Start(l), row, quote).failure == Some(NameError(NoPercent)) &&
      var c := Step(Corrected, model, false, 0.0, Start(l), row, quote);
      c.failure.None? && c.mass.ledger == l &&
      c.mass.results == [OrderResult(Order(Some(aapl), Some(10.0), Some(-1.0)), false, 0.0)]
  {
    PlacePriced(model, l, aapl, 10.0, -1.0);
    assert Trunc(10.0) == 10;
  }
}
