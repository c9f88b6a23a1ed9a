/** backtest/account.py, stated on values: the ledger of the older
    package.  It keeps no `cash_new`, charges no date check, and treats only
    an exact zero as zero.  `LegacyAccounts.Account` performs the same
    operations in place. */
module LegacyLedgers {
  import opened Wrappers
  import opened Utils
  import opened LegacyOrders
  import opened LegacyHoldings
  import opened Fees
  import opened Sums

  /** Account(): the initial cash when none is given. */
  const DefaultInitialCash: real := 1000000.0

  /** The observable state of an account. */
  datatype Ledger = Ledger(cash: real, positions: map<string, Position>)

  /** Each holding is filed under its own symbol. */
  predicate Keyed(positions: map<string, Position>) {
    forall s :: s in positions ==> positions[s].symbol == s
  }

  /** No holding has an exact zero quantity. */
  predicate NoneEmpty(positions: map<string, Position>) {
    forall s :: s in positions ==> positions[s].quantity != 0.0
  }

  /** The state an operation leaves behind, and what it returned or raised. */
  datatype Outcome<T> = Outcome(ledger: Ledger, result: Result<T>)

  function MarketOf(p: Position): real {
    p.MarketPrice()
  }

  /** value: the market price of every holding, summed. */
  ghost function MarketValue(positions: map<string, Position>): real {
    Sum(positions, MarketOf)
  }

  /** equity: cash plus value. */
  ghost function Equity(l: Ledger): real {
    l.cash + MarketValue(l.positions)
  }

  /** _handle_cash: cash pays the fee, then the order's value. */
  function HandleCash(l: Ledger, quantity: real, price: real, fee: real): (r: Ledger)
    ensures r.positions == l.positions
    ensures l.cash - r.cash == fee + quantity * price
  {
    l.(cash := l.cash - fee - quantity * price)
  }

  /** The holdings part of place_order: a held symbol is merged and dropped
      when its quantity is exactly zero; an unheld one gets a new holding. */
  function Rehold(positions: map<string, Position>, sym: string, q: real, p: real): (r: map<string, Position>)
    ensures r - {sym} == positions - {sym}
    ensures sym in positions ==>
      var m := Merged(positions[sym], q, p);
      (sym in r <==> m.quantity != 0.0) && (sym in r ==> r[sym] == m)
    ensures sym !in positions ==> sym in r && r[sym] == FromOrder(sym, q, p)
  {
    if sym in positions then
      var m := Merged(positions[sym], q, p);
      if m.quantity == 0.0 then positions - {sym} else positions[sym := m]
    else positions[sym := FromOrder(sym, q, p)]
  }

  /** What multiplying a None quantity by the price raises. */
  const NoneTimesFloat: string := "unsupported operand type(s) for *: 'NoneType' and 'float'"

  /** place_order on the ledger.  A valid order whose quantity is None is
      charged its fee before its value fails to compute. */
  function PlaceOrder(model: FeeModel, l: Ledger, order: Order): Outcome<OrderResult> {
    var result := NewOrderResult(order);
    match IsValid(order)
    case Err(e) => Outcome(l, Err(e))
    case Ok(valid) =>
      if !valid then Outcome(l, Ok(result))
      else if order.quantity == Some(0.0) then Outcome(l, Ok(result.(success := true)))
      else
        match GetOrderFee(model, order.quantity, order.price)
        case Err(e) => Outcome(l, Err(e))
        case Ok(fee) =>
          if order.quantity.None? then
            Outcome(l.(cash := l.cash - fee), Err(TypeError(NoneTimesFloat)))
          else
            var q := order.quantity.value;
            var p := order.price.value;
            Outcome(HandleCash(l, q, p, fee).(positions := Rehold(l.positions, order.symbol.value, q, p)),
                    Ok(result.(success := true, fee := fee)))
  }

  /** An invalid order comes back unsuccessful, free, holding the same
      order, and nothing moves. */
  lemma PlaceInvalidOrder(model: FeeModel, l: Ledger, order: Order)
    requires IsValid(order) == Ok(false)
    ensures PlaceOrder(model, l, order) == Outcome(l, Ok(OrderResult(order, false, 0.0)))
  {
  }

  /** A valid order for exactly zero succeeds without a fee and without
      touching the ledger. */
  lemma PlaceZeroOrder(model: FeeModel, l: Ledger, order: Order)
    requires IsValid(order) == Ok(true) && order.quantity == Some(0.0)
    ensures PlaceOrder(model, l, order) == Outcome(l, Ok(OrderResult(order, true, 0.0)))
  {
  }

  /** A valid order with no quantity raises TypeError.  A fee model that
      does not read the quantity has charged its fee by then; one whose
      expression mentions the quantity fails first and charges nothing. */
  lemma PlaceOrderWithoutQuantity(model: FeeModel, l: Ledger, order: Order)
    requires IsValid(order) == Ok(true) && order.quantity.None?
    ensures var o := PlaceOrder(model, l, order);
      o.result.Err? && o.result.error.TypeError? && o.ledger.positions == l.positions &&
      (model.Evaluated? && Quantity in model.expression.uses ==> o.ledger == l) &&
      (!model.Evaluated? ==> l.cash - o.ledger.cash == Fee(model, 0.0, 0.0)) &&
      (model.Evaluated? && Bound(model.expression, None, order.price) ==>
        l.cash - o.ledger.cash == model.expression.eval(0.0, OrZero(order.price)))
  {
  }

  /** A valid non-zero order succeeds, charges cash exactly the fee plus
      quantity times price, and reholds. */
  lemma PlaceOrderCashFlow(model: FeeModel, l: Ledger, order: Order)
    requires IsValid(order) == Ok(true) && order.quantity.Some? && order.quantity.value != 0.0
    ensures var o := PlaceOrder(model, l, order);
      var q := order.quantity.value;
      var p := order.price.value;
      var fee := Fee(model, q, p);
      o.result == Ok(OrderResult(order, true, fee)) &&
      l.cash - o.ledger.cash == fee + q * p &&
      o.ledger.positions == Rehold(l.positions, order.symbol.value, q, p)
  {
  }

  /** Placing orders keeps every holding under its own symbol and never
      leaves a holding at zero. */
  lemma PlaceOrderKeepsInvariants(model: FeeModel, l: Ledger, order: Order)
    requires Keyed(l.positions) && NoneEmpty(l.positions)
    ensures var after := PlaceOrder(model, l, order).ledger.positions;
      Keyed(after) && NoneEmpty(after)
  {
    if IsValid(order) == Ok(true) && order.quantity.Some? && order.quantity.value != 0.0 {
      PlaceOrderCashFlow(model, l, order);
      ReholdKeepsInvariants(l.positions, order.symbol.value, order.quantity.value, order.price.value);
    } else {
      assert PlaceOrder(model, l, order).ledger.positions == l.positions;
    }
  }

  /** Reholding a non-zero quantity keeps every holding under its own
      symbol and none at zero. */
  lemma ReholdKeepsInvariants(positions: map<string, Position>, sym: string, q: real, p: real)
    requires Keyed(positions) && NoneEmpty(positions) && q != 0.0
    ensures Keyed(Rehold(positions, sym, q, p)) && NoneEmpty(Rehold(positions, sym, q, p))
  {
    var r := Rehold(positions, sym, q, p);
    forall s | s in r
      ensures r[s].symbol == s && r[s].quantity != 0.0
    {
      if s != sym {
        assert s in r - {sym} && (r - {sym})[s] == r[s];
      }
    }
  }

  /** What re-pricing the holding of `sym` at `p` adds to equity: nothing
      when the symbol is not held. */
  function Revaluation(positions: map<string, Position>, sym: string, p: real): real {
    if sym in positions then positions[sym].quantity * (p - positions[sym].price) else 0.0
  }

  /** The effect of a non-zero order on equity: the fee is lost and the held
      quantity is revalued at the order's price. */
  lemma {:induction false} PlaceOrderEquity(model: FeeModel, l: Ledger, order: Order)
    requires IsValid(order) == Ok(true) && order.quantity.Some? && order.quantity.value != 0.0
    ensures Equity(PlaceOrder(model, l, order).ledger) ==
      Equity(l) - Fee(model, order.quantity.value, order.price.value) + Revaluation(l.positions, order.symbol.value, order.price.value)
  {
    var q := order.quantity.value;
    var p := order.price.value;
    var sym := order.symbol.value;
    var fee := Fee(model, q, p);
    PlaceOrderCashFlow(model, l, order);
    ReholdEquity(l, fee, sym, q, p);
  }

  lemma {:induction false} ReholdEquity(l: Ledger, fee: real, sym: string, q: real, p: real)
    ensures Equity(HandleCash(l, q, p, fee).(positions := Rehold(l.positions, sym, q, p))) ==
      Equity(l) - fee + Revaluation(l.positions, sym, p)
  {
    if sym in l.positions {
      if Merged(l.positions[sym], q, p).quantity == 0.0 {
        ReholdRemovedEquity(l, fee, sym, q, p);
      } else {
        ReholdMergedEquity(l, fee, sym, q, p);
      }
    } else {
      SumUpdate(l.positions, sym, FromOrder(sym, q, p), MarketOf);
    }
  }

  lemma ReholdRemovedEquity(l: Ledger, fee: real, sym: string, q: real, p: real)
    requires sym in l.positions && Merged(l.positions[sym], q, p).quantity == 0.0
    ensures Equity(HandleCash(l, q, p, fee).(positions := l.positions - {sym})) ==
      Equity(l) - fee + l.positions[sym].quantity * (p - l.positions[sym].price)
  {
    var h := l.positions[sym];
    SumRemove(l.positions, sym, MarketOf);
    HeldEquityAlgebra(l.cash, fee, q, p, MarketValue(l.positions), h.quantity, h.price, MarketValue(l.positions - {sym}), 0.0);
  }

  lemma ReholdMergedEquity(l: Ledger, fee: real, sym: string, q: real, p: real)
    requires sym in l.positions
    ensures var m := Merged(l.positions[sym], q, p);
      Equity(HandleCash(l, q, p, fee).(positions := l.positions[sym := m])) ==
      Equity(l) - fee + l.positions[sym].quantity * (p - l.positions[sym].price)
  {
    var h := l.positions[sym];
    var m := Merged(h, q, p);
    MergedMarketValue(l.positions, sym, m);
    HeldEquityAlgebra(l.cash, fee, q, p, MarketValue(l.positions), h.quantity, h.price,
                      MarketValue(l.positions[sym := m]), m.quantity);
  }

  /** Replacing a held position changes the value by the difference of
      the two market prices. */
  lemma MergedMarketValue(positions: map<string, Position>, sym: string, m: Position)
    requires sym in positions
    ensures MarketValue(positions[sym := m]) ==
      MarketValue(positions) - positions[sym].quantity * positions[sym].price + m.quantity * m.price
  {
    SumUpdate(positions, sym, m, MarketOf);
  }

  lemma HeldEquityAlgebra(cash: real, fee: real, q: real, p: real, mv: real, hq: real, hp: real, mv': real, mq: real)
    requires mq == hq + q
    requires mv' == mv - hq * hp + mq * p
    ensures (cash - fee - q * p) + mv' == cash + mv - fee + hq * (p - hp)
  {
    assert (hq + q) * p == hq * p + q * p;
    assert hq * (p - hp) == hq * p - hq * hp;
  }

  /** to_relative_order: with no holding or no quantity the order is
      returned as it is; otherwise it becomes the difference between the
      target and the held quantity, at the order's price.  Unlike the newer
      package, no date is checked. */
  function ToRelativeOrder(l: Ledger, order: Order): (r: Order)
    ensures order.symbol.None? || order.symbol.value !in l.positions || order.quantity.None? ==> r == order
    ensures order.symbol.Some? && order.symbol.value in l.positions && order.quantity.Some? ==>
      r.symbol == order.symbol && r.price == order.price && r.quantity.Some? &&
      l.positions[order.symbol.value].quantity + r.quantity.value == order.quantity.value
  {
    if order.symbol.None? || order.symbol.value !in l.positions || order.quantity.None? then order
    else Order(order.symbol, Some(order.quantity.value - l.positions[order.symbol.value].quantity), order.price)
  }

  /** order_position: place the order relative to what is held. */
  function OrderPosition(model: FeeModel, l: Ledger, order: Order): Outcome<OrderResult> {
    PlaceOrder(model, l, ToRelativeOrder(l, order))
  }

  /** After order_position on a valid order the symbol is held at exactly the
      target quantity, or not held at all when the target is zero. */
  lemma OrderPositionReachesTarget(model: FeeModel, l: Ledger, order: Order)
    requires Keyed(l.positions) && NoneEmpty(l.positions)
    requires IsValid(order) == Ok(true) && order.quantity.Some?
    ensures var o := OrderPosition(model, l, order);
      var sym := order.symbol.value;
      var target := order.quantity.value;
      o.result.Ok? && o.result.value.success &&
      (sym in o.ledger.positions <==> target != 0.0) &&
      (sym in o.ledger.positions ==> o.ledger.positions[sym].quantity == target)
  {
    var relative := ToRelativeOrder(l, order);
    assert relative.symbol == order.symbol && relative.price == order.price;
    if relative.quantity.value != 0.0 {
      PlaceOrderCashFlow(model, l, relative);
    } else {
      PlaceZeroOrder(model, l, relative);
    }
  }

  /** close_position on the ledger: a blank symbol is refused; any other
      symbol is a success, reported missing when it is not held, and sold off
      entirely at the given or the last price when it is. */
  function ClosePosition(model: FeeModel, l: Ledger, symbol: Option<string>, price: Option<real>): Outcome<CloseResult> {
    var order := Order(symbol, Some(0.0), price);
    var result := NewCloseResult(order);
    if IsBlank(symbol) then Outcome(l, Ok(result))
    else if symbol.value in l.positions then
      var h := l.positions[symbol.value];
      var p := if price.Some? then price.value else h.price;
      var fee := Fee(model, -h.quantity, p);
      Outcome(HandleCash(l, -h.quantity, p, fee).(positions := l.positions - {symbol.value}),
              Ok(CloseResult(Order(symbol, Some(-h.quantity), Some(p)), true, false, fee)))
    else Outcome(l, Ok(result.(success := true, missing := true)))
  }

  /** Only a blank symbol fails to close; an unheld one succeeds as missing,
      with quantity 0 and the given price; neither moves anything. */
  lemma CloseWithoutHolding(model: FeeModel, l: Ledger, symbol: Option<string>, price: Option<real>)
    requires IsBlank(symbol) || symbol.value !in l.positions
    ensures var o := ClosePosition(model, l, symbol, price);
      o.ledger == l && o.result.Ok? && o.result.value.fee == 0.0 &&
      o.result.value.order == Order(symbol, Some(0.0), price) &&
      (o.result.value.success <==> !IsBlank(symbol)) &&
      (o.result.value.missing <==> !IsBlank(symbol))
  {
  }

  /** Closing a held symbol removes it, receives quantity times the price
      used, pays the fee, and revalues the position at that price before it
      leaves equity. */
  lemma {:induction false} CloseHeld(model: FeeModel, l: Ledger, symbol: string, price: Option<real>)
    requires !IsBlank(Some(symbol)) && symbol in l.positions
    ensures var o := ClosePosition(model, l, Some(symbol), price);
      var h := l.positions[symbol];
      var p := if price.Some? then price.value else h.price;
      var fee := Fee(model, -h.quantity, p);
      o.result == Ok(CloseResult(Order(Some(symbol), Some(-h.quantity), Some(p)), true, false, fee)) &&
      o.ledger.positions == l.positions - {symbol} &&
      o.ledger.cash == l.cash - fee + h.quantity * p &&
      Equity(o.ledger) == Equity(l) - fee + h.quantity * (p - h.price)
  {
    SumRemove(l.positions, symbol, MarketOf);
  }

  /** The ledgers that tests/test_account.py walks through: a fresh
      account, then 15 AAPL, 30 AAPL, 30 AAPL and 15 TSLA, 15 AAPL and 15
      TSLA, and 15 TSLA alone, all at 2. */
  function ScenarioLedger(step: nat): Ledger
    requires step <= 5
  {
    var a1 := Position("AAPL", 15.0, 2.0, true);
    var a2 := Position("AAPL", 30.0, 2.0, true);
    var t := Position("TSLA", 15.0, 2.0, true);
    match step
    case 0 => Ledger(DefaultInitialCash, map[])
    case 1 => Ledger(DefaultInitialCash - 30.0, map["AAPL" := a1])
    case 2 => Ledger(DefaultInitialCash - 60.0, map["AAPL" := a2])
    case 3 => Ledger(DefaultInitialCash - 90.0, map["AAPL" := a2, "TSLA" := t])
    case 4 => Ledger(DefaultInitialCash - 60.0, map["AAPL" := a1, "TSLA" := t])
    case _ => Ledger(DefaultInitialCash - 30.0, map["TSLA" := t])
  }

  /** The orders of tests/test_account.py: buy 15 AAPL at 2 twice, buy 15
      TSLA at 2, then sell 15 AAPL at 2 twice. */
  function ScenarioOrder(step: nat): Order
    requires step < 5
  {
    if step == 2 then Order(Some("TSLA"), Some(15.0), Some(2.0))
    else if step < 2 then Order(Some("AAPL"), Some(15.0), Some(2.0))
    else Order(Some("AAPL"), Some(-15.0), Some(2.0))
  }

  /** Each order of the scenario succeeds for free and takes its ledger to
      the next one. */
  lemma PlaceOrderScenario(step: nat)
    requires step < 5
    ensures PlaceOrder(Constant(0.0), ScenarioLedger(step), ScenarioOrder(step)) ==
      Outcome(ScenarioLedger(step + 1), Ok(OrderResult(ScenarioOrder(step), true, 0.0)))
  {
    var o := ScenarioOrder(step);
    assert o == Order(Some(o.symbol.value), Some(o.quantity.value), Some(2.0));
    PlaceScenarioOrder(ScenarioLedger(step), o.symbol.value, o.quantity.value);
    ScenarioRehold(step);
  }

  lemma ScenarioRehold(step: nat)
    requires step < 5
    ensures var o := ScenarioOrder(step);
      Ledger(ScenarioLedger(step).cash - o.quantity.value * 2.0, Rehold(ScenarioLedger(step).positions, o.symbol.value, o.quantity.value, 2.0))
        == ScenarioLedger(step + 1)
  {
    assert "AAPL"[0] != "TSLA"[0];
    if step == 3 {
      assert ScenarioLedger(3).positions["AAPL" := Position("AAPL", 15.0, 2.0, true)] == ScenarioLedger(4).positions;
    } else if step == 4 {
      assert ScenarioLedger(4).positions - {"AAPL"} == ScenarioLedger(5).positions;
    }
  }

  lemma ScenarioSymbol(sym: string)
    requires sym == "AAPL" || sym == "TSLA"
    ensures !IsBlank(Some(sym))
  {
    if sym == "AAPL" {
      assert !IsBlank(Some("AAPL"));
    } else {
      assert !IsBlank(Some("TSLA"));
    }
  }

  /** One order of the scenario: a free account, a price of 2, a non-zero
      quantity of AAPL or TSLA. */
  lemma PlaceScenarioOrder(l: Ledger, sym: string, q: real)
    requires sym == "AAPL" || sym == "TSLA"
    requires q != 0.0
    ensures PlaceOrder(Constant(0.0), l, Order(Some(sym), Some(q), Some(2.0))) ==
      Outcome(Ledger(l.cash - q * 2.0, Rehold(l.positions, sym, q, 2.0)), Ok(OrderResult(Order(Some(sym), Some(q), Some(2.0)), true, 0.0)))
  {
    ScenarioSymbol(sym);
    PlaceOrderCashFlow(Constant(0.0), l, Order(Some(sym), Some(q), Some(2.0)));
  }

  /** Along the way the account holds 1, 1, 2, 2 and 1 symbols. */
  lemma ScenarioCounts()
    ensures |ScenarioLedger(1).positions| == 1 && |ScenarioLedger(2).positions| == 1 && |ScenarioLedger(3).positions| == 2
    ensures |ScenarioLedger(4).positions| == 2 && |ScenarioLedger(5).positions| == 1
  {
    assert "AAPL"[0] != "TSLA"[0];
  }

  /** Along the way the value of the account (its equity less its cash) is
      30, 60, 90, 60 and 30, so that its equity stays at the initial cash. */
  lemma {:induction false} ScenarioValues()
    ensures MarketValue(ScenarioLedger(1).positions) == 30.0 && MarketValue(ScenarioLedger(2).positions) == 60.0
    ensures MarketValue(ScenarioLedger(3).positions) == 90.0 && MarketValue(ScenarioLedger(4).positions) == 60.0
    ensures MarketValue(ScenarioLedger(5).positions) == 30.0
    ensures forall step :: 0 <= step <= 5 ==> Equity(ScenarioLedger(step)) == DefaultInitialCash
  {
    var a1 := Position("AAPL", 15.0, 2.0, true);
    var a2 := Position("AAPL", 30.0, 2.0, true);
    var t := Position("TSLA", 15.0, 2.0, true);
    assert "AAPL"[0] != "TSLA"[0];
    OneHolding(a1);
    OneHolding(a2);
    OneHolding(t);
    SumUpdate(map["AAPL" := a2], "TSLA", t, MarketOf);
    SumUpdate(map["AAPL" := a1], "TSLA", t, MarketOf);
  }

  lemma OneHolding(p: Position)
    ensures MarketValue(map[p.symbol := p]) == p.quantity * p.price
  {
    SumUpdate(map[], p.symbol, p, MarketOf);
  }

  /** An order without a symbol leaves the fresh account as it was. */
  lemma ScenarioInvalidOrder()
    ensures var none := Order(None, Some(1.0), Some(1.0));
      PlaceOrder(Constant(0.0), ScenarioLedger(0), none) == Outcome(ScenarioLedger(0), Ok(OrderResult(none, false, 0.0)))
  {
  }

  /** tests/test_account.py closing on a fresh account: None fails; AAPL
      succeeds as missing, with quantity 0 and whatever price was given. */
  lemma CloseScenarioFresh(aapl: string, price: Option<real>)
    requires aapl == "AAPL"
    ensures ClosePosition(Constant(0.0), ScenarioLedger(0), None, price).result ==
      Ok(CloseResult(Order(None, Some(0.0), price), false, false, 0.0))
    ensures ClosePosition(Constant(0.0), ScenarioLedger(0), Some(aapl), price) ==
      Outcome(ScenarioLedger(0), Ok(CloseResult(Order(Some(aapl), Some(0.0), price), true, true, 0.0)))
  {
    ScenarioSymbol(aapl);
    CloseWithoutHolding(Constant(0.0), ScenarioLedger(0), Some(aapl), price);
  }

  /** tests/test_account.py closing after buying 15 AAPL at 2: TSLA
      succeeds and keeps the holding. */
  lemma CloseScenarioOther(tsla: string)
    requires tsla == "TSLA"
    ensures var o := ClosePosition(Constant(0.0), ScenarioLedger(1), Some(tsla), None);
      o.result.Ok? && o.result.value.success && o.ledger == ScenarioLedger(1)
  {
    ScenarioSymbol(tsla);
    assert "AAPL"[0] != tsla[0];
    CloseWithoutHolding(Constant(0.0), ScenarioLedger(1), Some(tsla), None);
  }

  /** ... and closing AAPL then empties the account back to its initial
      cash. */
  lemma CloseScenarioHeld(aapl: string)
    requires aapl == "AAPL"
    ensures var o := ClosePosition(Constant(0.0), ScenarioLedger(1), Some(aapl), None);
      o.result.Ok? && o.result.value.success && o.ledger.positions == map[] &&
      Equity(o.ledger) == DefaultInitialCash
  {
    ScenarioSymbol(aapl);
    CloseHeld(Constant(0.0), ScenarioLedger(1), aapl, None);
    OneHolding(Position("AAPL", 15.0, 2.0, true));
  }
}
