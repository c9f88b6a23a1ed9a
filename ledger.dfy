/** bktest/account.py, stated on values: the ledger of one portfolio.  Cash moves by the fee
    plus the order's value; `cash_new` moves by the order's `_value`; the
    holdings map is merged into, added to, or loses a symbol whose quantity
    nets to zero.

    The module first states each operation on a value of the ledger
    (`Ledger`, the functions `PlaceOrder`, `ToRelativeOrder`,
    `OrderPosition`, `ClosePosition`) and proves its properties there; the
    class `Accounts.Account` performs the same operations in place. */
module Ledgers {
  import opened Wrappers
  import opened Utils
  import opened Calendar
  import opened Orders
  import opened Holdings
  import opened Fees
  import opened Sums

  /** The tolerance below which a quantity counts as zero. */
  const Epsilon: real := 0.0000000001

  /** The observable state of an account. */
  datatype Ledger = Ledger(cash: real, cashNew: real, positions: map<string, Position>)

  /** Each holding is filed under its own symbol. */
  predicate Keyed(positions: map<string, Position>) {
    forall s :: s in positions ==> positions[s].symbol == s
  }

  /** The state an operation leaves behind, and what it returned or raised.
      A raised exception may follow changes already made. */
  datatype Outcome<T> = Outcome(ledger: Ledger, result: Result<T>)

  function MarketOf(p: Position): real {
    p.MarketPrice()
  }

  function ValueOf(p: Position): real {
    p.value
  }

  /** value: the market price of every holding, summed. */
  ghost function MarketValue(positions: map<string, Position>): real {
    Sum(positions, MarketOf)
  }

  /** equity: cash plus value. */
  ghost function Equity(l: Ledger): real {
    l.cash + MarketValue(l.positions)
  }

  /** equity_new: the `value` of every holding, summed. */
  ghost function EquityNew(positions: map<string, Position>): real {
    Sum(positions, ValueOf)
  }

  /** nav: cash_new plus equity_new. */
  ghost function Nav(l: Ledger): real {
    l.cashNew + EquityNew(l.positions)
  }

  /** _handle_cash: cash pays the fee and the order's value, cash_new pays
      the order's `_value`. */
  function HandleCash(l: Ledger, quantity: real, price: real, value_: real, fee: real): (r: Ledger)
    ensures r.positions == l.positions
    ensures l.cash - r.cash == fee + quantity * price
    ensures l.cashNew - r.cashNew == value_
  {
    l.(cash := l.cash - fee - quantity * price, cashNew := l.cashNew - value_)
  }

  /** What the holdings map becomes once an order for a real quantity has
      been paid for, and the assertion that failed on the way, if any. */
  datatype Reholding = Reholding(positions: map<string, Position>, failure: Option<Error>)

  /** What a stale holding's assertion, and abs() of None, raise. */
  const NotUpToDate: string := "holding price is not up-to-date"
  const NoAbs: string := "bad operand type for abs(): 'NoneType'"

  /** The holdings part of place_order: a held symbol must be priced on the
      order's date and is merged, then dropped when its quantity nets to
      (nearly) zero; an unheld symbol gets a new, up-to-date holding. */
  function Rehold(positions: map<string, Position>, sym: string, q: real, p: real, v: real, date: Date): Reholding {
    if sym in positions then
      var h := positions[sym];
      if h.lastDateUpdated != Some(date) then
        Reholding(positions, Some(AssertionError(NotUpToDate)))
      else
        var m := Merged(h, q, p, v);
        if Abs(m.quantity) < Epsilon then
          if Abs(m.value - m.quantity) < Epsilon then Reholding(positions - {sym}, None)
          else Reholding(positions[sym := m], Some(AssertionError("")))
        else Reholding(positions[sym := m], None)
    else
      Reholding(positions[sym := FromOrder(sym, q, p, v, Some(date))], None)
  }

  /** place_order on the ledger. */
  function PlaceOrder(model: FeeModel, l: Ledger, order: Order, date: Date): Outcome<OrderResult> {
    var result := NewOrderResult(order);
    match IsValid(order)
    case Err(e) => Outcome(l, Err(e))
    case Ok(valid) =>
      if !valid then Outcome(l, Ok(result))
      else if order.quantity.None? then Outcome(l, Err(TypeError(NoAbs)))
      else
        var q := order.quantity.value;
        var p := order.price.value;
        if Abs(q) < Epsilon then
          if Abs(q - order.value_) < Epsilon then Outcome(l, Ok(result.(success := true)))
          else Outcome(l, Err(AssertionError("")))
        else
          var fee := Fee(model, q, p);
          var paid := HandleCash(l, q, p, order.value_, fee);
          var rehold := Rehold(l.positions, order.symbol.value, q, p, order.value_, date);
          Outcome(paid.(positions := rehold.positions),
                  if rehold.failure.Some? then Err(rehold.failure.value) else Ok(result.(success := true, fee := fee)))
  }

  /** A valid order for a real quantity pays, then reholds. */
  lemma PlaceOrderExecutes(model: FeeModel, l: Ledger, order: Order, date: Date)
    requires IsValid(order) == Ok(true) && order.quantity.Some? && Abs(order.quantity.value) >= Epsilon
    ensures var q := order.quantity.value;
      var p := order.price.value;
      var fee := Fee(model, q, p);
      var rehold := Rehold(l.positions, order.symbol.value, q, p, order.value_, date);
      var o := PlaceOrder(model, l, order, date);
      o.ledger == HandleCash(l, q, p, order.value_, fee).(positions := rehold.positions) &&
      o.result == if rehold.failure.Some? then Err(rehold.failure.value) else Ok(OrderResult(order, true, fee))
  {
  }

  /** An invalid order comes back unsuccessful and free, and nothing moves. */
  lemma PlaceInvalidOrder(model: FeeModel, l: Ledger, order: Order, date: Date)
    requires IsValid(order) == Ok(false)
    ensures PlaceOrder(model, l, order, date) == Outcome(l, Ok(OrderResult(order, false, 0.0)))
  {
  }

  /** A valid order for a negligible quantity succeeds without a fee and
      without touching the ledger (or trips the assertion that its `_value`
      is negligible too). */
  lemma PlaceNegligibleOrder(model: FeeModel, l: Ledger, order: Order, date: Date)
    requires IsValid(order) == Ok(true) && order.quantity.Some? && Abs(order.quantity.value) < Epsilon
    ensures var o := PlaceOrder(model, l, order, date);
      o.ledger == l &&
      (Abs(order.quantity.value - order.value_) < Epsilon <==> o.result == Ok(OrderResult(order, true, 0.0))) &&
      (o.result.Err? ==> o.result.error.AssertionError?)
  {
  }

  /** A valid order for a real quantity charges cash exactly the fee plus
      quantity times price and charges cash_new exactly its `_value`; this
      happens before the holding checks, so also when they fail. */
  lemma PlaceOrderCashFlow(model: FeeModel, l: Ledger, order: Order, date: Date)
    requires IsValid(order) == Ok(true) && order.quantity.Some? && Abs(order.quantity.value) >= Epsilon
    ensures var o := PlaceOrder(model, l, order, date);
      var fee := Fee(model, order.quantity.value, order.price.value);
      l.cash - o.ledger.cash == fee + order.quantity.value * order.price.value &&
      l.cashNew - o.ledger.cashNew == order.value_ &&
      (o.result.Ok? ==> o.result.value == OrderResult(order, true, fee))
  {
  }

  /** An order on a held symbol requires the holding to be priced on the
      order's date, merges into it, and removes the symbol when the merged
      quantity is negligible; every other holding is untouched. */
  lemma PlaceOrderOnHeld(model: FeeModel, l: Ledger, order: Order, date: Date)
    requires IsValid(order) == Ok(true) && order.quantity.Some? && Abs(order.quantity.value) >= Epsilon
    requires order.symbol.value in l.positions
    ensures var o := PlaceOrder(model, l, order, date);
      var sym := order.symbol.value;
      var h := l.positions[sym];
      var m := Merged(h, order.quantity.value, order.price.value, order.value_);
      (h.lastDateUpdated != Some(date) ==> o.result.Err? && o.ledger.positions == l.positions) &&
      (o.result.Ok? ==> h.lastDateUpdated == Some(date)) &&
      (o.result.Ok? && Abs(m.quantity) < Epsilon ==> o.ledger.positions == l.positions - {sym}) &&
      (o.result.Ok? && Abs(m.quantity) >= Epsilon ==> o.ledger.positions == l.positions[sym := m])
  {
  }

  /** An order on an unheld symbol adds exactly one holding: the order's
      symbol, quantity, price and `_value`, up to date as of the date. */
  lemma PlaceOrderOnUnheld(model: FeeModel, l: Ledger, order: Order, date: Date)
    requires IsValid(order) == Ok(true) && order.quantity.Some? && Abs(order.quantity.value) >= Epsilon
    requires order.symbol.value !in l.positions
    ensures var o := PlaceOrder(model, l, order, date);
      var sym := order.symbol.value;
      o.result.Ok? &&
      o.ledger.positions == l.positions[sym := Position(sym, order.quantity.value, order.price.value, order.value_, true, Some(date))]
  {
  }

  /** Keeping every holding under its own symbol is preserved. */
  lemma PlaceOrderKeepsKeyed(model: FeeModel, l: Ledger, order: Order, date: Date)
    requires Keyed(l.positions)
    ensures Keyed(PlaceOrder(model, l, order, date).ledger.positions)
  {
    if IsValid(order) == Ok(true) && order.quantity.Some? && Abs(order.quantity.value) >= Epsilon {
      ReholdKeepsKeyed(l.positions, order.symbol.value, order.quantity.value, order.price.value, order.value_, date);
    }
  }

  lemma ReholdKeepsKeyed(positions: map<string, Position>, sym: string, q: real, p: real, v: real, date: Date)
    requires Keyed(positions)
    ensures Keyed(Rehold(positions, sym, q, p, v, date).positions)
  {
  }

  /** How a successful rehold moves the sum of market prices and the sum of
      `value`s: the old holding's terms leave, the merged or new one's
      enter. */
  lemma {:induction false} ReholdSums(positions: map<string, Position>, sym: string, q: real, p: real, v: real, date: Date)
    requires Rehold(positions, sym, q, p, v, date).failure.None?
    ensures var after := Rehold(positions, sym, q, p, v, date).positions;
      (sym !in positions ==>
        MarketValue(after) == MarketValue(positions) + q * p &&
        EquityNew(after) == EquityNew(positions) + v) &&
      (sym in positions && sym in after ==>
        MarketValue(after) == MarketValue(positions) - positions[sym].MarketPrice() + (positions[sym].quantity + q) * p &&
        EquityNew(after) == EquityNew(positions) + v) &&
      (sym in positions && sym !in after ==>
        MarketValue(after) == MarketValue(positions) - positions[sym].MarketPrice() &&
        EquityNew(after) == EquityNew(positions) - positions[sym].value)
  {
    var after := Rehold(positions, sym, q, p, v, date).positions;
    if sym in positions {
      var h := positions[sym];
      var m := Merged(h, q, p, v);
      assert h.lastDateUpdated == Some(date);
      if Abs(m.quantity) < Epsilon {
        assert after == positions - {sym};
        SumsDrop(positions, sym);
      } else {
        assert after == positions[sym := m];
        SumsPut(positions, sym, m);
        assert m.MarketPrice() == (h.quantity + q) * p;
      }
    } else {
      var n := FromOrder(sym, q, p, v, Some(date));
      assert after == positions[sym := n];
      SumsPut(positions, sym, n);
    }
  }

  /** Filing a position under a symbol: the old one's terms leave both
      sums, the new one's enter. */
  lemma SumsPut(positions: map<string, Position>, sym: string, n: Position)
    ensures MarketValue(positions[sym := n]) ==
      MarketValue(positions) - (if sym in positions then positions[sym].MarketPrice() else 0.0) + n.MarketPrice()
    ensures EquityNew(positions[sym := n]) ==
      EquityNew(positions) - (if sym in positions then positions[sym].value else 0.0) + n.value
  {
    SumUpdate(positions, sym, n, MarketOf);
    SumUpdate(positions, sym, n, ValueOf);
  }

  /** Dropping a symbol: its position's terms leave both sums. */
  lemma SumsDrop(positions: map<string, Position>, sym: string)
    requires sym in positions
    ensures MarketValue(positions - {sym}) == MarketValue(positions) - positions[sym].MarketPrice()
    ensures EquityNew(positions - {sym}) == EquityNew(positions) - positions[sym].value
  {
    SumRemove(positions, sym, MarketOf);
    SumRemove(positions, sym, ValueOf);
  }

  /** Paying for an order and reholding moves equity by the fee, the
      revaluation of the held quantity, and the residue of a dropped
      position. */
  lemma {:induction false} ReholdEquity(l: Ledger, fee: real, sym: string, q: real, p: real, v: real, date: Date)
    requires Rehold(l.positions, sym, q, p, v, date).failure.None?
    ensures var after := HandleCash(l, q, p, v, fee).(positions := Rehold(l.positions, sym, q, p, v, date).positions);
      (sym !in l.positions ==> Equity(after) == Equity(l) - fee) &&
      (sym in l.positions ==>
        var h := l.positions[sym];
        Equity(after) == Equity(l) - fee + h.quantity * (p - h.price)
          - (if sym in after.positions then 0.0 else (h.quantity + q) * p))
  {
    ReholdSums(l.positions, sym, q, p, v, date);
    var after := HandleCash(l, q, p, v, fee).(positions := Rehold(l.positions, sym, q, p, v, date).positions);
    if sym in l.positions {
      var h := l.positions[sym];
      HeldEquityAlgebra(l.cash, fee, q, p, MarketValue(l.positions), h.quantity, h.price,
                        MarketValue(after.positions), sym in after.positions);
    }
  }

  /** The effect of a successful order on equity: the fee is lost, the held
      quantity is revalued at the order's price, and a position removed for
      being negligible takes its residual market price with it. */
  lemma PlaceOrderEquity(model: FeeModel, l: Ledger, order: Order, date: Date)
    requires IsValid(order) == Ok(true) && order.quantity.Some? && Abs(order.quantity.value) >= Epsilon
    requires PlaceOrder(model, l, order, date).result.Ok?
    ensures var o := PlaceOrder(model, l, order, date);
      var q := order.quantity.value;
      var p := order.price.value;
      var sym := order.symbol.value;
      var fee := Fee(model, q, p);
      (sym !in l.positions ==> Equity(o.ledger) == Equity(l) - fee) &&
      (sym in l.positions ==>
        var h := l.positions[sym];
        Equity(o.ledger) == Equity(l) - fee + h.quantity * (p - h.price)
          - (if sym in o.ledger.positions then 0.0 else (h.quantity + q) * p))
  {
    PlaceOrderExecutes(model, l, order, date);
    ReholdEquity(l, Fee(model, order.quantity.value, order.price.value), order.symbol.value,
                 order.quantity.value, order.price.value, order.value_, date);
  }

  lemma HeldEquityAlgebra(cash: real, fee: real, q: real, p: real, mv: real, hq: real, hp: real, mv': real, kept: bool)
    requires mv' == mv - hq * hp + (if kept then (hq + q) * p else 0.0)
    ensures (cash - fee - q * p) + mv' == cash + mv - fee + hq * (p - hp) - (if kept then 0.0 else (hq + q) * p)
  {
    assert (hq + q) * p == hq * p + q * p;
    assert hq * (p - hp) == hq * p - hq * hp;
  }

  /** The effect of a successful order on nav: none at all (fees are not
      charged to cash_new), except that a position removed for being
      negligible takes its residual `value` with it, which the source's
      assertions bound by 2e-10. */
  lemma PlaceOrderNav(model: FeeModel, l: Ledger, order: Order, date: Date)
    requires IsValid(order) == Ok(true) && order.quantity.Some? && Abs(order.quantity.value) >= Epsilon
    requires PlaceOrder(model, l, order, date).result.Ok?
    ensures var o := PlaceOrder(model, l, order, date);
      var sym := order.symbol.value;
      (sym in o.ledger.positions ==> Nav(o.ledger) == Nav(l)) &&
      (sym !in o.ledger.positions ==>
        var residue := l.positions[sym].value + order.value_;
        Nav(o.ledger) == Nav(l) - residue && Abs(residue) < 2.0 * Epsilon)
  {
    ReholdSums(l.positions, order.symbol.value, order.quantity.value, order.price.value, order.value_, date);
  }

  /** to_relative_order: an unheld symbol or a None quantity leaves the
      order as it is; otherwise the holding must be priced on the date, and
      the order becomes the difference between the target and the holding,
      in quantity and in `_value`, at the same price. */
  function ToRelativeOrder(l: Ledger, order: Order, date: Date): (r: Result<Order>)
    ensures order.symbol.None? || order.symbol.value !in l.positions || order.quantity.None? ==> r == Ok(order)
    ensures order.symbol.Some? && order.symbol.value in l.positions && order.quantity.Some? ==>
      var h := l.positions[order.symbol.value];
      (r.Ok? <==> h.lastDateUpdated == Some(date)) &&
      (r.Ok? ==> r.value.symbol == order.symbol && r.value.price == order.price &&
                 r.value.quantity.Some? &&
                 h.quantity + r.value.quantity.value == order.quantity.value &&
                 h.value + r.value.value_ == order.value_)
  {
    if order.symbol.None? || order.symbol.value !in l.positions || order.quantity.None? then Ok(order)
    else
      var h := l.positions[order.symbol.value];
      if h.lastDateUpdated != Some(date) then Err(AssertionError(""))
      else Ok(Order(order.symbol, Some(order.quantity.value - h.quantity), order.price, order.value_ - h.value))
  }

  /** to_relative_order as written: the relative order is built with a
      fourth argument, the value difference, which the three-field Order
      does not take. */
  function ToRelativeOrderAsWritten(l: Ledger, order: Order, date: Date): (r: Result<Order>)
  {
    if order.symbol.None? || order.symbol.value !in l.positions || order.quantity.None? then Ok(order)
    else
      var h := l.positions[order.symbol.value];
      if h.lastDateUpdated != Some(date) then Err(AssertionError(""))
      else OrderCall(order.symbol, Some(order.quantity.value - h.quantity), order.price, [order.value_ - h.value])
  }

  /** As written, every order for a held symbol updated on the date
      raises TypeError where the intended version answers the relative
      order; for any other order the two agree. */
  lemma RelativeOrderAsWritten(l: Ledger, order: Order, date: Date)
    ensures order.symbol.Some? && order.symbol.value in l.positions && order.quantity.Some? &&
            l.positions[order.symbol.value].lastDateUpdated == Some(date) ==>
      ToRelativeOrderAsWritten(l, order, date) == Err(TypeError(TooManyArguments)) && ToRelativeOrder(l, order, date).Ok?
    ensures !(order.symbol.Some? && order.symbol.value in l.positions && order.quantity.Some? &&
              l.positions[order.symbol.value].lastDateUpdated == Some(date)) ==>
      ToRelativeOrderAsWritten(l, order, date) == ToRelativeOrder(l, order, date)
  {
  }

  /** order_position: place the order relative to what is held. */
  function OrderPosition(model: FeeModel, l: Ledger, order: Order, date: Date): Outcome<OrderResult> {
    match ToRelativeOrder(l, order, date)
    case Err(e) => Outcome(l, Err(e))
    case Ok(relative) => PlaceOrder(model, l, relative, date)
  }

  /** After a successful order_position the symbol is held at the target
      quantity up to the tolerance (exactly, when anything was traded), or
      is not held and the target was negligible. */
  lemma OrderPositionReachesTarget(model: FeeModel, l: Ledger, order: Order, date: Date)
    requires Keyed(l.positions)
    requires order.symbol.Some? && !IsBlank(order.symbol) && order.quantity.Some?
    requires order.price.Some? && order.price.value > 0.0
    requires OrderPosition(model, l, order, date).result.Ok?
    ensures var o := OrderPosition(model, l, order, date);
      var sym := order.symbol.value;
      var target := order.quantity.value;
      o.result.value.success &&
      (sym in o.ledger.positions ==> Abs(o.ledger.positions[sym].quantity - target) < Epsilon) &&
      (sym !in o.ledger.positions ==> Abs(target) < Epsilon)
  {
  }

  /** When the relative order trades at all, the holding ends exactly at
      the target quantity and the target `_value`. */
  lemma OrderPositionExact(model: FeeModel, l: Ledger, order: Order, date: Date)
    requires order.symbol.Some? && !IsBlank(order.symbol) && order.quantity.Some?
    requires order.price.Some? && order.price.value > 0.0
    requires OrderPosition(model, l, order, date).result.Ok?
    requires order.symbol.value in OrderPosition(model, l, order, date).ledger.positions
    requires order.symbol.value in l.positions ==>
      Abs(order.quantity.value - l.positions[order.symbol.value].quantity) >= Epsilon
    ensures var p := OrderPosition(model, l, order, date).ledger.positions[order.symbol.value];
      p.quantity == order.quantity.value && p.value == order.value_ && p.price == order.price.value
  {
  }

  /** order_position answers with an order for the same symbol. */
  lemma OrderPositionSymbol(model: FeeModel, l: Ledger, order: Order, date: Date)
    requires OrderPosition(model, l, order, date).result.Ok?
    ensures OrderPosition(model, l, order, date).result.value.order.symbol == order.symbol
  {
    var relative := ToRelativeOrder(l, order, date);
    assert relative.Ok? && relative.value.symbol == order.symbol;
    PlaceOrderAnswers(model, l, relative.value, date);
  }

  /** place_order answers for the order it was given. */
  lemma PlaceOrderAnswers(model: FeeModel, l: Ledger, order: Order, date: Date)
    ensures PlaceOrder(model, l, order, date).result.Ok? ==> PlaceOrder(model, l, order, date).result.value.order == order
  {
  }

  /** order_position touches no holding but its own symbol's. */
  lemma OrderPositionLocal(model: FeeModel, l: Ledger, order: Order, date: Date, s: string)
    requires order.symbol.Some? && s != order.symbol.value
    ensures var after := OrderPosition(model, l, order, date).ledger;
      (s in after.positions <==> s in l.positions) &&
      (s in l.positions ==> after.positions[s] == l.positions[s])
  {
    var relative := ToRelativeOrder(l, order, date);
    if relative.Ok? {
      PlaceOrderLocal(model, l, relative.value, date, s);
    }
  }

  lemma PlaceOrderLocal(model: FeeModel, l: Ledger, order: Order, date: Date, s: string)
    requires order.symbol.Some? && s != order.symbol.value
    ensures var after := PlaceOrder(model, l, order, date).ledger;
      (s in after.positions <==> s in l.positions) &&
      (s in l.positions ==> after.positions[s] == l.positions[s])
  {
    if IsValid(order) == Ok(true) && order.quantity.Some? && Abs(order.quantity.value) >= Epsilon {
      var q := order.quantity.value;
      var p := order.price.value;
      PlaceOrderExecutes(model, l, order, date);
      ReholdLocal(l.positions, order.symbol.value, q, p, order.value_, date, s);
    }
  }

  lemma ReholdLocal(positions: map<string, Position>, sym: string, q: real, p: real, v: real, date: Date, s: string)
    requires s != sym
    ensures var after := Rehold(positions, sym, q, p, v, date).positions;
      (s in after <==> s in positions) && (s in positions ==> after[s] == positions[s])
  {
  }

  /** An order_position that comes back unsuccessful changed nothing. */
  lemma OrderPositionUnsuccessful(model: FeeModel, l: Ledger, order: Order, date: Date)
    requires OrderPosition(model, l, order, date).result.Ok?
    requires !OrderPosition(model, l, order, date).result.value.success
    ensures OrderPosition(model, l, order, date).ledger == l
  {
  }

  /** close_position on the ledger: a blank symbol is refused; an unheld
      one is reported missing; a held one is sold off entirely at the given
      price, or at the holding's last price when none is given. */
  function ClosePosition(model: FeeModel, l: Ledger, symbol: Option<string>, price: Option<real>): Outcome<CloseResult> {
    var order := NewOrder(symbol, Some(0.0), price);
    var result := NewCloseResult(order);
    if IsBlank(symbol) then Outcome(l, Ok(result))
    else if symbol.value in l.positions then
      var h := l.positions[symbol.value];
      var p := if price.Some? then price.value else h.price;
      var closing := Order(symbol, Some(-h.quantity), Some(p), -h.value);
      var fee := Fee(model, -h.quantity, p);
      var paid := HandleCash(l, -h.quantity, p, -h.value, fee);
      Outcome(paid.(positions := l.positions - {symbol.value}), Ok(CloseResult(closing, true, false, fee)))
    else Outcome(l, Ok(result.(missing := true)))
  }

  /** A blank symbol, or one not held, changes nothing and is not a success;
      only the unheld one is reported missing. */
  lemma CloseWithoutHolding(model: FeeModel, l: Ledger, symbol: Option<string>, price: Option<real>)
    requires IsBlank(symbol) || symbol.value !in l.positions
    ensures var o := ClosePosition(model, l, symbol, price);
      o.ledger == l && o.result.Ok? && !o.result.value.success && o.result.value.fee == 0.0 &&
      (o.result.value.missing <==> !IsBlank(symbol))
  {
  }

  /** Closing a held symbol removes it, receives quantity times the price
      used, pays the fee, and revalues the position at that price before it
      leaves equity. */
  lemma {:induction false} CloseHeld(model: FeeModel, l: Ledger, symbol: string, price: Option<real>)
    requires !IsBlank(Some(symbol)) && symbol in l.positions
    ensures var o := ClosePosition(model, l, Some(symbol), price);
      var h := l.positions[symbol];
      var p := if price.Some? then price.value else h.price;
      var fee := Fee(model, -h.quantity, p);
      o.result.Ok? && o.result.value.success && !o.result.value.missing && o.result.value.fee == fee &&
      o.result.value.order.quantity == Some(-h.quantity) && o.result.value.order.price == Some(p) &&
      o.ledger.positions == l.positions - {symbol} &&
      o.ledger.cash == l.cash - fee + h.quantity * p &&
      o.ledger.cashNew == l.cashNew + h.value &&
      Equity(o.ledger) == Equity(l) - fee + h.quantity * (p - h.price) &&
      Nav(o.ledger) == Nav(l)
  {
    SumRemove(l.positions, symbol, MarketOf);
    SumRemove(l.positions, symbol, ValueOf);
  }

  /** Closing a held symbol succeeds and removes exactly that holding. */
  lemma CloseHeldRemoves(model: FeeModel, l: Ledger, symbol: string, price: Option<real>)
    requires !IsBlank(Some(symbol)) && symbol in l.positions
    ensures var o := ClosePosition(model, l, Some(symbol), price);
      o.result.Ok? && o.result.value.success && !o.result.value.missing &&
      o.ledger.positions == l.positions - {symbol}
  {
  }

  /** Closing at the last price with a free fee model leaves equity as it
      was (tests/test_account.py closes back to the initial cash). */
  lemma CloseAtLastPriceKeepsEquity(l: Ledger, symbol: string)
    requires !IsBlank(Some(symbol)) && symbol in l.positions
    ensures Equity(ClosePosition(Constant(0.0), l, Some(symbol), None).ledger) == Equity(l)
  {
    CloseHeld(Constant(0.0), l, symbol, None);
  }
}
