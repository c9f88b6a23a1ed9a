/** bktest/account.py: the account object, whose methods update its cash
    figures and its holdings map in place, each proved to end in the state
    that the matching function of `Ledgers` describes. */
module Accounts {
  import opened Wrappers
  import opened Utils
  import opened Calendar
  import opened Orders
  import opened Holdings
  import opened Fees
  import opened Sums
  import opened Ledgers

  class Account {
    const initialCash: real
    const feeModel: FeeModel
    var cash: real
    var cashNew: real
    var holdings: map<string, Holding>
    ghost var Repr: set<object>

    ghost predicate Valid()
      reads this, Repr
    {
      this in Repr &&
      (forall s :: s in holdings ==> holdings[s] in Repr && holdings[s].symbol == s) &&
      (forall s, t :: s in holdings && t in holdings && s != t ==> holdings[s] != holdings[t])
    }

    /** The account as a value. */
    function State(): Ledger
      reads this, Repr
      requires this in Repr && forall s :: s in holdings ==> holdings[s] in Repr
    {
      Ledger(cash, cashNew, map s | s in holdings :: holdings[s].View())
    }

    /** Account(initial_cash, fee_model): no holdings, both cash figures at
        the initial cash, and a free constant fee model when none is given. */
    constructor (initialCash: real, feeModel: Option<FeeModel>)
      ensures Valid() && fresh(Repr)
      ensures State() == Ledger(initialCash, initialCash, map[])
      ensures this.initialCash == initialCash
      ensures this.feeModel == if feeModel.Some? then feeModel.value else Constant(0.0)
    {
      this.initialCash := initialCash;
      this.feeModel := if feeModel.Some? then feeModel.value else Constant(0.0);
      cash := initialCash;
      cashNew := initialCash;
      holdings := map[];
      Repr := {this};
    }

    /** symbols */
    function Symbols(): (r: set<string>)
      reads this, Repr
      requires Valid()
      ensures r == State().positions.Keys
    {
      holdings.Keys
    }

    /** find_holding */
    function FindHolding(symbol: string): (r: Option<Holding>)
      reads this
      ensures r.Some? <==> symbol in holdings
      ensures r.Some? ==> r.value == holdings[symbol]
    {
      if symbol in holdings then Some(holdings[symbol]) else None
    }

    /** value: loops over the holdings, adding up their market prices. */
    method Value() returns (r: real)
      requires Valid()
      ensures r == MarketValue(State().positions)
    {
      var rest := State().positions;
      r := 0.0;
      while rest != map[]
        invariant r + Sum(rest, MarketOf) == MarketValue(State().positions)
        decreases |rest|
      {
        var s :| s in rest;
        SumRemove(rest, s, MarketOf);
        r := r + rest[s].MarketPrice();
        rest := rest - {s};
      }
    }

    /** equity */
    method Equity() returns (r: real)
      requires Valid()
      ensures r == Ledgers.Equity(State())
    {
      var value := Value();
      r := cash + value;
    }

    /** equity_new: loops over the holdings, adding up their `value`. */
    method EquityNew() returns (r: real)
      requires Valid()
      ensures r == Ledgers.EquityNew(State().positions)
    {
      var rest := State().positions;
      r := 0.0;
      while rest != map[]
        invariant r + Sum(rest, ValueOf) == Ledgers.EquityNew(State().positions)
        decreases |rest|
      {
        var s :| s in rest;
        SumRemove(rest, s, ValueOf);
        r := r + rest[s].value;
        rest := rest - {s};
      }
    }

    /** nav */
    method Nav() returns (r: real)
      requires Valid()
      ensures r == Ledgers.Nav(State())
    {
      var equityNew := EquityNew();
      r := cashNew + equityNew;
    }

    method HandleCash(quantity: real, price: real, value_: real, fee: real)
      requires Valid()
      modifies this
      ensures Valid() && Repr == old(Repr) && holdings == old(holdings)
      ensures State() == Ledgers.HandleCash(old(State()), quantity, price, value_, fee)
    {
      cash := cash - fee;
      cash := cash - quantity * price;
      cashNew := cashNew - value_;
    }

    /** A new holding for a symbol not held yet. */
    method AddHolding(sym: string, order: Order, date: Date) returns (failure: Option<Error>)
      requires Valid() && sym !in holdings
      requires order.quantity.Some? && order.price.Some?
      modifies this
      ensures Valid() && fresh(Repr - old(Repr)) && failure.None?
      ensures State() == old(State()).(positions := old(State()).positions[sym :=
        FromOrder(sym, order.quantity.value, order.price.value, order.value_, Some(date))])
    {
      ghost var before := State();
      var holding := new Holding(sym, order.quantity.value, order.price.value, order.value_, true, Some(date));
      holdings := holdings[sym := holding];
      Repr := Repr + {holding};
      assert State().positions == before.positions[sym := holding.View()];
      failure := None;
    }

    /** After writes to the fields of one holding object and of no other
        object of the account, the ledger shows that holding's new view. */
    twostate lemma HoldingWritten(sym: string)
      requires old(Valid()) && sym in old(holdings) && unchanged(this) && holdings[sym].symbol == sym
      requires forall t :: t in old(holdings) && t != sym ==> unchanged(old(holdings[t]))
      ensures Valid() && State() == old(State()).(positions := old(State()).positions[sym := holdings[sym].View()])
    {
      assert State().positions == old(State()).positions[sym := holdings[sym].View()];
    }

    /** The holdings part of place_order, in place: merges into the held
        holding object or files a new one. */
    method Rehold(sym: string, order: Order, date: Date) returns (failure: Option<Error>)
      requires Valid()
      requires order.symbol == Some(sym) && order.quantity.Some? && order.price.Some?
      modifies Repr
      ensures Valid() && fresh(Repr - old(Repr))
      ensures var rehold := Ledgers.Rehold(old(State()).positions, sym, order.quantity.value, order.price.value, order.value_, date);
        State() == old(State()).(positions := rehold.positions) && failure == rehold.failure
    {
      ghost var before := State();
      var found := FindHolding(sym);
      if found.None? {
        failure := AddHolding(sym, order, date);
        return;
      }
      var holding := found.value;
      if holding.lastDateUpdated != Some(date) {
        return Some(AssertionError(NotUpToDate));
      }
      var merged := holding.Merge(order);
      assert State().positions == before.positions[sym := holding.View()];
      if Abs(holding.quantity) < Epsilon {
        if !(Abs(holding.value - holding.quantity) < Epsilon) {
          return Some(AssertionError(""));
        }
        RemoveHolding(sym);
      }
      return None;
    }

    /** place_order, in place. */
    method PlaceOrder(order: Order, date: Date) returns (r: Result<OrderResult>)
      requires Valid()
      modifies Repr
      ensures Valid() && fresh(Repr - old(Repr))
      ensures Outcome(State(), r) == Ledgers.PlaceOrder(feeModel, old(State()), order, date)
    {
      var result := NewOrderResult(order);
      var valid := IsValid(order);
      if valid.Err? {
        return Err(valid.error);
      }
      if !valid.value {
        return Ok(result);
      }
      if order.quantity.None? {
        return Err(TypeError(NoAbs));
      }
      var q := order.quantity.value;
      var p := order.price.value;
      if Abs(q) < Epsilon {
        if !(Abs(q - order.value_) < Epsilon) {
          return Err(AssertionError(""));
        }
        return Ok(result.(success := true));
      }
      var fee := Fee(feeModel, q, p);
      HandleCash(q, p, order.value_, fee);
      result := result.(success := true, fee := fee);
      var failure := Rehold(order.symbol.value, order, date);
      if failure.Some? {
        return Err(failure.value);
      }
      return Ok(result);
    }

    /** to_relative_order, reading the holdings in place. */
    method ToRelativeOrder(order: Order, date: Date) returns (r: Result<Order>)
      requires Valid()
      ensures r == Ledgers.ToRelativeOrder(State(), order, date)
    {
      if order.symbol.None? {
        return Ok(order);
      }
      var found := FindHolding(order.symbol.value);
      if found.None? || order.quantity.None? {
        return Ok(order);
      }
      var holding := found.value;
      if holding.lastDateUpdated != Some(date) {
        return Err(AssertionError(""));
      }
      return Ok(Order(order.symbol, Some(order.quantity.value - holding.quantity), order.price, order.value_ - holding.value));
    }

    /** order_position */
    method OrderPosition(order: Order, date: Date) returns (r: Result<OrderResult>)
      requires Valid()
      modifies Repr
      ensures Valid() && fresh(Repr - old(Repr))
      ensures Outcome(State(), r) == Ledgers.OrderPosition(feeModel, old(State()), order, date)
    {
      var relative := ToRelativeOrder(order, date);
      if relative.Err? {
        return Err(relative.error);
      }
      r := PlaceOrder(relative.value, date);
    }

    /** `del self._holdings[symbol]`. */
    method RemoveHolding(sym: string)
      requires Valid() && sym in holdings
      modifies this
      ensures Valid() && Repr == old(Repr)
      ensures State() == old(State()).(positions := old(State()).positions - {sym})
    {
      ghost var before := State();
      holdings := holdings - {sym};
      assert State().positions == before.positions - {sym};
    }

    /** close_position, in place. */
    method ClosePosition(symbol: Option<string>, price: Option<real>) returns (r: Result<CloseResult>)
      requires Valid()
      modifies Repr
      ensures Valid() && Repr <= old(Repr)
      ensures Outcome(State(), r) == Ledgers.ClosePosition(feeModel, old(State()), symbol, price)
    {
      var order := NewOrder(symbol, Some(0.0), price);
      var result := NewCloseResult(order);
      if IsBlank(symbol) {
        return Ok(result);
      }
      var found := FindHolding(symbol.value);
      if found.None? {
        return Ok(result.(missing := true));
      }
      var holding := found.value;
      ghost var l := State();
      assert l.positions[symbol.value] == holding.View();
      var p := if price.Some? then price.value else holding.price;
      order := Order(symbol, Some(-holding.quantity), Some(p), -holding.value);
      var fee := Fee(feeModel, -holding.quantity, p);
      HandleCash(-holding.quantity, p, -holding.value, fee);
      ghost var paid := State();
      RemoveHolding(symbol.value);
      assert State() == paid.(positions := l.positions - {symbol.value});
      return Ok(CloseResult(order, true, false, fee));
    }
  }
}
