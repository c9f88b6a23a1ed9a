/** backtest/account.py: the account object of the older package, whose
    methods update its cash and its holdings map in place, each proved to
    end in the state that the matching function of `LegacyLedgers`
    describes. */
module LegacyAccounts {
  import opened Wrappers
  import opened Utils
  import opened LegacyOrders
  import opened LegacyHoldings
  import opened Fees
  import opened Sums
  import opened LegacyLedgers

  class Account {
    const initialCash: real
    const feeModel: FeeModel
    var cash: real
    var holdings: map<string, Holding>
    ghost var Repr: set<object>

    ghost predicate Valid()
      reads this, Repr
    {
      this in Repr &&
      (forall s :: s in holdings ==> holdings[s] in Repr && holdings[s].symbol == s) &&
      (forall s, t :: s in holdings && t in holdings && s != t ==> holdings[s] != holdings[t])
    }

    /** The account as a value. */
    function State(): Ledger
      reads this, Repr
      requires this in Repr && forall s :: s in holdings ==> holdings[s] in Repr
    {
      Ledger(cash, map s | s in holdings :: holdings[s].View())
    }

    /** Account(initial_cash, fee_model): no holdings, the initial cash, and a
        free constant fee model when none is given. */
    constructor (initialCash: real, feeModel: Option<FeeModel>)
      ensures Valid() && fresh(Repr)
      ensures State() == Ledger(initialCash, map[])
      ensures this.initialCash == initialCash
      ensures this.feeModel == if feeModel.Some? then feeModel.value else Constant(0.0)
    {
      this.initialCash := initialCash;
      this.feeModel := if feeModel.Some? then feeModel.value else Constant(0.0);
      cash := initialCash;
      holdings := map[];
      Repr := {this};
    }

    /** symbols */
    function Symbols(): (r: set<string>)
      reads this, Repr
      requires Valid()
      ensures r == State().positions.Keys
    {
      holdings.Keys
    }

    /** find_holding */
    function FindHolding(symbol: string): (r: Option<Holding>)
      reads this
      ensures r.Some? <==> symbol in holdings
      ensures r.Some? ==> r.value == holdings[symbol]
    {
      if symbol in holdings then Some(holdings[symbol]) else None
    }

    /** After writes to the fields of one holding object and of no other
        object of the account, the ledger shows that holding's new view. */
    twostate lemma HoldingWritten(sym: string)
      requires old(Valid()) && sym in old(holdings) && unchanged(this) && holdings[sym].symbol == sym
      requires forall t :: t in old(holdings) && t != sym ==> unchanged(old(holdings[t]))
      ensures Valid() && State() == old(State()).(positions := old(State()).positions[sym := holdings[sym].View()])
    {
      assert State().positions == old(State()).positions[sym := holdings[sym].View()];
    }

    /** value: loops over the holdings, adding up their market prices. */
    method Value() returns (r: real)
      requires Valid()
      ensures r == MarketValue(State().positions)
    {
      var rest := State().positions;
      r := 0.0;
      while rest != map[]
        invariant r + Sum(rest, MarketOf) == MarketValue(State().positions)
        decreases |rest|
      {
        var s :| s in rest;
        SumRemove(rest, s, MarketOf);
        r := r + rest[s].MarketPrice();
        rest := rest - {s};
      }
    }

    /** equity */
    method Equity() returns (r: real)
      requires Valid()
      ensures r == LegacyLedgers.Equity(State())
    {
      var value := Value();
      r := cash + value;
    }

    /** _handle_cash */
    method HandleCash(quantity: real, price: real, fee: real)
      requires Valid()
      modifies this
      ensures Valid() && Repr == old(Repr) && holdings == old(holdings)
      ensures State() == LegacyLedgers.HandleCash(old(State()), quantity, price, fee)
    {
      cash := cash - fee;
      cash := cash - quantity * price;
    }

    /** A new holding for a symbol not held yet. */
    method AddHolding(sym: string, quantity: real, price: real)
      requires Valid() && sym !in holdings
      modifies this
      ensures Valid() && fresh(Repr - old(Repr))
      ensures State() == old(State()).(positions := old(State()).positions[sym := FromOrder(sym, quantity, price)])
    {
      ghost var before := State();
      var holding := new Holding(sym, quantity, price, true);
      holdings := holdings[sym := holding];
      Repr := Repr + {holding};
      assert State().positions == before.positions[sym := holding.View()];
    }

    /** `del self._holdings[symbol]`. */
    method RemoveHolding(sym: string)
      requires Valid() && sym in holdings
      modifies this
      ensures Valid() && Repr == old(Repr)
      ensures State() == old(State()).(positions := old(State()).positions - {sym})
    {
      ghost var before := State();
      holdings := holdings - {sym};
      assert State().positions == before.positions - {sym};
    }

    /** The holdings part of place_order, in place. */
    method Rehold(sym: string, order: Order)
      requires Valid()
      requires order.symbol == Some(sym) && order.quantity.Some? && order.price.Some?
      modifies Repr
      ensures Valid() && fresh(Repr - old(Repr))
      ensures State() == old(State()).(positions := LegacyLedgers.Rehold(old(State()).positions, sym, order.quantity.value, order.price.value))
    {
      ghost var before := State();
      var found := FindHolding(sym);
      if found.None? {
        AddHolding(sym, order.quantity.value, order.price.value);
        return;
      }
      var holding := found.value;
      var merged := holding.Merge(order);
      assert State().positions == before.positions[sym := holding.View()];
      if holding.quantity == 0.0 {
        RemoveHolding(sym);
      }
    }

    /** place_order, in place. */
    method PlaceOrder(order: Order) returns (r: Result<OrderResult>)
      requires Valid()
      modifies Repr
      ensures Valid() && fresh(Repr - old(Repr))
      ensures Outcome(State(), r) == LegacyLedgers.PlaceOrder(feeModel, old(State()), order)
    {
      var result := NewOrderResult(order);
      var valid := IsValid(order);
      if valid.Err? {
        return Err(valid.error);
      }
      if !valid.value {
        return Ok(result);
      }
      result := result.(success := true);
      if order.quantity == Some(0.0) {
        return Ok(result);
      }
      var fee := GetOrderFee(feeModel, order.quantity, order.price);
      if fee.Err? {
        return Err(fee.error);
      }
      result := result.(fee := fee.value);
      if order.quantity.None? {
        cash := cash - fee.value;
        return Err(TypeError(NoneTimesFloat));
      }
      HandleCash(order.quantity.value, order.price.value, fee.value);
      Rehold(order.symbol.value, order);
      return Ok(result);
    }

    /** to_relative_order, reading the holdings in place. */
    method ToRelativeOrder(order: Order) returns (r: Order)
      requires Valid()
      ensures r == LegacyLedgers.ToRelativeOrder(State(), order)
    {
      if order.symbol.None? {
        return order;
      }
      var found := FindHolding(order.symbol.value);
      if found.None? || order.quantity.None? {
        return order;
      }
      return Order(order.symbol, Some(order.quantity.value - found.value.quantity), order.price);
    }

    /** order_position */
    method OrderPosition(order: Order) returns (r: Result<OrderResult>)
      requires Valid()
      modifies Repr
      ensures Valid() && fresh(Repr - old(Repr))
      ensures Outcome(State(), r) == LegacyLedgers.OrderPosition(feeModel, old(State()), order)
    {
      var relative := ToRelativeOrder(order);
      r := PlaceOrder(relative);
    }

    /** close_position, in place. */
    method ClosePosition(symbol: Option<string>, price: Option<real>) returns (r: Result<CloseResult>)
      requires Valid()
      modifies Repr
      ensures Valid() && Repr <= old(Repr)
      ensures Outcome(State(), r) == LegacyLedgers.ClosePosition(feeModel, old(State()), symbol, price)
    {
      var order := Order(symbol, Some(0.0), price);
      var result := NewCloseResult(order);
      if IsBlank(symbol) {
        return Ok(result);
      }
      result := result.(success := true);
      var found := FindHolding(symbol.value);
      if found.None? {
        return Ok(result.(missing := true));
      }
      var holding := found.value;
      var p := if price.Some? then price.value else holding.price;
      order := Order(symbol, Some(-holding.quantity), Some(p));
      var fee := Fee(feeModel, -holding.quantity, p);
      HandleCash(-holding.quantity, p, fee);
      RemoveHolding(symbol.value);
      return Ok(CloseResult(order, true, false, fee));
    }
  }

  /** The keyword parameters of Account.__init__. */
  const AccountParameters: set<string> := {"initial_cash", "fee_model"}

  /** The attributes an Account has: the fields its constructor sets, its
      properties and its methods.  There is no `__getitem__` among them. */
  const AccountAttributes: set<string> :=
    {"initial_cash", "fee_model", "cash", "_holdings", "value", "equity", "symbols", "holdings",
     "find_holding", "place_order", "order_position", "close_position", "to_relative_order", "_handle_cash"}

  /** `Account(**keywords)`: the first keyword Account.__init__ does not
      declare raises TypeError. */
  function CallAccount(keywords: seq<string>): (r: Result<()>)
    ensures r.Ok? <==> forall i :: 0 <= i < |keywords| ==> keywords[i] in AccountParameters
    ensures keywords != [] && keywords[0] !in AccountParameters ==>
      r == Err(TypeError("Account.__init__() got an unexpected keyword argument '" + keywords[0] + "'"))
    ensures r.Err? ==> r.error.TypeError?
  {
    if keywords == [] then Ok(())
    else if keywords[0] !in AccountParameters then
      Err(TypeError("Account.__init__() got an unexpected keyword argument '" + keywords[0] + "'"))
    else
      var rest := CallAccount(keywords[1..]);
      assert forall i :: 1 <= i < |keywords| ==> keywords[i] == keywords[1..][i - 1];
      rest
  }

  /** `account.name`: AttributeError for a name Account does not define. */
  function AccountAttribute(name: string): (r: Result<()>)
    ensures r.Ok? <==> name in AccountAttributes
    ensures r.Err? ==> r.error == AttributeError("'Account' object has no attribute '" + name + "'")
  {
    if name in AccountAttributes then Ok(()) else Err(AttributeError("'Account' object has no attribute '" + name + "'"))
  }
}
