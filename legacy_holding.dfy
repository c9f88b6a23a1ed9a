/** backtest/holding.py: the holding of the older package, with no `value`
    and no date of its last price update. */
module LegacyHoldings {
  import opened Wrappers
  import opened LegacyOrders

  datatype Position = Position(symbol: string, quantity: real, price: real, upToDate: bool)
  {
    /** market_price: what the position is worth at its last price. */
    function MarketPrice(): real {
      quantity * price
    }
  }

  /** The position that merging an order into `p` produces. */
  function Merged(p: Position, quantity: real, price: real): (r: Position)
    ensures r.symbol == p.symbol
    ensures r.quantity - p.quantity == quantity && r.price == price && r.upToDate
  {
    p.(quantity := p.quantity + quantity, price := price, upToDate := true)
  }

  /** Holding.from_order: the order's symbol, quantity and price, up to date. */
  function FromOrder(symbol: string, quantity: real, price: real): (r: Position)
    ensures r.symbol == symbol && r.quantity == quantity && r.price == price && r.upToDate
  {
    Position(symbol, quantity, price, true)
  }

  /** What adding a None quantity raises. */
  const FloatPlusNone: string := "unsupported operand type(s) for +=: 'float' and 'NoneType'"

  /** The ValueError message of a merge with another symbol. */
  function DifferentSymbolMessage(mine: string, theirs: Option<string>): string {
    "cannot add different symbol: '" + mine + "' and '" + (if theirs.Some? then theirs.value else "None") + "'"
  }

  class Holding {
    var symbol: string
    var quantity: real
    var price: real
    var upToDate: bool

    function View(): Position
      reads this
    {
      Position(symbol, quantity, price, upToDate)
    }

    /** Holding(symbol, quantity, price, up_to_date). */
    constructor (symbol: string, quantity: real, price: real, upToDate: bool)
      ensures View() == Position(symbol, quantity, price, upToDate)
    {
      this.symbol := symbol;
      this.quantity := quantity;
      this.price := price;
      this.upToDate := upToDate;
    }

    /** market_price */
    function MarketPrice(): (r: real)
      reads this
      ensures r == View().MarketPrice()
    {
      quantity * price
    }

    /** merge: with another symbol, ValueError and no change; a None
        quantity raises TypeError before anything changes; otherwise adds
        the order's quantity, takes its price, marks the holding up to date
        and returns the holding itself. */
    method Merge(order: Order) returns (r: Result<Holding>)
      requires order.price.Some?
      modifies this
      ensures order.symbol != Some(old(symbol)) ==>
        r == Err(ValueError(DifferentSymbolMessage(old(symbol), order.symbol))) && View() == old(View())
      ensures order.symbol == Some(old(symbol)) && order.quantity.None? ==>
        r.Err? && r.error.TypeError? && View() == old(View())
      ensures order.symbol == Some(old(symbol)) && order.quantity.Some? ==>
        r == Ok(this) && View() == Merged(old(View()), order.quantity.value, order.price.value)
    {
      if order.symbol != Some(symbol) {
        return Err(ValueError(DifferentSymbolMessage(symbol, order.symbol)));
      }
      if order.quantity.None? {
        return Err(TypeError(FloatPlusNone));
      }
      quantity := quantity + order.quantity.value;
      price := order.price.value;
      upToDate := true;
      return Ok(this);
    }
  }

  /** Merging an order at the holding's own price moves the market price by
      the order's value (tests/test_holdings.py: 15 at 2 merged with 30 at 4
      holds 45 at 4). */
  lemma MergeMarketPrice(p: Position, quantity: real, price: real)
    ensures Merged(p, quantity, price).MarketPrice() == p.MarketPrice() + quantity * price + p.quantity * (price - p.price)
    ensures Merged(Position("AAPL", 15.0, 2.0, false), 30.0, 4.0) == Position("AAPL", 45.0, 4.0, true)
  {
  }
}
