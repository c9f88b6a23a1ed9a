/** bktest/holding.py: a position held in an account, updated in place when
    further orders on its symbol are placed. */
module Holdings {
  import opened Wrappers
  import opened Calendar
  import opened Orders

  /** The fields of a holding, as a value. */
  datatype Position = Position(
    symbol: string,
    quantity: real,
    price: real,
    value: real,
    upToDate: bool,
    lastDateUpdated: Option<Date>)
  {
    /** market_price: what the position is worth at its last price. */
    function MarketPrice(): real {
      quantity * price
    }
  }

  /** The position that merging `order` into `p` produces. */
  function Merged(p: Position, quantity: real, price: real, value_: real): (r: Position)
    ensures r.symbol == p.symbol && r.lastDateUpdated == p.lastDateUpdated
    ensures r.quantity - p.quantity == quantity && r.value - p.value == value_
    ensures r.price == price && r.upToDate
  {
    p.(quantity := p.quantity + quantity, price := price, value := p.value + value_, upToDate := true)
  }

  /** Holding.from_order: a fresh, up-to-date position with the order's
      symbol, quantity, price and `_value`. */
  function FromOrder(symbol: string, quantity: real, price: real, value_: real, date: Option<Date>): (r: Position)
    ensures r.symbol == symbol && r.quantity == quantity && r.price == price && r.value == value_
    ensures r.upToDate && r.lastDateUpdated == date
  {
    Position(symbol, quantity, price, value_, true, date)
  }

  /** What adding a None quantity raises. */
  const FloatPlusNone: string := "unsupported operand type(s) for +=: 'float' and 'NoneType'"

  /** The ValueError message of a merge with another symbol. */
  function DifferentSymbolMessage(mine: string, theirs: Option<string>): string {
    "cannot add different symbol: '" + mine + "' and '" + (if theirs.Some? then theirs.value else "None") + "'"
  }

  /** __repr__: "SYMBOLxQUANTITY"; `show` is Python's str() of a number. */
  function Repr(p: Position, show: real -> string): (r: string)
    ensures |r| == |p.symbol| + 1 + |show(p.quantity)|
    ensures r[..|p.symbol|] == p.symbol && r[|p.symbol|] == 'x' && r[|p.symbol| + 1..] == show(p.quantity)
  {
    p.symbol + "x" + show(p.quantity)
  }

  /** __str__: the repr followed by "@PRICE". */
  function Str(p: Position, show: real -> string): (r: string)
    ensures r == Repr(p, show) + "@" + show(p.price)
    ensures |r| == |p.symbol| + |show(p.quantity)| + |show(p.price)| + 2
  {
    Repr(p, show) + "@" + show(p.price)
  }

  class Holding {
    var symbol: string
    var quantity: real
    var price: real
    var value: real
    var upToDate: bool
    var lastDateUpdated: Option<Date>

    function View(): Position
      reads this
    {
      Position(symbol, quantity, price, value, upToDate, lastDateUpdated)
    }

    /** Holding(symbol, quantity, price, value, up_to_date, date). */
    constructor (symbol: string, quantity: real, price: real, value: real, upToDate: bool, date: Option<Date>)
      ensures View() == Position(symbol, quantity, price, value, upToDate, date)
    {
      this.symbol := symbol;
      this.quantity := quantity;
      this.price := price;
      this.value := value;
      this.upToDate := upToDate;
      this.lastDateUpdated := date;
    }

    /** market_price */
    function MarketPrice(): (r: real)
      reads this
      ensures r == View().MarketPrice()
    {
      quantity * price
    }

    /** merge: with another symbol, ValueError and no change; a None
        quantity raises TypeError before anything changes; otherwise adds
        the order's quantity and `_value`, takes its price, marks the holding
        up to date, and returns the holding itself. */
    method Merge(order: Order) returns (r: Result<Holding>)
      requires order.price.Some?
      modifies this
      ensures order.symbol != Some(old(symbol)) ==>
        r == Err(ValueError(DifferentSymbolMessage(old(symbol), order.symbol))) && View() == old(View())
      ensures order.symbol == Some(old(symbol)) && order.quantity.None? ==>
        r.Err? && r.error.TypeError? && View() == old(View())
      ensures order.symbol == Some(old(symbol)) && order.quantity.Some? ==>
        r == Ok(this) && View() == Merged(old(View()), order.quantity.value, order.price.value, order.value_)
    {
      if order.symbol != Some(symbol) {
        return Err(ValueError(DifferentSymbolMessage(symbol, order.symbol)));
      }
      if order.quantity.None? {
        return Err(TypeError(FloatPlusNone));
      }
      quantity := quantity + order.quantity.value;
      price := order.price.value;
      value := value + order.value_;
      upToDate := true;
      return Ok(this);
    }
  }

  /** Merging keeps the symbol and the date of the last price update, and
      moves the market price by the order's own value when the price does
      not change. */
  lemma MergeAtSamePrice(p: Position, quantity: real, value_: real)
    ensures Merged(p, quantity, p.price, value_).MarketPrice() == p.MarketPrice() + quantity * p.price
  {
  }

  /** tests/test_holdings.py: "AAPLx15@2" and "AAPLx15". */
  lemma StrExample(show: real -> string)
    requires show(15.0) == "15" && show(2.0) == "2"
    ensures Repr(Position("AAPL", 15.0, 2.0, 0.0, false, None), show) == "AAPLx15"
    ensures Str(Position("AAPL", 15.0, 2.0, 0.0, false, None), show) == "AAPLx15@2"
  {
  }
}
