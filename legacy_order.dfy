/** backtest/order/_model.py: the orders of the older package, which carry
    no `_value`; everything else reads as in the newer package, and is
    stated here through it. */
module LegacyOrders {
  import opened Wrappers
  import opened Utils
  import Orders

  datatype Order = Order(symbol: Option<string>, quantity: Option<real>, price: Option<real>)

  /** The same order in the newer package, whose `_value` is then 0.0. */
  function Current(o: Order): (r: Orders.Order)
    ensures r.symbol == o.symbol && r.quantity == o.quantity && r.price == o.price && r.value_ == 0.0
  {
    Orders.NewOrder(o.symbol, o.quantity, o.price)
  }

  /** value: quantity times price; None in either raises TypeError. */
  function Value(o: Order): (r: Result<real>)
    ensures r.Ok? <==> o.quantity.Some? && o.price.Some?
    ensures r.Ok? ==> r.value == o.quantity.value * o.price.value
    ensures r.Err? ==> r.error.TypeError?
  {
    Orders.Value(Current(o))
  }

  /** direction: the sign of the quantity, as SELL, HOLD or BUY. */
  function GetDirection(o: Order): (r: Result<Orders.Direction>)
    ensures r.Ok? <==> o.quantity.Some?
    ensures r.Ok? ==> Orders.DirectionCode(r.value) == Signum(o.quantity.value)
  {
    Orders.GetDirection(Current(o))
  }

  /** valid: a non-blank symbol and a positive price (a None price behind a
      non-blank symbol raises TypeError). */
  function IsValid(o: Order): (r: Result<bool>)
    ensures r == Ok(true) <==> !IsBlank(o.symbol) && o.price.Some? && o.price.value > 0.0
    ensures r.Err? <==> !IsBlank(o.symbol) && o.price.None?
    ensures IsBlank(o.symbol) ==> r == Ok(false)
  {
    Orders.IsValid(Current(o))
  }

  datatype OrderResult = OrderResult(order: Order, success: bool, fee: real)

  datatype CloseResult = CloseResult(order: Order, success: bool, missing: bool, fee: real)

  /** OrderResult(order=order): not successful and free. */
  function NewOrderResult(order: Order): (r: OrderResult)
    ensures r.order == order && !r.success && r.fee == 0.0
  {
    OrderResult(order, false, 0.0)
  }

  /** CloseResult(order=order): neither successful nor missing, and free. */
  function NewCloseResult(order: Order): (r: CloseResult)
    ensures r.order == order && !r.success && !r.missing && r.fee == 0.0
  {
    CloseResult(order, false, false, 0.0)
  }
}
