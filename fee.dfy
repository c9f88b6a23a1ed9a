/** backtest/fee.py: the fee charged for an order.  An order is seen here
    only through its quantity and price, which are the only two attributes
    the fee models read; a missing order or attribute is `None`. */
module Fees {
  import opened Wrappers
  import opened Utils

  /** A variable an ExpressionFeeModel's expression can mention. */
  datatype Variable = Quantity | Price

  /** The expression of an ExpressionFeeModel (the expression parser is not
      modelled): the variables it mentions, and its value once `quantity`
      and `price` are bound to numbers.  `evaluate` binds both variables,
      but only the ones the expression mentions are read. */
  datatype Expression = Expression(uses: set<Variable>, eval: (real, real) -> real)

  /** An expression reads only the variables it mentions: the value passed
      for any other one does not change its result. */
  ghost predicate ReadsOnlyUses(e: Expression) {
    (Quantity !in e.uses ==> forall q, p :: e.eval(q, p) == e.eval(0.0, p))
    && (Price !in e.uses ==> forall q, p :: e.eval(q, p) == e.eval(q, 0.0))
  }

  datatype FeeModel =
    | Base                               // FeeModel itself: 0.0
    | Constant(amount: real)             // ConstantFeeModel(value)
    | Evaluated(expression: Expression)  // ExpressionFeeModel(expression)

  /** What an arithmetic operator of a fee expression raises on None. */
  const Unevaluated: string := "unsupported operand type(s) for NoneType"

  /** get_order_fee for an order whose quantity and price are both set. */
  function Fee(model: FeeModel, quantity: real, price: real): (r: real)
    ensures model.Base? ==> r == 0.0
    ensures model.Constant? ==> r == model.amount
    ensures model.Evaluated? ==> r == model.expression.eval(quantity, price)
  {
    match model
    case Base => 0.0
    case Constant(amount) => amount
    case Evaluated(expression) => expression.eval(quantity, price)
  }

  /** Every variable the expression mentions is bound to a number. */
  predicate Bound(e: Expression, quantity: Option<real>, price: Option<real>) {
    (Quantity in e.uses ==> quantity.Some?) && (Price in e.uses ==> price.Some?)
  }

  /** The number bound to a variable; one bound to None is passed as 0.0,
      which is only done for a variable the expression does not read. */
  function OrZero(x: Option<real>): real {
    if x.Some? then x.value else 0.0
  }

  /** get_order_fee on an arbitrary order: the constant model never looks at
      the order; an expression fails exactly when a variable it mentions is
      None, and otherwise charges its value. */
  function GetOrderFee(model: FeeModel, quantity: Option<real>, price: Option<real>): (r: Result<real>)
    ensures !model.Evaluated? ==> r.Ok?
    ensures r.Ok? <==> !model.Evaluated? || Bound(model.expression, quantity, price)
    ensures r.Err? ==> r.error == TypeError(Unevaluated)
    ensures quantity.Some? && price.Some? ==> r == Ok(Fee(model, quantity.value, price.value))
  {
    match model
    case Evaluated(expression) =>
      if Bound(expression, quantity, price) then Ok(expression.eval(OrZero(quantity), OrZero(price)))
      else Err(TypeError(Unevaluated))
    case _ => Ok(Fee(model, 0.0, 0.0))
  }

  /** Two orders that agree on every variable an expression mentions are
      charged the same, whatever they hold for the others, None included. */
  lemma OnlyMentionedVariablesRead(e: Expression, q1: Option<real>, p1: Option<real>, q2: Option<real>, p2: Option<real>)
    requires ReadsOnlyUses(e)
    requires Quantity in e.uses ==> q1 == q2
    requires Price in e.uses ==> p1 == p2
    ensures GetOrderFee(Evaluated(e), q1, p1) == GetOrderFee(Evaluated(e), q2, p2)
  {
    if Bound(e, q1, p1) {
      var a, b, c, d := OrZero(q1), OrZero(p1), OrZero(q2), OrZero(p2);
      if Quantity !in e.uses {
        assert e.eval(a, b) == e.eval(0.0, b) && e.eval(c, b) == e.eval(0.0, b);
      }
      assert e.eval(a, b) == e.eval(c, b);
      if Price !in e.uses {
        assert e.eval(c, b) == e.eval(c, 0.0) && e.eval(c, d) == e.eval(c, 0.0);
      }
      assert e.eval(c, b) == e.eval(c, d);
    }
  }

  /** A fee on the price alone is charged for an order without a quantity:
      0.001 of a price of 10 is 0.01. */
  lemma PriceOnlyFee()
    ensures GetOrderFee(Evaluated(Expression({Price}, (q: real, p: real) => p * 0.001)), None, Some(10.0)) == Ok(0.01)
    ensures GetOrderFee(Evaluated(Expression({Price}, (q: real, p: real) => p * 0.001)), None, None).Err?
  {
  }

  /** A constant model charges its amount for every order, even None. */
  lemma ConstantIgnoresOrder(amount: real, quantity: Option<real>, price: Option<real>)
    ensures GetOrderFee(Constant(amount), quantity, price) == Ok(amount)
    ensures GetOrderFee(Constant(amount), None, None) == Ok(amount)
  {
  }

  function Max(a: real, b: real): real {
    if a < b then b else a
  }

  /** "max(abs(price * quantity) * 0.01, 1)", a broker-style fee. */
  function BrokerFee(quantity: real, price: real): (r: real)
    ensures r >= 1.0
    ensures r >= Abs(price * quantity) / 100.0
  {
    Max(Abs(price * quantity) * 0.01, 1.0)
  }

  /** The two orders priced by the broker-style expression in tests/test_fee.py. */
  lemma BrokerFeeExamples()
    ensures GetOrderFee(Evaluated(Expression({Quantity, Price}, BrokerFee)), Some(1.0), Some(20.0)) == Ok(1.0)
    ensures GetOrderFee(Evaluated(Expression({Quantity, Price}, BrokerFee)), Some(150.0), Some(20.0)) == Ok(30.0)
  {
    assert BrokerFee(1.0, 20.0) == 1.0;
    assert BrokerFee(150.0, 20.0) == 30.0;
  }
}
