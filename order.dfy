/** bktest/order.py: orders, their results, and the order provider that
    reads orders from a table with one row per (date, symbol, quantity). */
module Orders {
  import opened Wrappers
  import opened Utils
  import opened Calendar

  datatype Direction = Sell | Hold | Buy

  /** OrderDirection is an IntEnum: SELL = -1, HOLD = 0, BUY = 1. */
  function DirectionCode(d: Direction): (r: int)
    ensures -1 <= r <= 1
  {
    match d
    case Sell => -1
    case Hold => 0
    case Buy => 1
  }

  /** An order carries a signed delta quantity.  `value_` is the `_value`
      attribute that the account, the holding and the backtester read and
      write on every order (the target cash value of the position); an
      order read from a table has none, and it is 0.0 here. */
  datatype Order = Order(symbol: Option<string>, quantity: Option<real>, price: Option<real>, value_: real)

  /** Order(symbol, quantity, price): the three-argument construction. */
  function NewOrder(symbol: Option<string>, quantity: Option<real>, price: Option<real>): (r: Order)
    ensures r.symbol == symbol && r.quantity == quantity && r.price == price && r.value_ == 0.0
  {
    Order(symbol, quantity, price, 0.0)
  }

  /** What `Order(...)` raises when called with more positional arguments
      than the dataclass's three fields. */
  const TooManyArguments: string := "Order.__init__() takes 4 positional arguments but 5 were given"

  /** `Order(symbol, quantity, price, *extra)` against the three-field
      dataclass: any argument after the price raises TypeError. */
  function OrderCall(symbol: Option<string>, quantity: Option<real>, price: Option<real>, extra: seq<real>): (r: Result<Order>)
    ensures r.Ok? <==> extra == []
    ensures r.Ok? ==> r.value == NewOrder(symbol, quantity, price)
    ensures r.Err? ==> r.error == TypeError(TooManyArguments)
  {
    if extra == [] then Ok(NewOrder(symbol, quantity, price)) else Err(TypeError(TooManyArguments))
  }

  /** What multiplying by None, and comparing None with 0, raise. */
  const Unmultiplied: string := "unsupported operand type(s) for *"
  const Uncompared: string := "'>' not supported between instances of 'NoneType' and 'int'"

  /** value: quantity times price; None in either raises TypeError. */
  function Value(o: Order): (r: Result<real>)
    ensures r.Ok? <==> o.quantity.Some? && o.price.Some?
    ensures r.Ok? ==> r.value == o.quantity.value * o.price.value
    ensures r.Err? ==> r.error.TypeError?
  {
    if o.quantity.Some? && o.price.Some? then Ok(o.quantity.value * o.price.value)
    else Err(TypeError(Unmultiplied))
  }

  /** direction: BUY for a positive quantity, SELL for a negative one, HOLD
      otherwise; comparing None raises TypeError. */
  function GetDirection(o: Order): (r: Result<Direction>)
    ensures r.Ok? <==> o.quantity.Some?
    ensures r.Ok? ==> DirectionCode(r.value) == Signum(o.quantity.value)
  {
    match o.quantity
    case None => Err(TypeError(Uncompared))
    case Some(q) =>
      if q > 0.0 then Ok(Buy) else if q < 0.0 then Ok(Sell) else Ok(Hold)
  }

  /** valid: a non-blank symbol and a positive price.  The blank check comes
      first, so a blank symbol makes the order invalid whatever its price;
      otherwise comparing a None price raises TypeError. */
  function IsValid(o: Order): (r: Result<bool>)
    ensures r == Ok(true) <==> !IsBlank(o.symbol) && o.price.Some? && o.price.value > 0.0
    ensures r.Err? <==> !IsBlank(o.symbol) && o.price.None?
    ensures IsBlank(o.symbol) ==> r == Ok(false)
  {
    if IsBlank(o.symbol) then Ok(false)
    else if o.price.None? then Err(TypeError(Uncompared))
    else Ok(o.price.value > 0.0)
  }

  /** The orders of tests/test_order.py with a blank symbol. */
  lemma ValidExamples()
    ensures IsValid(NewOrder(None, Some(15.0), Some(2.0))) == Ok(false)
    ensures IsValid(NewOrder(Some(""), Some(15.0), Some(2.0))) == Ok(false)
    ensures IsValid(NewOrder(Some("   "), Some(15.0), Some(2.0))) == Ok(false)
  {
    BlankExamples();
  }

  /** The orders of tests/test_order.py with a named symbol. */
  lemma PricedExamples()
    ensures IsValid(NewOrder(Some("AAPL"), Some(15.0), Some(0.0))) == Ok(false)
    ensures IsValid(NewOrder(Some("AAPL"), Some(15.0), Some(-5.0))) == Ok(false)
    ensures IsValid(NewOrder(Some("AAPL"), Some(15.0), Some(5.0))) == Ok(true)
    ensures IsValid(NewOrder(Some("AAPL"), Some(-15.0), Some(5.0))) == Ok(true)
  {
    BlankIffAllWhitespace("AAPL");
    assert !IsWhitespace("AAPL"[0]);
  }

  datatype OrderResult = OrderResult(order: Order, success: bool, fee: real)

  datatype CloseResult = CloseResult(order: Order, success: bool, missing: bool, fee: real)

  /** OrderResult(order=order): not successful and free until told otherwise. */
  function NewOrderResult(order: Order): (r: OrderResult)
    ensures r.order == order && !r.success && r.fee == 0.0
  {
    OrderResult(order, false, 0.0)
  }

  /** CloseResult(order=order): neither successful nor missing, and free. */
  function NewCloseResult(order: Order): (r: CloseResult)
    ensures r.order == order && !r.success && !r.missing && r.fee == 0.0
  {
    CloseResult(order, false, false, 0.0)
  }

  /** One row of the order table. */
  datatype Row = Row(date: Date, symbol: Option<string>, quantity: Option<real>)

  /** The table after the constructor: dates already moved by the business
      day offset. */
  datatype DataFrameOrderProvider = DataFrameOrderProvider(rows: seq<Row>)

  /** The constructor: a non-zero offset moves every date by that many
      business days (the calendar arithmetic is the parameter `shift`). The
      shift is applied to the column literally named "date", which is absent
      when the date column has another name. */
  function NewDataFrameOrderProvider(rows: seq<Row>, offsetBeforeTrading: int, dateColumn: string, shift: (Date, int) -> Date): (r: Result<DataFrameOrderProvider>)
    ensures r.Err? <==> offsetBeforeTrading != 0 && dateColumn != "date"
    ensures r.Ok? ==> |r.value.rows| == |rows|
    ensures r.Ok? ==> forall i :: 0 <= i < |rows| ==>
      r.value.rows[i] == rows[i].(date := if offsetBeforeTrading == 0 then rows[i].date else shift(rows[i].date, offsetBeforeTrading))
  {
    if offsetBeforeTrading == 0 then Ok(DataFrameOrderProvider(rows))
    else if dateColumn != "date" then Err(KeyError("date"))
    else Ok(DataFrameOrderProvider(seq(|rows|, i requires 0 <= i < |rows| => rows[i].(date := shift(rows[i].date, offsetBeforeTrading)))))
  }

  predicate Distinct<T(==)>(xs: seq<T>) {
    forall i, j :: 0 <= i < j < |xs| ==> xs[i] != xs[j]
  }

  /** The position where x first appears in xs. */
  function FirstIndex<T(==)>(xs: seq<T>, x: T): (k: int)
    requires x in xs
    ensures 0 <= k < |xs| && xs[k] == x
    ensures forall j :: 0 <= j < k ==> xs[j] != x
  {
    if xs[0] == x then 0 else 1 + FirstIndex(xs[1..], x)
  }

  /** A value of the list without its last element first appears at the
      same position in the whole list. */
  lemma FirstIndexInit<T>(xs: seq<T>)
    requires xs != []
    ensures forall x :: x in xs[..|xs| - 1] ==> FirstIndex(xs, x) == FirstIndex(xs[..|xs| - 1], x)
  {
    var init := xs[..|xs| - 1];
    forall x | x in init ensures FirstIndex(xs, x) == FirstIndex(init, x) {
      var a, b := FirstIndex(xs, x), FirstIndex(init, x);
      assert xs[b] == x;
      assert init[a] == x;
    }
  }

  /** pandas' unique(): the distinct values in order of first appearance. */
  function Unique<T(==,!new)>(xs: seq<T>): (r: seq<T>)
    ensures Distinct(r)
    ensures forall x :: x in r <==> x in xs
    ensures xs != [] ==> r != [] && r[0] == xs[0]
    ensures forall i, j :: 0 <= i < j < |r| ==> FirstIndex(xs, r[i]) < FirstIndex(xs, r[j])
    decreases |xs|
  {
    if xs == [] then []
    else
      var init := xs[..|xs| - 1];
      var prefix := Unique(init);
      var last := xs[|xs| - 1];
      assert forall x :: x in xs <==> x in init || x == last;
      FirstIndexInit(xs);
      if last in prefix then prefix
      else
        assert FirstIndex(xs, last) == |xs| - 1;
        prefix + [last]
  }

  function DatesOf(rows: seq<Row>): (r: seq<Date>)
    ensures |r| == |rows| && forall i :: 0 <= i < |rows| ==> r[i] == rows[i].date
  {
    seq(|rows|, i requires 0 <= i < |rows| => rows[i].date)
  }

  /** get_dates: every date of the table, once each, in order of first
      appearance; the first is the first row's date. */
  function GetDates(p: DataFrameOrderProvider): (r: seq<Date>)
    ensures Distinct(r)
    ensures forall d :: d in r <==> exists i :: 0 <= i < |p.rows| && p.rows[i].date == d
    ensures p.rows != [] ==> r != [] && r[0] == p.rows[0].date
    ensures forall d :: d in r ==> d in DatesOf(p.rows)
    ensures forall i, j :: 0 <= i < j < |r| ==> FirstIndex(DatesOf(p.rows), r[i]) < FirstIndex(DatesOf(p.rows), r[j])
  {
    var r := Unique(DatesOf(p.rows));
    assert forall d :: d in DatesOf(p.rows) <==> exists i :: 0 <= i < |p.rows| && p.rows[i].date == d;
    r
  }

  /** The rows given on one date, in table order. */
  function RowsOn(rows: seq<Row>, date: Date): (r: seq<Row>)
    ensures |r| <= |rows|
    ensures forall row :: row in r ==> row in rows && row.date == date
    decreases |rows|
  {
    if rows == [] then []
    else
      var prefix := RowsOn(rows[..|rows| - 1], date);
      var last := rows[|rows| - 1];
      if last.date == date then prefix + [last] else prefix
  }

  /** convert: one order per row, with no price. */
  function Convert(rows: seq<Row>): (r: seq<Order>)
    ensures |r| == |rows|
    ensures forall i :: 0 <= i < |rows| ==> r[i] == NewOrder(rows[i].symbol, rows[i].quantity, None)
  {
    seq(|rows|, i requires 0 <= i < |rows| => NewOrder(rows[i].symbol, rows[i].quantity, None))
  }

  /** get_orders: the orders of the rows whose date is the requested one. */
  function GetOrders(p: DataFrameOrderProvider, date: Date): (r: seq<Order>)
    ensures forall o :: o in r ==> o.price.None?
    ensures |r| == |RowsOn(p.rows, date)|
  {
    Convert(RowsOn(p.rows, date))
  }

  /** The positions of the rows that carry the date: each such position
      once, going up. */
  function IndicesOn(rows: seq<Row>, date: Date): (ps: seq<int>)
    ensures forall j :: 0 <= j < |ps| ==> 0 <= ps[j] < |rows|
    ensures forall j, k :: 0 <= j < k < |ps| ==> ps[j] < ps[k]
    ensures forall i :: 0 <= i < |rows| ==> (i in ps <==> rows[i].date == date)
    decreases |rows|
  {
    if rows == [] then []
    else
      var init := rows[..|rows| - 1];
      var ps := IndicesOn(init, date);
      assert forall i :: 0 <= i < |init| ==> init[i] == rows[i];
      ps + (if rows[|rows| - 1].date == date then [|rows| - 1] else [])
  }

  /** The boolean mask keeps rows in table order: the j-th row selected is
      the row at the j-th position that carries the date. */
  lemma {:induction false} RowsOnInOrder(rows: seq<Row>, date: Date)
    ensures |IndicesOn(rows, date)| == |RowsOn(rows, date)|
    ensures forall j :: 0 <= j < |IndicesOn(rows, date)| ==> RowsOn(rows, date)[j] == rows[IndicesOn(rows, date)[j]]
    decreases |rows|
  {
    if rows != [] {
      var init := rows[..|rows| - 1];
      var last := rows[|rows| - 1];
      RowsOnInOrder(init, date);
      var ps, qs := IndicesOn(init, date), IndicesOn(rows, date);
      var rs, ss := RowsOn(init, date), RowsOn(rows, date);
      assert qs == ps + (if last.date == date then [|rows| - 1] else []);
      assert ss == rs + (if last.date == date then [last] else []);
      forall j | 0 <= j < |qs| ensures ss[j] == rows[qs[j]] {
        if j < |ps| {
          assert ss[j] == rs[j] == init[ps[j]];
        }
      }
    }
  }

  /** get_orders turns the selected rows, in table order, into one
      unpriced order each. */
  lemma GetOrdersRows(p: DataFrameOrderProvider, date: Date)
    ensures var ps := IndicesOn(p.rows, date);
      |GetOrders(p, date)| == |ps| &&
      forall j :: 0 <= j < |ps| ==>
        GetOrders(p, date)[j] == NewOrder(p.rows[ps[j]].symbol, p.rows[ps[j]].quantity, None)
  {
    RowsOnInOrder(p.rows, date);
  }

  /** The number of rows on a date. */
  function CountOn(rows: seq<Row>, date: Date): nat
    decreases |rows|
  {
    if rows == [] then 0
    else CountOn(rows[..|rows| - 1], date) + (if rows[|rows| - 1].date == date then 1 else 0)
  }

  lemma {:induction false} RowsOnCount(rows: seq<Row>, date: Date)
    ensures |RowsOn(rows, date)| == CountOn(rows, date)
    decreases |rows|
  {
    if rows != [] {
      RowsOnCount(rows[..|rows| - 1], date);
    }
  }

  /** Total row count over a list of dates. */
  function CountAll(rows: seq<Row>, dates: seq<Date>): nat
    decreases |dates|
  {
    if dates == [] then 0 else CountAll(rows, dates[..|dates| - 1]) + CountOn(rows, dates[|dates| - 1])
  }

  lemma {:induction false} CountAllAppendRow(rows: seq<Row>, row: Row, dates: seq<Date>)
    ensures CountAll(rows + [row], dates) == CountAll(rows, dates) + Occurrences(dates, row.date)
    decreases |dates|
  {
    if dates != [] {
      var init := dates[..|dates| - 1];
      CountAllAppendRow(rows, row, init);
      assert (rows + [row])[..|rows + [row]| - 1] == rows;
      assert CountOn(rows + [row], dates[|dates| - 1]) == CountOn(rows, dates[|dates| - 1]) + (if row.date == dates[|dates| - 1] then 1 else 0);
      assert dates == init + [dates[|dates| - 1]];
      OccurrencesAppend(init, dates[|dates| - 1], row.date);
    }
  }

  function Occurrences<T(==)>(xs: seq<T>, x: T): nat
    decreases |xs|
  {
    if xs == [] then 0 else Occurrences(xs[..|xs| - 1], x) + (if xs[|xs| - 1] == x then 1 else 0)
  }

  lemma OccurrencesAppend<T>(xs: seq<T>, y: T, x: T)
    ensures Occurrences(xs + [y], x) == Occurrences(xs, x) + (if y == x then 1 else 0)
  {
    assert (xs + [y])[..|xs + [y]| - 1] == xs;
  }

  lemma {:induction false} OccurrencesOfDistinct<T>(xs: seq<T>, x: T)
    requires Distinct(xs)
    ensures Occurrences(xs, x) == if x in xs then 1 else 0
    decreases |xs|
  {
    if xs != [] {
      var init := xs[..|xs| - 1];
      OccurrencesOfDistinct(init, x);
      assert xs == init + [xs[|xs| - 1]];
    }
  }

  lemma {:induction false} CountAllAppendDate(rows: seq<Row>, dates: seq<Date>, d: Date)
    ensures CountAll(rows, dates + [d]) == CountAll(rows, dates) + CountOn(rows, d)
  {
    assert (dates + [d])[..|dates + [d]| - 1] == dates;
  }

  lemma {:induction false} CountAllEmpty(dates: seq<Date>)
    ensures CountAll([], dates) == 0
    decreases |dates|
  {
    if dates != [] {
      CountAllEmpty(dates[..|dates| - 1]);
    }
  }

  lemma {:induction false} CountOnAbsent(rows: seq<Row>, d: Date)
    requires d !in DatesOf(rows)
    ensures CountOn(rows, d) == 0
    decreases |rows|
  {
    if rows != [] {
      var init := rows[..|rows| - 1];
      assert DatesOf(rows)[|rows| - 1] == rows[|rows| - 1].date;
      assert forall i :: 0 <= i < |init| ==> DatesOf(init)[i] == DatesOf(rows)[i];
      CountOnAbsent(init, d);
    }
  }

  /** Every row lands in exactly one date's batch: over the dates returned
      by get_dates, get_orders returns as many orders as the table has rows. */
  lemma {:induction false} OrdersPartitionRows(rows: seq<Row>)
    ensures CountAll(rows, Unique(DatesOf(rows))) == |rows|
    decreases |rows|
  {
    if rows == [] {
      CountAllEmpty(Unique(DatesOf(rows)));
    } else {
      var init := rows[..|rows| - 1];
      var last := rows[|rows| - 1];
      assert rows == init + [last];
      assert DatesOf(rows)[..|rows| - 1] == DatesOf(init);
      var u := Unique(DatesOf(init));
      OrdersPartitionRows(init);
      CountAllAppendRow(init, last, u);
      OccurrencesOfDistinct(u, last.date);
      if last.date !in u {
        CountAllAppendDate(rows, u, last.date);
        CountAllAppendRow(init, last, u + [last.date]);
        CountOnAbsent(init, last.date);
        assert CountOn(rows, last.date) == CountOn(init, last.date) + 1;
      }
    }
  }

  /** get_orders on a date that get_dates does not list is empty. */
  lemma NoOrdersOffDates(p: DataFrameOrderProvider, date: Date)
    requires date !in GetDates(p)
    ensures GetOrders(p, date) == []
  {
    CountOnAbsent(p.rows, date);
    RowsOnCount(p.rows, date);
  }
}
