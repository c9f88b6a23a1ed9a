/** backtest/backtest.py: the older backtester.  It places each day's
    orders on its account (as `LegacyBatches` describes on values), reprices
    the holdings on the other days, and walks the days from the start to
    the end as `LegacyDayLoop` describes, reporting each day to its
    exporters.  Each method works on the objects in place. */
module LegacyBacktests {
  import opened Wrappers
  import opened Calendar
  import opened Sums
  import opened Fees
  import opened Frames
  import opened LegacyOrders
  import opened LegacyHoldings
  import opened LegacyLedgers
  import opened LegacyAccounts
  import opened LegacyPriceProviders
  import opened LegacyBatches
  import PriceProviders
  import LegacyDayLoop

  // ---------------------------------------------------------------------
  // What the exporters are told

  /** backtest/export/model.py's Snapshot: the day, the order date it
      executes when postponed, the account's cash, equity and holdings,
      and, when ordered, the batch's fees and counts (zero otherwise). */
  datatype Snapshot = Snapshot(date: Date, postponned: Option<Date>, cash: real, equity: real,
                               holdings: map<string, Position>, ordered: bool,
                               totalFees: real, successCount: nat, failedCount: nat)

  /** The calls made to the exporters, in order. */
  datatype Event =
    | Initialized
    | SkipFired(date: Date, reason: string, ordered: bool)
    | SnapshotFired(snapshot: Snapshot)
    | Finalized

  /** The exporter list, seen as the record of the calls made to it. */
  class Exporters {
    var events: seq<Event>

    constructor ()
      ensures events == []
    {
      events := [];
    }

    method Initialize()
      modifies this
      ensures events == old(events) + [Initialized]
    {
      events := events + [Initialized];
    }

    method OnSkip(date: Date, reason: string, ordered: bool)
      modifies this
      ensures events == old(events) + [SkipFired(date, reason, ordered)]
    {
      events := events + [SkipFired(date, reason, ordered)];
    }

    method OnSnapshot(snapshot: Snapshot)
      modifies this
      ensures events == old(events) + [SnapshotFired(snapshot)]
    {
      events := events + [SnapshotFired(snapshot)];
    }

    method Finalize()
      modifies this
      ensures events == old(events) + [Finalized]
    {
      events := events + [Finalized];
    }
  }

  /** The snapshot fire_snapshot builds of a ledger: it is ordered exactly
      when a batch result is given, and only then carries the batch's
      total fees and counts, which then share out its results. */
  ghost function SnapshotOf(l: Ledger, date: Date, results: Option<seq<OrderResult>>, postponned: Option<Date>): (s: Snapshot)
    ensures s.date == date && s.postponned == postponned
    ensures s.cash == l.cash && s.equity == Equity(l) && s.holdings == l.positions
    ensures s.ordered <==> results.Some?
    ensures results.Some? ==> s.successCount + s.failedCount == |results.value|
    ensures results.None? ==> s.totalFees == 0.0 && s.successCount == 0 && s.failedCount == 0
  {
    if results.None? then Snapshot(date, postponned, l.cash, Equity(l), l.positions, false, 0.0, 0, 0)
    else
      CountsAddUp(results.value);
      Snapshot(date, postponned, l.cash, Equity(l), l.positions, true, TotalFees(results.value),
               Count(results.value, true), Count(results.value, false))
  }

  /** What a call tells of the day, without the account's figures. */
  function MarkOf(e: Event): (r: seq<LegacyDayLoop.Mark>)
    ensures |r| <= 1
    ensures e.SkipFired? ==> r == [LegacyDayLoop.Skipped(e.date, e.reason, e.ordered)]
    ensures e.SnapshotFired? ==> r == [LegacyDayLoop.Snapped(e.snapshot.date, e.snapshot.ordered, e.snapshot.postponned)]
    ensures e.Initialized? || e.Finalized? ==> r == []
  {
    match e
    case SkipFired(date, reason, ordered) => [LegacyDayLoop.Skipped(date, reason, ordered)]
    case SnapshotFired(s) => [LegacyDayLoop.Snapped(s.date, s.ordered, s.postponned)]
    case _ => []
  }

  /** The day-by-day reports of a sequence of calls. */
  function Marks(events: seq<Event>): seq<LegacyDayLoop.Mark>
    decreases |events|
  {
    if events == [] then [] else Marks(events[..|events| - 1]) + MarkOf(events[|events| - 1])
  }

  lemma {:induction false} MarksAppend(a: seq<Event>, b: seq<Event>)
    ensures Marks(a + b) == Marks(a) + Marks(b)
    decreases |b|
  {
    if b == [] {
      assert a + b == a;
    } else {
      var c, last := b[..|b| - 1], b[|b| - 1];
      var ab := a + b;
      assert ab[..|ab| - 1] == a + c && ab[|ab| - 1] == last;
      assert Marks(ab) == Marks(a + c) + MarkOf(last);
      MarksAppend(a, c);
      MarksAssoc(Marks(a), Marks(c), MarkOf(last));
      assert Marks(b) == Marks(c) + MarkOf(last);
    }
  }

  lemma MarksAssoc(x: seq<LegacyDayLoop.Mark>, y: seq<LegacyDayLoop.Mark>, z: seq<LegacyDayLoop.Mark>)
    ensures x + y + z == x + (y + z)
  {
  }

  /** Events fired in two goes are fired one after the other. */
  lemma Appended(before: seq<Event>, a: seq<Event>, b: seq<Event>)
    ensures before + a + b == before + (a + b)
  {
  }

  // ---------------------------------------------------------------------
  // _MassOrderResult

  /** The backtester as written calls `Account(cash=..., fee_model=...)`,
      `account.order(...)` and `account[symbol]`, and Account has none of
      these: the construction raises TypeError, and so would the other
      two.  The names Account does define, which the backtester here
      uses, all resolve. */
  lemma BacktesterAsWritten()
    ensures CallAccount(["cash", "fee_model"]) == Err(TypeError("Account.__init__() got an unexpected keyword argument 'cash'"))
    ensures AccountAttribute("order").Err? && "__getitem__" !in AccountAttributes
    ensures CallAccount(["initial_cash", "fee_model"]) == Ok(())
    ensures AccountAttribute("place_order").Ok? && AccountAttribute("find_holding").Ok?
  {
    assert "cash" !in AccountParameters;
    assert ["cash", "fee_model"][0] == "cash";
    assert ["initial_cash", "fee_model"][1..] == ["fee_model"];
    assert ["fee_model"][1..] == [];
  }

  /** The results of one batch of orders, appended as they come. */
  class MassOrderResult {
    var orderResults: seq<OrderResult>

    constructor ()
      ensures orderResults == []
    {
      orderResults := [];
    }

    /** A result holding `results`, in their order. */
    constructor Of(results: seq<OrderResult>)
      ensures orderResults == results
    {
      orderResults := results;
    }

    /** append */
    method Append(result: OrderResult)
      modifies this
      ensures orderResults == old(orderResults) + [result]
    {
      orderResults := orderResults + [result];
    }

    /** total_fees */
    function TotalFees(): real
      reads this
    {
      LegacyBatches.TotalFees(orderResults)
    }

    /** `_count_by_success`: counts the results with that success flag, in
        a loop. */
    method CountBySuccess(success: bool) returns (count: nat)
      ensures count == Count(orderResults, success)
    {
      count := 0;
      var i := 0;
      while i < |orderResults|
        invariant 0 <= i <= |orderResults|
        invariant count == Count(orderResults[..i], success)
      {
        assert orderResults[..i + 1][..i] == orderResults[..i];
        if orderResults[i].success == success {
          count := count + 1;
        }
        i := i + 1;
      }
      assert orderResults[..i] == orderResults;
    }

    /** success_count and failed_count */
    method SuccessCount() returns (count: nat)
      ensures count == Count(orderResults, true)
    {
      count := CountBySuccess(true);
    }

    method FailedCount() returns (count: nat)
      ensures count == Count(orderResults, false)
    {
      count := CountBySuccess(false);
    }
  }

  /** The results a batch returned, or the exception it raised. */
  ghost function Listed(r: Result<MassOrderResult>): Result<seq<OrderResult>>
    reads if r.Ok? then {r.value} else {}
  {
    if r.Ok? then Ok(r.value.orderResults) else Err(r.error)
  }

  /** Where a batch ends: its ledger, and its results or its exception. */
  function Ended(run: LegacyBatches.Run): Outcome<seq<OrderResult>> {
    Outcome(run.mass.ledger, if run.failure.Some? then Err(run.failure.value) else Ok(run.mass.results))
  }

  // ---------------------------------------------------------------------
  // Orders and prices

  /** What `order_provider` answers: the order dates it lists, in order,
      and each date's orders table (whose reading can raise). */
  datatype OrderBook = OrderBook(dates: seq<Date>, orders: Date -> Result<seq<Row>>)

  /** The symbols of a table, handed to download_missing. */
  function RowSymbols(rows: seq<Row>): (r: set<string>)
    ensures forall i :: 0 <= i < |rows| ==> rows[i].symbol in r
    ensures forall s :: s in r ==> exists i :: 0 <= i < |rows| && rows[i].symbol == s
  {
    set i | 0 <= i < |rows| :: rows[i].symbol
  }

  /** The provider's `get` at a date, on a cache. */
  function Reader(c: LegacyCache, m: PriceProviders.Mapping, date: Date): Quote {
    s => ReadRaw(c, m, s, date)
  }

  /** `price_date` defaults to the order date. */
  function PriceDate(date: Date, priceDate: Option<Date>): (d: Date)
    ensures priceDate.Some? ==> d == priceDate.value
    ensures priceDate.None? ==> d == date
  {
    if priceDate.Some? then priceDate.value else date
  }

  /** Where update_price stopped, and the exception that stopped it. */
  datatype Repricing = Repricing(positions: map<string, Position>, failure: Option<Error>)

  /** update_price on values: the holdings in the order `symbols` lists
      them, each taking the quoted price when it is tradable; a quote that
      raises stops the loop. */
  function Reprice(positions: map<string, Position>, symbols: seq<string>, quote: Quote): Repricing
    decreases |symbols|
  {
    if symbols == [] then Repricing(positions, None)
    else
      var s := symbols[|symbols| - 1];
      Next(Reprice(positions, symbols[..|symbols| - 1], quote), s, quote(s))
  }

  /** One holding of update_price, given its quote. */
  function Next(before: Repricing, s: string, q: Result<Option<real>>): Repricing {
    if before.failure.Some? then before
    else if q.Err? then Repricing(before.positions, Some(q.error))
    else if Tradable(q.value) && s in before.positions then
      Repricing(before.positions[s := before.positions[s].(price := q.value.value)], None)
    else before
  }

  /** The price a holding has after the sweep over `symbols`. */
  function PriceAfter(p: Position, s: string, symbols: seq<string>, quote: Quote): real {
    var q := quote(s);
    if s in symbols && q.Ok? && Tradable(q.value) then q.value.value else p.price
  }

  /** update_price keeps the held symbols and every holding's symbol,
      quantity and up-to-date flag (the legacy holding is not marked up to
      date); when no quote raises, a listed holding takes its quoted price
      exactly when that price is tradable, and every other keeps its own. */
  lemma {:induction false} RepriceSpec(positions: map<string, Position>, symbols: seq<string>, quote: Quote)
    ensures var r := Reprice(positions, symbols, quote);
      r.positions.Keys == positions.Keys &&
      (forall s :: s in positions ==>
         r.positions[s] == positions[s].(price := r.positions[s].price)) &&
      (r.failure.None? ==> forall s :: s in positions ==> r.positions[s].price == PriceAfter(positions[s], s, symbols, quote))
    decreases |symbols|
  {
    if symbols != [] {
      var init := symbols[..|symbols| - 1];
      var last := symbols[|symbols| - 1];
      RepriceSpec(positions, init, quote);
      var before := Reprice(positions, init, quote);
      var r := Reprice(positions, symbols, quote);
      if before.failure.None? && quote(last).Ok? {
        forall s | s in positions ensures r.positions[s].price == PriceAfter(positions[s], s, symbols, quote) {
          if s != last {
            assert s in symbols <==> s in init by {
              assert symbols == init + [last];
            }
          } else {
            assert s in symbols;
          }
        }
      }
    }
  }

  /** Reading a quote is the provider's `get`. */
  lemma ReaderReads(c: LegacyCache, m: PriceProviders.Mapping, date: Date, symbol: string)
    ensures Reader(c, m, date)(symbol) == ReadRaw(c, m, symbol, date)
  {
  }

  /** One more holding of the sweep. */
  lemma RepriceSnoc(positions: map<string, Position>, symbols: seq<string>, i: nat, quote: Quote)
    requires i < |symbols|
    ensures Reprice(positions, symbols[..i + 1], quote) == Next(Reprice(positions, symbols[..i], quote), symbols[i], quote(symbols[i]))
  {
    assert symbols[..i + 1][..i] == symbols[..i];
  }

  /** Once a quote has raised, the rest of the sweep changes nothing. */
  lemma {:induction false} RepriceStops(positions: map<string, Position>, symbols: seq<string>, k: nat, quote: Quote)
    requires k <= |symbols| && Reprice(positions, symbols[..k], quote).failure.Some?
    ensures Reprice(positions, symbols, quote) == Reprice(positions, symbols[..k], quote)
    decreases |symbols| - k
  {
    if k < |symbols| {
      assert symbols[..k + 1][..k] == symbols[..k];
      RepriceStops(positions, symbols, k + 1, quote);
    } else {
      assert symbols[..k] == symbols;
    }
  }

  // ---------------------------------------------------------------------
  // The backtester

  /** Backtester: an account trading through a price provider over the
      days from the later of the first order date and `start` to `end`,
      reporting to its exporters. */
  class Backtester {
    const start: Option<Date>
    const end: Date
    const quantityInDecimal: bool
    const autoCloseOthers: bool
    const book: OrderBook
    /** The dates of backtest/data/holidays.py, which is not part of this
        model. */
    const holidayDates: set<Date>
    const provider: LegacyPriceProvider
    const account: Account
    const exporters: Exporters

    ghost predicate Valid()
      reads this, account, account.Repr
    {
      account.Valid() && provider !in account.Repr && exporters !in account.Repr &&
      1 <= provider.settings.start <= MaxOrdinal && 1 <= provider.settings.end <= MaxOrdinal
    }

    /** Backtester(start, end, order_provider, initial_cash, ...): the run
        starts at the later of the first listed order date and `start`, or
        nowhere when there are no order dates; the price provider covers
        `start` to `end`; the account, with the given fee model, starts
        with the initial cash (read as `initial_cash`, see README). */
    constructor (start: Date, end: Date, book: OrderBook, initialCash: real, quantityInDecimal: bool,
                 fetch: LegacyFetch, closeable: bool, autoCloseOthers: bool, mapper: Option<PriceProviders.Mapping>,
                 feeModel: Option<FeeModel>, caching: bool, cached: Option<Frame>, holidayDates: set<Date>)
      requires 1 <= start <= MaxOrdinal && 1 <= end <= MaxOrdinal
      ensures Valid()
      ensures this.start == if |book.dates| > 0 then Some(if book.dates[0] > start then book.dates[0] else start) else None
      ensures this.end == end && this.book == book && this.holidayDates == holidayDates
      ensures this.quantityInDecimal == quantityInDecimal && this.autoCloseOthers == autoCloseOthers
      ensures provider.settings.start == start && provider.settings.end == end && provider.settings.closeable == closeable
      ensures account.State() == Ledger(initialCash, map[])
      ensures exporters.events == []
    {
      this.end := end;
      this.quantityInDecimal := quantityInDecimal;
      this.autoCloseOthers := autoCloseOthers;
      this.exporters := new Exporters();
      this.book := book;
      this.start := if |book.dates| > 0 then Some(if book.dates[0] > start then book.dates[0] else start) else None;
      this.holidayDates := holidayDates;
      this.provider := new LegacyPriceProvider(start, end, fetch, closeable, mapper, caching, cached);
      this.account := new Account(initialCash, feeModel);
    }

    /** The day loop's view of the run. */
    function PlanOf(weekends: bool, holidays: bool): (p: LegacyDayLoop.Plan)
      requires start.Some?
      ensures p.start == start.value && p.end == end && p.closeable == provider.settings.closeable
      ensures forall d :: p.isOrderDate(d) <==> d in book.dates
      ensures forall d :: p.isHoliday(d) <==> d in holidayDates
    {
      LegacyDayLoop.Plan(start.value, end, d => d in book.dates, provider.settings.closeable, weekends, holidays,
                         d => d in holidayDates)
    }

    /** One row of the order loop: the order placed at the price date's
        quote when it is tradable, its result appended to the batch's. */
    method PlaceRow(m: Mass, row: Row, equity: real, pd: Date) returns (run: LegacyBatches.Run)
      requires Valid() && m.ledger == account.State()
      modifies account.Repr
      ensures Valid() && fresh(account.Repr - old(account.Repr))
      ensures run == Step(Corrected, account.feeModel, quantityInDecimal, equity, m, row, Reader(provider.View(), provider.settings.mapper, pd))
      ensures run.mass.ledger == account.State()
    {
      var price := provider.Get(pd, row.symbol);
      if price.Err? {
        return LegacyBatches.Run(m, Some(price.error));
      }
      if !Tradable(price.value) {
        return LegacyBatches.Run(m, None);
      }
      var p := price.value.value;
      var order := LegacyOrders.Order(Some(row.symbol), Some(OrderedQuantity(quantityInDecimal, equity, row, p)), Some(p));
      var r := account.PlaceOrder(order);
      if r.Err? {
        return LegacyBatches.Run(m.(ledger := account.State()), Some(r.error));
      }
      var x := r.value;
      run := LegacyBatches.Run(Mass(account.State(), m.results + [x], if x.success then m.others - {row.symbol} else m.others), None);
    }

    /** One pass of the loop over the rows. */
    method PlaceNext(ghost l: Ledger, run: LegacyBatches.Run, rows: seq<Row>, i: nat, equity: real, pd: Date)
      returns (next: LegacyBatches.Run)
      requires Valid() && i < |rows|
      requires run == Execute(Corrected, account.feeModel, quantityInDecimal, equity, Start(l), rows[..i], Reader(provider.View(), provider.settings.mapper, pd))
      requires run.failure.None? && run.mass.ledger == account.State()
      modifies account.Repr
      ensures Valid() && fresh(account.Repr - old(account.Repr))
      ensures next.mass.ledger == account.State()
      ensures next.failure.None? ==> next == Execute(Corrected, account.feeModel, quantityInDecimal, equity, Start(l), rows[..i + 1], Reader(provider.View(), provider.settings.mapper, pd))
      ensures next.failure.Some? ==> next == Execute(Corrected, account.feeModel, quantityInDecimal, equity, Start(l), rows, Reader(provider.View(), provider.settings.mapper, pd))
    {
      next := PlaceRow(run.mass, rows[i], equity, pd);
      ExecutePass(Corrected, account.feeModel, quantityInDecimal, equity, Start(l), rows, i,
                  Reader(provider.View(), provider.settings.mapper, pd), run, next);
    }

    /** The loop over the rows of the orders table. */
    method PlaceRows(rows: seq<Row>, equity: real, pd: Date) returns (run: LegacyBatches.Run)
      requires Valid()
      modifies account.Repr
      ensures Valid() && fresh(account.Repr - old(account.Repr))
      ensures run == Execute(Corrected, account.feeModel, quantityInDecimal, equity, Start(old(account.State())), rows,
                             Reader(provider.View(), provider.settings.mapper, pd))
      ensures run.mass.ledger == account.State()
    {
      ghost var l := account.State();
      ghost var quote := Reader(provider.View(), provider.settings.mapper, pd);
      run := LegacyBatches.Run(Start(account.State()), None);
      var i := 0;
      while i < |rows|
        invariant 0 <= i <= |rows|
        invariant Valid() && fresh(account.Repr - old(account.Repr))
        invariant quote == Reader(provider.View(), provider.settings.mapper, pd)
        invariant run == Execute(Corrected, account.feeModel, quantityInDecimal, equity, Start(l), rows[..i], quote)
        invariant run.failure.None? && run.mass.ledger == account.State()
      {
        run := PlaceNext(l, run, rows, i, equity, pd);
        if run.failure.Some? {
          return;
        }
        i := i + 1;
      }
      assert rows[..i] == rows;
    }

    /** One symbol of the auto-close: a held one is sold off at the order
        date's quote, or at its last price when the quote is missing or
        zero. */
    method CloseOther(m: Mass, symbol: string, date: Date, percentKnown: bool)
      returns (run: LegacyBatches.Run)
      requires Valid() && m.ledger == account.State()
      modifies account.Repr
      ensures Valid() && fresh(account.Repr - old(account.Repr))
      ensures run == CloseOne(Corrected, account.feeModel, percentKnown, m, symbol, Reader(provider.View(), provider.settings.mapper, date))
      ensures run.mass.ledger == account.State()
    {
      var holding := account.FindHolding(symbol);
      if holding.None? {
        return LegacyBatches.Run(m, None);
      }
      var quantity := holding.value.quantity;
      var last := holding.value.price;
      assert m.ledger.positions[symbol] == holding.value.View();
      var price := provider.Get(date, symbol);
      if price.Err? {
        return LegacyBatches.Run(m, Some(price.error));
      }
      var order := LegacyOrders.Order(Some(symbol), Some(-quantity), Some(ClosePrice(price.value, last)));
      ghost var quote := Reader(provider.View(), provider.settings.mapper, date);
      ReaderReads(provider.View(), provider.settings.mapper, date, symbol);
      CloseOneHeld(account.feeModel, percentKnown, m, symbol, quote, price.value, quantity, last, order);
      run := Sell(m, order);
    }

    /** The sale of the auto-close, on the account in place. */
    method Sell(m: Mass, order: LegacyOrders.Order) returns (run: LegacyBatches.Run)
      requires Valid() && m.ledger == account.State()
      modifies account.Repr
      ensures Valid() && fresh(account.Repr - old(account.Repr))
      ensures run == Sold(m, LegacyLedgers.PlaceOrder(account.feeModel, m.ledger, order))
      ensures run.mass.ledger == account.State()
    {
      var r := account.PlaceOrder(order);
      run := Sold(m, Outcome(account.State(), r));
    }

    /** One pass of the auto-close. */
    method CloseNext(m: Mass, run: LegacyBatches.Run, symbols: seq<string>, j: nat, date: Date, percentKnown: bool)
      returns (next: LegacyBatches.Run)
      requires Valid() && j < |symbols|
      requires run == CloseAll(Corrected, account.feeModel, percentKnown, m, symbols[..j], Reader(provider.View(), provider.settings.mapper, date))
      requires run.failure.None? && run.mass.ledger == account.State()
      modifies account.Repr
      ensures Valid() && fresh(account.Repr - old(account.Repr))
      ensures next.mass.ledger == account.State()
      ensures next.failure.None? ==> next == CloseAll(Corrected, account.feeModel, percentKnown, m, symbols[..j + 1], Reader(provider.View(), provider.settings.mapper, date))
      ensures next.failure.Some? ==> next == CloseAll(Corrected, account.feeModel, percentKnown, m, symbols, Reader(provider.View(), provider.settings.mapper, date))
    {
      next := CloseOther(run.mass, symbols[j], date, percentKnown);
      CloseAllPass(Corrected, account.feeModel, percentKnown, m, symbols, j,
                   Reader(provider.View(), provider.settings.mapper, date), run, next);
    }

    /** The auto-close loop over `others`, in the order `symbols` lists
        them. */
    method CloseOthers(m: Mass, symbols: seq<string>, date: Date, percentKnown: bool)
      returns (run: LegacyBatches.Run)
      requires Valid() && m.ledger == account.State()
      modifies account.Repr
      ensures Valid() && fresh(account.Repr - old(account.Repr))
      ensures run == CloseAll(Corrected, account.feeModel, percentKnown, m, symbols, Reader(provider.View(), provider.settings.mapper, date))
      ensures run.mass.ledger == account.State()
    {
      run := LegacyBatches.Run(m, None);
      var j := 0;
      while j < |symbols|
        invariant 0 <= j <= |symbols|
        invariant Valid() && fresh(account.Repr - old(account.Repr))
        invariant run == CloseAll(Corrected, account.feeModel, percentKnown, m, symbols[..j], Reader(provider.View(), provider.settings.mapper, date))
        invariant run.failure.None? && run.mass.ledger == account.State()
      {
        run := CloseNext(m, run, symbols, j, date, percentKnown);
        if run.failure.Some? {
          return;
        }
        j := j + 1;
      }
      assert symbols[..j] == symbols;
    }

    /** What follows the loop over the rows: when auto-closing and
        something is left in `others`, those symbols are sold off in the
        order `closing` lists them, at the order date's quotes. */
    method AutoClose(m: Mass, date: Date, percentKnown: bool)
      returns (run: LegacyBatches.Run, ghost closing: seq<string>)
      requires Valid() && m.ledger == account.State()
      modifies account.Repr
      ensures Valid() && fresh(account.Repr - old(account.Repr))
      ensures run.mass.ledger == account.State()
      ensures autoCloseOthers && m.others != {} ==>
        IsEnumeration(closing, m.others) &&
        run == CloseAll(Corrected, account.feeModel, percentKnown, m, closing, Reader(provider.View(), provider.settings.mapper, date))
      ensures !(autoCloseOthers && m.others != {}) ==> run == LegacyBatches.Run(m, None)
    {
      closing := [];
      run := LegacyBatches.Run(m, None);
      if autoCloseOthers && |m.others| > 0 {
        var others := Enumerate(m.others);
        closing := others;
        run := CloseOthers(m, others, date, percentKnown);
      }
    }

    /** order once the table is read and its symbols downloaded: the rows
        at the price date's quotes, sized against the equity read before
        the loop in percent mode, then the auto-close, `closing` being the
        order in which it visits `others`. */
    method OrderPriced(date: Date, pd: Date, rows: seq<Row>) returns (r: Result<MassOrderResult>, ghost closing: seq<string>)
      requires Valid()
      modifies account.Repr
      ensures Valid() && fresh(account.Repr - old(account.Repr))
      ensures r.Ok? ==> fresh(r.value)
      ensures Outcome(account.State(), Listed(r)) ==
        Ended(MassOrder(Corrected, account.feeModel, quantityInDecimal, autoCloseOthers, old(account.State()),
                        Equity(old(account.State())), rows, Reader(provider.View(), provider.settings.mapper, pd),
                        Reader(provider.View(), provider.settings.mapper, date), closing))
      ensures var run := Execute(Corrected, account.feeModel, quantityInDecimal, Equity(old(account.State())),
                                 Start(old(account.State())), rows, Reader(provider.View(), provider.settings.mapper, pd));
        autoCloseOthers && run.failure.None? && run.mass.others != {} ==> IsEnumeration(closing, run.mass.others)
    {
      closing := [];
      var run := Sized(rows, pd);
      if run.failure.Some? {
        return Err(run.failure.value), closing;
      }
      ghost var placed := run;
      run, closing := AutoClose(run.mass, date, quantityInDecimal && |rows| > 0);
      assert run == MassOrder(Corrected, account.feeModel, quantityInDecimal, autoCloseOthers, old(account.State()),
                              Equity(old(account.State())), rows, Reader(provider.View(), provider.settings.mapper, pd),
                              Reader(provider.View(), provider.settings.mapper, date), closing);
      if run.failure.Some? {
        return Err(run.failure.value), closing;
      }
      var result := new MassOrderResult.Of(run.mass.results);
      r := Ok(result);
    }

    /** The loop over the rows, sized against the equity read before it in
        percent mode (and against nothing otherwise). */
    method Sized(rows: seq<Row>, pd: Date) returns (run: LegacyBatches.Run)
      requires Valid()
      modifies account.Repr
      ensures Valid() && fresh(account.Repr - old(account.Repr))
      ensures run == Execute(Corrected, account.feeModel, quantityInDecimal, Equity(old(account.State())),
                             Start(old(account.State())), rows, Reader(provider.View(), provider.settings.mapper, pd))
      ensures run.mass.ledger == account.State()
    {
      var equity := 0.0;
      if quantityInDecimal {
        equity := account.Equity();
      } else {
        ghost var l := account.State();
        ExecuteIgnoresEquity(Corrected, account.feeModel, equity, Equity(l), Start(l), rows,
                             Reader(provider.View(), provider.settings.mapper, pd));
      }
      run := PlaceRows(rows, equity, pd);
    }

    /** order: the date's orders table is read and its symbols downloaded
        (an exception from either leaves the account as it was), then the
        batch runs as OrderPriced says, `missing` being the order in which
        the unknown symbols were fetched. */
    method Order(date: Date, priceDate: Option<Date>)
      returns (r: Result<MassOrderResult>, ghost missing: seq<string>, ghost closing: seq<string>)
      requires Valid()
      modifies provider, account.Repr
      ensures Valid() && fresh(account.Repr - old(account.Repr))
      ensures r.Ok? ==> fresh(r.value)
      ensures book.orders(date).Err? ==>
        r == Err(book.orders(date).error) && account.State() == old(account.State()) && provider.View() == old(provider.View())
      ensures book.orders(date).Ok? ==>
        var rows := book.orders(date).value;
        var d := Download(provider.settings, old(provider.View()), RowSymbols(rows), missing);
        IsEnumeration(missing, RowSymbols(rows) - old(provider.symbols)) &&
        (d.Err? ==> r == Err(d.error) && account.State() == old(account.State()) && provider.View() == old(provider.View())) &&
        (d.Ok? ==>
           provider.View() == d.value &&
           Outcome(account.State(), Listed(r)) ==
             Ended(MassOrder(Corrected, account.feeModel, quantityInDecimal, autoCloseOthers, old(account.State()),
                             Equity(old(account.State())), rows,
                             Reader(provider.View(), provider.settings.mapper, PriceDate(date, priceDate)),
                             Reader(provider.View(), provider.settings.mapper, date), closing)))
    {
      missing := [];
      closing := [];
      var table := book.orders(date);
      if table.Err? {
        return Err(table.error), missing, closing;
      }
      var rows := table.value;
      ghost var requested := provider.requests;
      var wanted := RowSymbols(rows);
      ghost var known := provider.symbols;
      var download := provider.DownloadMissing(wanted);
      if !(wanted <= known) {
        missing := provider.requests[|requested|];
      } else {
        assert wanted - known == {};
      }
      if download.Err? {
        return Err(download.error), missing, closing;
      }
      r, closing := OrderPriced(date, PriceDate(date, priceDate), rows);
    }

    /** Writes the price into one holding. */
    method SetPrice(symbol: string, price: real)
      requires Valid() && symbol in account.holdings
      modifies account.holdings[symbol]
      ensures Valid() && account.Repr == old(account.Repr) && account.holdings == old(account.holdings)
      ensures account.State() == old(account.State()).(positions :=
        old(account.State()).positions[symbol := old(account.State()).positions[symbol].(price := price)])
    {
      var holding := account.holdings[symbol];
      holding.price := price;
      account.HoldingWritten(symbol);
    }

    /** The provider's `get` at a date. */
    function PricesAt(date: Date): Quote
      reads provider
    {
      Reader(provider.View(), provider.settings.mapper, date)
    }

    /** One holding of update_price's loop. */
    method RepriceNext(ghost l: Ledger, symbols: seq<string>, i: nat, date: Date) returns (r: Result<()>)
      requires Valid() && i < |symbols| && l.positions.Keys == account.holdings.Keys && symbols[i] in account.holdings
      requires Reprice(l.positions, symbols[..i], PricesAt(date)).failure.None?
      requires account.State() == l.(positions := Reprice(l.positions, symbols[..i], PricesAt(date)).positions)
      modifies account.Repr
      ensures Valid() && account.Repr == old(account.Repr) && account.holdings == old(account.holdings)
      ensures var u := Reprice(l.positions, symbols[..i + 1], PricesAt(date));
        account.State() == l.(positions := u.positions) && (r.Err? <==> u.failure.Some?) && (r.Err? ==> r.error == u.failure.value)
    {
      var symbol := symbols[i];
      ghost var before := Reprice(l.positions, symbols[..i], PricesAt(date));
      RepriceSpec(l.positions, symbols[..i], PricesAt(date));
      RepriceSnoc(l.positions, symbols, i, PricesAt(date));
      var price := provider.Get(date, symbol);
      ReaderReads(provider.View(), provider.settings.mapper, date, symbol);
      ghost var after := Next(before, symbol, price);
      assert Reprice(l.positions, symbols[..i + 1], PricesAt(date)) == after;
      if price.Err? {
        return Err(price.error);
      }
      if Tradable(price.value) {
        SetPrice(symbol, price.value.value);
      }
      r := Ok(());
    }

    /** update_price: every holding, in the account's order (`listed`),
        takes the date's quote when it is tradable; a quote that raises
        stops the loop. */
    method UpdatePrice(date: Date) returns (r: Result<()>, ghost listed: seq<string>)
      requires Valid()
      modifies account.Repr
      ensures Valid() && account.Repr == old(account.Repr) && account.holdings == old(account.holdings)
      ensures IsEnumeration(listed, old(account.State()).positions.Keys)
      ensures var u := Reprice(old(account.State()).positions, listed, PricesAt(date));
        account.State() == old(account.State()).(positions := u.positions) &&
        (r.Err? <==> u.failure.Some?) && (r.Err? ==> r.error == u.failure.value)
    {
      ghost var l := account.State();
      ghost var quote := PricesAt(date);
      var symbols := Enumerate(account.Symbols());
      listed := symbols;
      var i := 0;
      while i < |symbols|
        invariant 0 <= i <= |symbols|
        invariant Valid() && account.Repr == old(account.Repr) && account.holdings == old(account.holdings)
        invariant quote == PricesAt(date)
        invariant Reprice(l.positions, symbols[..i], quote).failure.None?
        invariant account.State() == l.(positions := Reprice(l.positions, symbols[..i], quote).positions)
      {
        r := RepriceNext(l, symbols, i, date);
        if r.Err? {
          RepriceStops(l.positions, symbols, i + 1, quote);
          return r, listed;
        }
        i := i + 1;
      }
      assert symbols[..i] == symbols;
      r := Ok(());
    }

    /** fire_skip */
    method FireSkip(date: Date, reason: string, ordered: bool)
      modifies exporters
      ensures exporters.events == old(exporters.events) + [SkipFired(date, reason, ordered)]
    {
      exporters.OnSkip(date, reason, ordered);
    }

    /** fire_snapshot: the account as it stands, with the batch's fees and
        counts when there is a batch. */
    method FireSnapshot(date: Date, result: Option<MassOrderResult>, postponned: Option<Date>) returns (ghost e: Event)
      requires Valid()
      modifies exporters
      ensures e == SnapshotFired(SnapshotOf(account.State(), date, if result.Some? then Some(result.value.orderResults) else None, postponned))
      ensures exporters.events == old(exporters.events) + [e]
    {
      var cash := account.cash;
      var equity := account.Equity();
      var snapshot := Snapshot(date, postponned, cash, equity, account.State().positions, result.Some?, 0.0, 0, 0);
      if result.Some? {
        var successes := result.value.SuccessCount();
        var failures := result.value.FailedCount();
        snapshot := snapshot.(totalFees := result.value.TotalFees(), successCount := successes, failedCount := failures);
      }
      exporters.OnSnapshot(snapshot);
      e := SnapshotFired(snapshot);
    }

    /** An order date's orders, at the price date, then a snapshot of the
        account on `date` with the batch's results, carrying `postponned`:
        a postponed order date (run at the day's prices) or a day's own
        orders. */
    method OrderAndReport(orderDate: Date, priceDate: Option<Date>, date: Date, postponned: Option<Date>)
      returns (r: Result<()>, ghost fired: seq<Event>, ghost results: seq<OrderResult>)
      requires Valid()
      modifies provider, account.Repr, exporters
      ensures Valid() && fresh(account.Repr - old(account.Repr))
      ensures exporters.events == old(exporters.events) + fired
      ensures r.Err? ==> fired == []
      ensures r.Ok? ==> fired == [SnapshotFired(SnapshotOf(account.State(), date, Some(results), postponned))]
      ensures r.Ok? ==> Marks(fired) == [LegacyDayLoop.Snapped(date, true, postponned)]
    {
      fired, results := [], [];
      var result, _, _ := Order(orderDate, priceDate);
      if result.Err? {
        return Err(result.error), fired, results;
      }
      results := result.value.orderResults;
      var e := FireSnapshot(date, Some(result.value), postponned);
      fired := [e];
      assert Marks(fired) == Marks([]) + MarkOf(e);
      r := Ok(());
    }

    /** A day without orders: the holdings repriced, then a snapshot of the
        account without a batch. */
    method RepriceAndReport(date: Date) returns (r: Result<()>, ghost fired: seq<Event>)
      requires Valid()
      modifies account.Repr, exporters
      ensures Valid() && fresh(account.Repr - old(account.Repr))
      ensures exporters.events == old(exporters.events) + fired
      ensures r.Err? ==> fired == []
      ensures r.Ok? ==> fired == [SnapshotFired(SnapshotOf(account.State(), date, None, None))]
      ensures r.Ok? ==> Marks(fired) == [LegacyDayLoop.Snapped(date, false, None)]
    {
      fired := [];
      var updated, _ := UpdatePrice(date);
      if updated.Err? {
        return Err(updated.error), fired;
      }
      var e := FireSnapshot(date, None, None);
      fired := [e];
      assert Marks(fired) == Marks([]) + MarkOf(e);
      r := Ok(());
    }

    /** One pass of the loop over the postponed order dates. */
    method ReplayNext(date: Date, postponed: seq<Date>, i: nat, ghost fired: seq<Event>)
      returns (r: Result<()>, ghost more: seq<Event>)
      requires Valid() && i < |postponed| && Marks(fired) == LegacyDayLoop.Replayed(postponed[..i], date)
      modifies provider, account.Repr, exporters
      ensures Valid() && fresh(account.Repr - old(account.Repr))
      ensures exporters.events == old(exporters.events) + more
      ensures r.Ok? ==> Marks(fired + more) == LegacyDayLoop.Replayed(postponed[..i + 1], date)
    {
      assert postponed[..i + 1][..i] == postponed[..i];
      var one, fired1, _ := OrderAndReport(postponed[i], Some(date), date, Some(postponed[i]));
      r, more := one, fired1;
      MarksAppend(fired, more);
    }

    /** The postponed orders of a trading day, each run with the day as
        price date and reported in a snapshot carrying its order date. */
    method Replay(date: Date, postponed: seq<Date>) returns (r: Result<()>, ghost fired: seq<Event>)
      requires Valid()
      modifies provider, account.Repr, exporters
      ensures Valid() && fresh(account.Repr - old(account.Repr))
      ensures exporters.events == old(exporters.events) + fired
      ensures r.Ok? ==> Marks(fired) == LegacyDayLoop.Replayed(postponed, date)
    {
      fired := [];
      var i := 0;
      while i < |postponed|
        invariant 0 <= i <= |postponed|
        invariant Valid() && fresh(account.Repr - old(account.Repr))
        invariant exporters.events == old(exporters.events) + fired
        invariant Marks(fired) == LegacyDayLoop.Replayed(postponed[..i], date)
      {
        var one, more := ReplayNext(date, postponed, i, fired);
        Appended(old(exporters.events), fired, more);
        fired := fired + more;
        if one.Err? {
          return one, fired;
        }
        i := i + 1;
      }
      assert postponed[..i] == postponed;
      r := Ok(());
    }

    /** A trading day: the postponed orders, then the day's own orders or
        the repricing, each reported in a snapshot. */
    method TradingDay(date: Date, postponed: seq<Date>, ordered: bool) returns (r: Result<()>, ghost fired: seq<Event>)
      requires Valid()
      modifies provider, account.Repr, exporters
      ensures Valid() && fresh(account.Repr - old(account.Repr))
      ensures exporters.events == old(exporters.events) + fired
      ensures r.Ok? ==> Marks(fired) == LegacyDayLoop.Replayed(postponed, date) + [LegacyDayLoop.Snapped(date, ordered, None)]
    {
      ghost var early: seq<Event>, last: seq<Event>;
      r, early := Replay(date, postponed);
      if r.Err? {
        return r, early;
      }
      r, last := OwnDay(date, ordered);
      MarksAppend(early, last);
      Appended(old(exporters.events), early, last);
      fired := early + last;
    }

    /** The day's own orders, or the repricing when it has none. */
    method OwnDay(date: Date, ordered: bool) returns (r: Result<()>, ghost fired: seq<Event>)
      requires Valid()
      modifies provider, account.Repr, exporters
      ensures Valid() && fresh(account.Repr - old(account.Repr))
      ensures exporters.events == old(exporters.events) + fired
      ensures r.Ok? ==> Marks(fired) == [LegacyDayLoop.Snapped(date, ordered, None)]
    {
      if ordered {
        ghost var results;
        r, fired, results := OrderAndReport(date, None, date, None);
      } else {
        r, fired := RepriceAndReport(date);
      }
    }

    /** One turn of run's loop: a day skipped as a weekend or a holiday
        (only for a closeable source) is reported and postpones its order
        date; a trading day runs the postponed orders, clears the list, and
        ends with a snapshot after its own orders or after repricing the
        holdings.  Unless an exception ends the run, the calls made are
        the day's marks of LegacyDayLoop.Day. */
    method Turn(ghost p: LegacyDayLoop.Plan, date: Date, postponed: seq<Date>, weekends: bool, holidays: bool)
      returns (r: Result<seq<Date>>, ghost fired: seq<Event>)
      requires Valid() && start.Some? && p == PlanOf(weekends, holidays)
      modifies provider, account.Repr, exporters
      ensures Valid() && fresh(account.Repr - old(account.Repr))
      ensures exporters.events == old(exporters.events) + fired
      ensures r.Ok? ==>
        var t := LegacyDayLoop.Day(p, postponed, date);
        r.value == t.postponed && Marks(fired) == t.marks
    {
      var ordered := date in book.dates;
      assert p.isOrderDate(date) == ordered;
      assert p.isHoliday(date) == (date in holidayDates);
      if provider.IsCloseable() {
        if !weekends && Weekday(date) > 4 {
          FireSkip(date, LegacyDayLoop.Weekend, ordered);
          fired := [SkipFired(date, LegacyDayLoop.Weekend, ordered)];
          assert Marks(fired) == Marks([]) + MarkOf(fired[0]);
          return Ok(postponed + if ordered then [date] else []), fired;
        }
        if !holidays && date in holidayDates {
          FireSkip(date, LegacyDayLoop.Holiday, ordered);
          fired := [SkipFired(date, LegacyDayLoop.Holiday, ordered)];
          assert Marks(fired) == Marks([]) + MarkOf(fired[0]);
          return Ok(postponed + if ordered then [date] else []), fired;
        }
      }
      assert LegacyDayLoop.SkipReason(p, date).None?;
      var traded;
      traded, fired := TradingDay(date, postponed, ordered);
      if traded.Err? {
        return Err(traded.error), fired;
      }
      r := Ok([]);
    }

    /** run: nothing at all without a start; otherwise the days from the
        start to the end, one turn each, between the initialize and
        finalize calls, and the price cache saved at the end.  What is
        reported, day after day, is the run LegacyDayLoop.Through
        describes; an exception ends the run where it was raised, before
        the save and the finalize call.  The files written are the cache
        file, when caching and something was downloaded. */
    method Run(weekends: bool, holidays: bool) returns (r: Result<seq<(string, Frame)>>, ghost reported: seq<Event>)
      requires Valid()
      modifies provider, account.Repr, exporters
      ensures Valid()
      ensures start.None? ==>
        r == Ok([]) && exporters.events == old(exporters.events) && account.State() == old(account.State()) &&
        provider.View() == old(provider.View())
      ensures start.Some? ==>
        exporters.events == old(exporters.events) + [Initialized] + reported + (if r.Ok? then [Finalized] else [])
      ensures start.Some? && r.Ok? ==>
        Marks(reported) == LegacyDayLoop.Through(PlanOf(weekends, holidays), end).marks &&
        (r.value != [] <==> provider.settings.caching && provider.updated)
    {
      reported := [];
      if start.None? {
        return Ok([]), reported;
      }
      exporters.Initialize();
      var walked;
      walked, reported := Walk(weekends, holidays);
      if walked.Err? {
        return Err(walked.error), reported;
      }
      var written := provider.Save();
      exporters.Finalize();
      r := Ok(written);
    }

    /** One pass of run's loop. */
    method WalkNext(ghost p: LegacyDayLoop.Plan, date: Date, postponed: seq<Date>, weekends: bool, holidays: bool,
                    ghost reported: seq<Event>)
      returns (r: Result<seq<Date>>, ghost fired: seq<Event>)
      requires Valid() && start.Some? && p == PlanOf(weekends, holidays) && p.start <= date
      requires LegacyDayLoop.Through(p, date - 1) == LegacyDayLoop.Turn(postponed, Marks(reported))
      modifies provider, account.Repr, exporters
      ensures Valid() && fresh(account.Repr - old(account.Repr))
      ensures exporters.events == old(exporters.events) + fired
      ensures r.Ok? ==> LegacyDayLoop.Through(p, date) == LegacyDayLoop.Turn(r.value, Marks(reported + fired))
    {
      LegacyDayLoop.ThroughNext(p, date, LegacyDayLoop.Through(p, date - 1));
      r, fired := Turn(p, date, postponed, weekends, holidays);
      MarksAppend(reported, fired);
    }

    /** run's loop: `date` walks from the start to the end, one turn a day,
        `postponed` carrying the order dates of the skipped days. */
    method Walk(weekends: bool, holidays: bool) returns (r: Result<()>, ghost reported: seq<Event>)
      requires Valid() && start.Some?
      modifies provider, account.Repr, exporters
      ensures Valid() && fresh(account.Repr - old(account.Repr))
      ensures exporters.events == old(exporters.events) + reported
      ensures r.Ok? ==> Marks(reported) == LegacyDayLoop.Through(PlanOf(weekends, holidays), end).marks
    {
      ghost var p := PlanOf(weekends, holidays);
      reported := [];
      var date := start.value;
      var postponed: seq<Date> := [];
      if date > end {
        assert LegacyDayLoop.Through(p, end) == LegacyDayLoop.Turn([], []);
        return Ok(()), reported;
      }
      while date <= end
        invariant Valid() && fresh(account.Repr - old(account.Repr))
        invariant p.start <= date <= end + 1
        invariant exporters.events == old(exporters.events) + reported
        invariant LegacyDayLoop.Through(p, date - 1) == LegacyDayLoop.Turn(postponed, Marks(reported))
        decreases end - date
      {
        var next, fired := WalkNext(p, date, postponed, weekends, holidays, reported);
        Appended(old(exporters.events), reported, fired);
        reported := reported + fired;
        if next.Err? {
          return Err(next.error), reported;
        }
        postponed := next.value;
        date := date + 1;
      }
      r := Ok(());
    }
  }
}
