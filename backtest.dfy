/** bktest/backtest.py: the pod that executes a batch of orders against its
    account and price provider, and the two backtesters that drive pods day
    after day.  Each method works on the objects in place and is proved to
    end in the state that the value-level models of `PodOrders`,
    `DailyUpdates` and `DayLoop` describe. */
module Backtests {
  import opened Wrappers
  import opened Calendar
  import opened Orders
  import opened Ledgers
  import opened Sums
  import opened Accounts
  import opened PriceProviders
  import opened PodOrders
  import opened Iterators
  import opened Fees
  import opened Frames
  import DailyUpdates
  import DayLoop

  /** What the exporters are told, in order.  The exporters themselves (an
      ExporterCollection of user-supplied exporters) only receive these
      calls; a snapshot carries the account's state at the time. */
  datatype Event =
    | Initialized
    | SkipFired(date: Date, reason: string, ordered: bool)
    | SnapshotFired(date: Date, ledger: Ledger, result: Option<Collection>, postponned: Option<Date>)
    | Finalized

  /** The exporter collection, seen as the record of the calls made to it. */
  class Exporters {
    var events: seq<Event>

    constructor ()
      ensures events == []
    {
      events := [];
    }

    method FireInitialize()
      modifies this
      ensures events == old(events) + [Initialized]
    {
      events := events + [Initialized];
    }

    method FireSkip(date: Date, reason: string, ordered: bool)
      modifies this
      ensures events == old(events) + [SkipFired(date, reason, ordered)]
    {
      events := events + [SkipFired(date, reason, ordered)];
    }

    method FireSnapshot(date: Date, ledger: Ledger, result: Option<Collection>, postponned: Option<Date>)
      modifies this
      ensures events == old(events) + [SnapshotFired(date, ledger, result, postponned)]
    {
      events := events + [SnapshotFired(date, ledger, result, postponned)];
    }

    method FireFinalize()
      modifies this
      ensures events == old(events) + [Finalized]
    {
      events := events + [Finalized];
    }
  }

  /** The provider's `get` on a cache at a date, read under the user's
      symbol (the column name the download stores). */
  function Reader(c: Cache, date: Date): Quote {
    s => ReadPrice(c, s, s, date)
  }

  /** `price_date` defaults to the order date. */
  function PriceDate(date: Date, priceDate: Option<Date>): (d: Date)
    ensures priceDate.Some? ==> d == priceDate.value
    ensures priceDate.None? ==> d == date
  {
    if priceDate.Some? then priceDate.value else date
  }

  /** The symbols of a batch, handed to download_missing. */
  function OrderSymbols(orders: seq<Order>): (r: set<string>)
    requires Named(orders)
    ensures forall i :: 0 <= i < |orders| ==> orders[i].symbol.value in r
    ensures forall s :: s in r ==> exists i :: 0 <= i < |orders| && orders[i].symbol == Some(s)
  {
    set i | 0 <= i < |orders| :: orders[i].symbol.value
  }

  /** What a pod shows of itself: the symbols it holds, its account as a
      value, and the calls made to its exporters. */
  datatype PodState = PodState(held: set<string>, ledger: Ledger, events: seq<Event>)

  /** `_Pod`: one account trading through a price provider and reporting to
      its exporters. */
  class Pod {
    const quantityInDecimal: bool
    const autoCloseOthers: bool
    const provider: PriceProvider
    const account: Account
    const exporters: Exporters

    ghost predicate Valid()
      reads this, account, account.Repr
    {
      account.Valid() && this !in account.Repr && provider !in account.Repr && exporters !in account.Repr
    }

    ghost function Now(): PodState
      requires Valid()
      reads this, account, account.Repr, exporters
    {
      PodState(account.holdings.Keys, account.State(), exporters.events)
    }

    constructor (quantityInDecimal: bool, autoCloseOthers: bool, provider: PriceProvider, account: Account, exporters: Exporters)
      requires account.Valid() && provider !in account.Repr && exporters !in account.Repr
      ensures Valid()
      ensures this.quantityInDecimal == quantityInDecimal && this.autoCloseOthers == autoCloseOthers
      ensures this.provider == provider && this.account == account && this.exporters == exporters
    {
      this.quantityInDecimal := quantityInDecimal;
      this.autoCloseOthers := autoCloseOthers;
      this.provider := provider;
      this.account := account;
      this.exporters := exporters;
    }

    /** The batch's configuration: the account's own order_position and
        close_position as the broker. */
    function Configuration(): Config {
      Config(quantityInDecimal, autoCloseOthers, provider.settings.workWithPrices, AccountBroker(account.feeModel))
    }

    /** One order of the loop, on the account in place; `b` holds the
        loop's variables, its ledger being the account's state. */
    method Step(b: Batch, order: Order, nav: real, priceDate: Date) returns (run: Run)
      requires Valid() && b.ledger == account.State() && order.symbol.Some?
      modifies account.Repr
      ensures Valid() && fresh(account.Repr - old(account.Repr))
      ensures run == PodOrders.Step(Corrected, Configuration(), b, order, nav, priceDate, Reader(provider.View(), priceDate))
      ensures run.batch.ledger == account.State()
    {
      var symbol := order.symbol.value;
      var price := if order.price.Some? && order.price.value != 0.0 then Ok(order.price)
                   else provider.GetUnmapped(priceDate, symbol);
      if price.Err? {
        return Run(b, Some(price.error));
      }
      if quantityInDecimal && order.quantity.None? {
        return Run(b, Some(TypeError(FloatTimesNone)));
      }
      if price.value.None? {
        return Run(if quantityInDecimal then b.(notExecuted := b.notExecuted + 1) else b, None);
      }
      var placed := PlacedOrder(Configuration(), order, nav, price.value.value);
      StepPriced(Corrected, Configuration(), b, order, nav, priceDate, Reader(provider.View(), priceDate));
      var result := account.OrderPosition(placed, priceDate);
      assert Configuration().broker.orderPosition(b.ledger, placed, priceDate) == Outcome(account.State(), result);
      if result.Err? {
        return Run(b.(ledger := account.State()), Some(result.error));
      }
      return Run(Counted(b, symbol, account.State(), result.value, quantityInDecimal), None);
    }

    /** One symbol of `_close_all`: closed at the provider's price. */
    method CloseOne(c: Closing, symbol: string, date: Date) returns (run: CloseRun)
      requires Valid() && c.ledger == account.State()
      modifies account.Repr
      ensures Valid() && account.Repr <= old(account.Repr)
      ensures run == PodOrders.CloseOne(AccountBroker(account.feeModel), c, symbol, Reader(provider.View(), date))
      ensures run.closing.ledger == account.State()
    {
      var price := provider.GetUnmapped(date, symbol);
      if price.Err? {
        return CloseRun(c, Some(price.error));
      }
      var result := account.ClosePosition(Some(symbol), price.value);
      assert AccountBroker(account.feeModel).closePosition(c.ledger, symbol, price.value) == Outcome(account.State(), result);
      if result.Err? {
        return CloseRun(c.(ledger := account.State()), Some(result.error));
      }
      var x := result.value;
      if x.missing {
        run := CloseRun(c.(ledger := account.State()), None);
      } else {
        run := CloseRun(Closing(account.State(), c.results + [Closed(x)], c.closed + (if x.success then 1 else 0), c.total + 1), None);
      }
    }

    /** `_close_all`: each symbol closed at the provider's price in turn. */
    method CloseAll(c: Closing, symbols: seq<string>, date: Date) returns (run: CloseRun)
      requires Valid() && c.ledger == account.State()
      modifies account.Repr
      ensures Valid() && account.Repr <= old(account.Repr)
      ensures run == PodOrders.CloseAll(AccountBroker(account.feeModel), c, symbols, Reader(provider.View(), date))
      ensures run.closing.ledger == account.State()
    {
      ghost var k := AccountBroker(account.feeModel);
      ghost var quote := Reader(provider.View(), date);
      run := CloseRun(c, None);
      ghost var done: seq<string> := [];
      var j := 0;
      while j < |symbols|
        invariant 0 <= j <= |symbols| && done == symbols[..j]
        invariant Valid() && account.Repr <= old(account.Repr)
        invariant run == PodOrders.CloseAll(k, c, done, quote) && run.failure.None?
        invariant run.closing.ledger == account.State()
      {
        var symbol := symbols[j];
        CloseAllSnoc(k, c, done, symbol, quote);
        run := CloseOne(run.closing, symbol, date);
        SliceStep(symbols, j);
        done := done + [symbol];
        if run.failure.Some? {
          CloseAllStops(k, c, symbols, j + 1, quote);
          return;
        }
        j := j + 1;
      }
      assert done == symbols;
    }

    /** The order loop of `_Pod.order`, `nav` being the nav read before
        it; an exception stops it. */
    method PlaceAll(orders: seq<Order>, nav: real, priceDate: Date) returns (run: Run)
      requires Valid() && Named(orders)
      modifies account.Repr
      ensures Valid() && fresh(account.Repr - old(account.Repr))
      ensures run == Execute(Corrected, Configuration(), Start(old(account.State())), orders, nav, priceDate,
                             Reader(provider.View(), priceDate))
      ensures run.batch.ledger == account.State()
    {
      ghost var l := account.State();
      ghost var quote := Reader(provider.View(), priceDate);
      ghost var c := Configuration();
      run := Run(Start(account.State()), None);
      ghost var done: seq<Order> := [];
      var i := 0;
      while i < |orders|
        invariant 0 <= i <= |orders| && done == orders[..i]
        invariant Valid() && fresh(account.Repr - old(account.Repr))
        invariant run.batch.ledger == account.State()
        invariant run == Execute(Corrected, c, Start(l), done, nav, priceDate, quote) && run.failure.None?
      {
        var order := orders[i];
        assert (done + [order])[..|done|] == done;
        run := Step(run.batch, order, nav, priceDate);
        assert run == Execute(Corrected, c, Start(l), done + [order], nav, priceDate, quote);
        done := done + [order];
        if run.failure.Some? {
          assert done == orders[..i + 1];
          ExecuteStops(Corrected, c, Start(l), orders, i + 1, nav, priceDate, quote);
          return;
        }
        i := i + 1;
      }
      assert done == orders;
    }

    /** What follows the loop (in its corrected form): the held symbols no
        successful order touched are auto-closed when so configured, in the
        order `closing` lists them, and the results are returned. */
    method Settle(b: Batch, priceDate: Date, ghost start: nat, ghost count: nat)
      returns (r: Result<Collection>, ghost closing: seq<string>)
      requires Valid() && b.ledger == account.State()
      modifies account.Repr
      ensures Valid() && account.Repr <= old(account.Repr)
      ensures autoCloseOthers ==> IsEnumeration(closing, b.others)
      ensures Outcome(account.State(), r) ==
        Finish(Corrected, Configuration(), start, count, Run(b, None), Reader(provider.View(), priceDate), closing)
    {
      closing := [];
      if autoCloseOthers {
        var others := Enumerate(b.others);
        closing := others;
        var closed := CloseAll(Closing(b.ledger, b.results, 0, 0), others, priceDate);
        if closed.failure.Some? {
          r := Err(closed.failure.value);
          return;
        }
        r := Ok(Collection(closed.closing.results, Some(closed.closing.closed), Some(closed.closing.total)));
      } else {
        r := Ok(Collection(b.results, None, None));
      }
    }

    /** `_Pod.order`: downloads the batch's symbols, places every order
        (sized against the nav read once in percent mode), auto-closes the
        held symbols no successful order touched, and returns the results.
        An exception from the download leaves the account as it was; after
        the download the account ends as the corrected batch model says,
        `closing` being the order in which the untouched symbols are
        closed. */
    method Order(date: Date, orders: seq<Order>, priceDate: Option<Date>)
      returns (r: Result<Collection>, ghost downloaded: Result<()>, ghost closing: seq<string>)
      requires Valid() && Named(orders)
      modifies provider, account.Repr
      ensures Valid() && fresh(account.Repr - old(account.Repr))
      ensures Completed(Download(provider.settings, old(provider.View()), OrderSymbols(orders),
                                 LastMissing(old(provider.symbols), OrderSymbols(orders), provider.requests)),
                        old(provider.View()), downloaded, provider.View())
      ensures downloaded.Err? ==> r == Err(downloaded.error) && account.State() == old(account.State())
      ensures downloaded.Ok? ==>
        var pd := PriceDate(date, priceDate);
        Outcome(account.State(), r) ==
          PodOrder(Corrected, Configuration(), old(account.State()), orders, pd, Reader(provider.View(), pd), closing)
      ensures downloaded.Ok? && autoCloseOthers ==>
        var pd := PriceDate(date, priceDate);
        var run := Execute(Corrected, Configuration(), Start(old(account.State())), orders, Nav(old(account.State())),
                           pd, Reader(provider.View(), pd));
        run.failure.None? ==> IsEnumeration(closing, run.batch.others)
    {
      closing := [];
      var pd := PriceDate(date, priceDate);
      var download := provider.DownloadMissing(OrderSymbols(orders));
      downloaded := download;
      if download.Err? {
        r := Err(download.error);
        return;
      }
      r, closing := OrderPriced(orders, pd);
    }

    /** `_Pod.order` once the prices are downloaded: the order loop at the
        price date, then the closing of the others and the collection. */
    method OrderPriced(orders: seq<Order>, pd: Date) returns (r: Result<Collection>, ghost closing: seq<string>)
      requires Valid() && Named(orders)
      modifies account.Repr
      ensures Valid() && fresh(account.Repr - old(account.Repr))
      ensures Outcome(account.State(), r) ==
        PodOrder(Corrected, Configuration(), old(account.State()), orders, pd, Reader(provider.View(), pd), closing)
      ensures autoCloseOthers ==>
        var run := Execute(Corrected, Configuration(), Start(old(account.State())), orders, Nav(old(account.State())),
                           pd, Reader(provider.View(), pd));
        run.failure.None? ==> IsEnumeration(closing, run.batch.others)
    {
      closing := [];
      ghost var l := account.State();
      ghost var quote := Reader(provider.View(), pd);
      var nav := 0.0;
      if quantityInDecimal {
        nav := account.Nav();
      } else {
        ExecuteIgnoresNav(Corrected, Configuration(), Start(l), orders, nav, Nav(l), pd, quote);
      }
      PodOrderSettles(Corrected, Configuration(), l, orders, nav, pd, quote, closing);
      var run := PlaceAll(orders, nav, pd);
      assert run == Execute(Corrected, Configuration(), Start(l), orders, Nav(l), pd, quote);
      if run.failure.Some? {
        r := Err(run.failure.value);
        return;
      }
      r, closing := Settle(run.batch, pd, |l.positions|, |orders|);
      PodOrderSettles(Corrected, Configuration(), l, orders, nav, pd, quote, closing);
    }

    /** One holding of a daily sweep, rewritten in place from its read; the
        single-pod backtester stamps the date (`stamp`), the parallel one
        does not. */
    method Refresh(symbol: string, field: DailyUpdates.Field, x: Option<real>, date: Date, stamp: bool)
      requires Valid() && symbol in account.holdings
      modifies account.Repr
      ensures Valid() && account.Repr == old(account.Repr) && account.holdings == old(account.holdings)
      ensures account.State() == old(account.State()).(positions := old(account.State()).positions[
        symbol := DailyUpdates.Refreshed(old(account.State()).positions[symbol], field, x, date, stamp)])
    {
      var holding := account.holdings[symbol];
      ghost var before := account.State();
      if x.None? {
        holding.upToDate := false;
      } else {
        match field {
          case Price => holding.price := x.value;
          case Quantity => holding.quantity := holding.quantity * (1.0 + x.value);
          case Value => holding.value := holding.value * (1.0 + x.value);
        }
        holding.upToDate := true;
        if stamp {
          holding.lastDateUpdated := Some(date);
        }
      }
      assert holding.View() == DailyUpdates.Refreshed(before.positions[symbol], field, x, date, stamp);
      account.HoldingWritten(symbol);
    }

    /** `account.holdings`: the held symbols, listed in the account's order. */
    method Listing() returns (symbols: seq<string>)
      requires Valid()
      ensures IsEnumeration(symbols, account.holdings.Keys)
    {
      symbols := Enumerate(account.holdings.Keys);
    }

    /** fire_snapshot: the account as it stands, with the batch's results. */
    method FireSnapshot(date: Date, result: Option<Collection>, postponned: Option<Date>)
      requires Valid()
      modifies exporters
      ensures exporters.events == old(exporters.events) + [SnapshotFired(date, account.State(), result, postponned)]
    {
      exporters.FireSnapshot(date, account.State(), result, postponned);
    }
  }

  /** What a snapshot or a skip reports of a day, without the account's
      figures; the initialize and finalize calls report nothing. */
  function MarkOf(e: Event): (r: seq<DayLoop.Mark>)
    ensures |r| <= 1
    ensures e.SkipFired? ==> r == [DayLoop.Skipped(e.date, e.reason, e.ordered)]
    ensures e.SnapshotFired? ==> r == [DayLoop.Snapped(e.date, e.result.Some?, e.postponned)]
    ensures e.Initialized? || e.Finalized? ==> r == []
  {
    match e
    case SkipFired(date, reason, ordered) => [DayLoop.Skipped(date, reason, ordered)]
    case SnapshotFired(date, _, result, postponned) => [DayLoop.Snapped(date, result.Some?, postponned)]
    case _ => []
  }

  /** The day-by-day reports of a sequence of calls. */
  function Marks(events: seq<Event>): seq<DayLoop.Mark>
    decreases |events|
  {
    if events == [] then [] else Marks(events[..|events| - 1]) + MarkOf(events[|events| - 1])
  }

  lemma {:induction false} MarksAppend(a: seq<Event>, b: seq<Event>)
    ensures Marks(a + b) == Marks(a) + Marks(b)
    decreases |b|
  {
    if b == [] {
      assert a + b == a;
    } else {
      var c := b[..|b| - 1];
      assert (a + b)[..|a + b| - 1] == a + c;
      MarksAppend(a, c);
    }
  }

  /** Calls recorded in two stretches are the calls of both. */
  lemma Regroup(a: seq<Event>, b: seq<Event>, c: seq<Event>)
    ensures a + b + c == a + (b + c)
  {
  }

  /** A loop over a listing that has handled one more element. */
  lemma SliceStep(s: seq<string>, j: nat)
    requires j < |s|
    ensures s[..j + 1] == s[..j] + [s[j]]
  {
  }

  /** The answers the account gave, day by day, as the loop records them;
      a day the loop did not reach answered nothing. */
  function FoundOf(found: map<Date, DayLoop.Found>): Date -> DayLoop.Found {
    d => if d in found then found[d] else DayLoop.Found(false, false)
  }

  /** One more day of the run: recording the day's answers leaves the run
      through the day before as it was, and extends it by that day. */
  lemma ThroughNextDay(p: DayLoop.Plan, found: map<Date, DayLoop.Found>, date: Date, answered: DayLoop.Found,
                       cur: DayLoop.Cursor, marks: seq<DayLoop.Mark>)
    requires p.start <= date && forall d :: d in found ==> d < date
    requires DayLoop.Through(p, FoundOf(found), date - 1) == DayLoop.Turn(cur, marks)
    ensures var t := DayLoop.Day(p, cur, date, answered);
      DayLoop.Through(p, FoundOf(found[date := answered]), date) == DayLoop.Turn(t.cursor, marks + t.marks)
  {
    DayLoop.ThroughAgrees(p, FoundOf(found), FoundOf(found[date := answered]), date - 1);
    assert FoundOf(found[date := answered])(date) == answered;
  }

  /** What a sweep reads, under the user's symbol: the price, or the total
      return (for the quantity and the value sweeps). */
  function Read(c: Cache, prices: bool, date: Date): Quote {
    if prices then s => ReadPrice(c, s, s, date) else s => ReadReturn(c, s, s, date)
  }

  /** Every order the table gives on a date names its symbol when every row
      does. */
  lemma OrdersNamed(p: DataFrameOrderProvider, date: Date)
    requires forall i :: 0 <= i < |p.rows| ==> p.rows[i].symbol.Some?
    ensures Named(GetOrders(p, date))
  {
    var rows := RowsOn(p.rows, date);
    forall i | 0 <= i < |rows| ensures rows[i].symbol.Some? {
      assert rows[i] in rows;
    }
  }

  /** The message of the assertion that a batch is not empty. */
  const EmptyOrders: string := "orders should not be empty"

  /** SimpleBacktester: one pod, its orders read from a table, run day by
      day from the first order date. */
  class SimpleBacktester {
    const orderProvider: DataFrameOrderProvider
    const dateIterator: DateIterator
    const pod: Pod

    ghost predicate Valid()
      reads this, pod, pod.account, pod.account.Repr
    {
      pod.Valid() &&
      (forall i :: 0 <= i < |orderProvider.rows| ==> orderProvider.rows[i].symbol.Some?) &&
      1 <= pod.provider.settings.start <= MaxOrdinal && 1 <= pod.provider.settings.end <= MaxOrdinal
    }

    /** SimpleBacktester(start, end, order_provider, initial_cash, ...):
        the run starts at the later of the first order date and `start`;
        the price provider, the account and the exporter collection are
        new, and the iterator sees the provider's closeable flag. */
    constructor (start: Date, end: Date, orderProvider: DataFrameOrderProvider, initialCash: real,
                 quantityInDecimal: bool, source: Source, autoCloseOthers: bool, mapper: Option<Mapping>,
                 feeModel: Option<FeeModel>, caching: bool, allowWeekends: bool, allowHolidays: bool,
                 isHoliday: Date -> bool, workWithPrices: bool, cachedPrices: Option<Frame>, cachedReturns: Option<Frame>)
      requires GetDates(orderProvider) != []
      requires forall i :: 0 <= i < |orderProvider.rows| ==> orderProvider.rows[i].symbol.Some?
      requires 1 <= start <= MaxOrdinal && 1 <= GetDates(orderProvider)[0] <= MaxOrdinal && 1 <= end <= MaxOrdinal
      ensures Valid()
      ensures var first := if GetDates(orderProvider)[0] > start then GetDates(orderProvider)[0] else start;
        dateIterator == DateIterator(first, end, source.closeable, GetDates(orderProvider), isHoliday, allowWeekends, allowHolidays) &&
        pod.provider.settings.start == first && pod.provider.settings.end == end
      ensures pod.account.State() == Ledger(initialCash, initialCash, map[])
      ensures pod.exporters.events == []
      ensures pod.quantityInDecimal == quantityInDecimal && pod.autoCloseOthers == autoCloseOthers
      ensures pod.provider.settings.workWithPrices == (workWithPrices && source.containsPrices)
    {
      var dates := GetDates(orderProvider);
      var first := if dates[0] > start then dates[0] else start;
      this.orderProvider := orderProvider;
      var provider := new PriceProvider(first, end, source, mapper, caching, workWithPrices, cachedPrices, cachedReturns);
      var account := new Account(initialCash, feeModel);
      var exporters := new Exporters();
      pod := new Pod(quantityInDecimal, autoCloseOthers, provider, account, exporters);
      dateIterator := DateIterator(first, end, source.closeable, dates, isHoliday, allowWeekends, allowHolidays);
    }

    /** The loop shared by update_price and update_values: each listed
        holding is read, in the account's order, and rewritten in place;
        the result says whether some holding was brought up to date, and a
        read that raises stops the loop. */
    method Sweep(date: Date, symbols: seq<string>, field: DailyUpdates.Field) returns (r: Result<bool>)
      requires Valid() && IsEnumeration(symbols, pod.account.holdings.Keys)
      modifies pod.account.Repr
      ensures Valid() && pod.account.Repr == old(pod.account.Repr) && pod.account.holdings == old(pod.account.holdings)
      ensures Ends(old(pod.account.State()), DailyUpdates.UpdateAll(old(pod.account.State()).positions, symbols,
                   Read(pod.provider.View(), field == DailyUpdates.Price, date), field, date, true), pod.account.State(), r)
    {
      r := PodSweep(pod, date, symbols, field);
    }

    /** update_values: every holding's value grows by its total return. */
    method UpdateValues(date: Date, symbols: seq<string>) returns (r: Result<bool>)
      requires Valid() && IsEnumeration(symbols, pod.account.holdings.Keys)
      modifies pod.account.Repr
      ensures Valid() && pod.account.Repr == old(pod.account.Repr) && pod.account.holdings == old(pod.account.holdings)
      ensures var sweep := DailyUpdates.UpdateAll(old(pod.account.State()).positions, symbols,
                                                  Read(pod.provider.View(), false, date), DailyUpdates.Value, date, true);
        pod.account.State() == old(pod.account.State()).(positions := sweep.positions) &&
        (r.Ok? <==> sweep.failure.None?) && (r.Ok? ==> r.value == sweep.traded) &&
        (r.Err? ==> r.error == sweep.failure.value)
    {
      r := Sweep(date, symbols, DailyUpdates.Value);
    }

    /** update_price: every holding's price is set to the day's price, or,
        when the provider does not work with prices, its quantity grows by
        its total return. */
    method UpdatePrice(date: Date, symbols: seq<string>) returns (r: Result<bool>)
      requires Valid() && IsEnumeration(symbols, pod.account.holdings.Keys)
      modifies pod.account.Repr
      ensures Valid() && pod.account.Repr == old(pod.account.Repr) && pod.account.holdings == old(pod.account.holdings)
      ensures var sweep := if pod.provider.settings.workWithPrices
          then DailyUpdates.UpdateAll(old(pod.account.State()).positions, symbols, Read(pod.provider.View(), true, date),
                                      DailyUpdates.Price, date, true)
          else DailyUpdates.UpdateAll(old(pod.account.State()).positions, symbols, Read(pod.provider.View(), false, date),
                                      DailyUpdates.Quantity, date, true);
        pod.account.State() == old(pod.account.State()).(positions := sweep.positions) &&
        (r.Ok? <==> sweep.failure.None?) && (r.Ok? ==> r.value == sweep.traded) &&
        (r.Err? ==> r.error == sweep.failure.value)
    {
      if pod.provider.settings.workWithPrices {
        r := Sweep(date, symbols, DailyUpdates.Price);
      } else {
        r := Sweep(date, symbols, DailyUpdates.Quantity);
      }
    }

    /** The revaluation that opens a trading day after the first:
        update_values, then update_price, over the account's listing of its
        holdings (`symbols`, the same for both); the day trades when either brought a holding up to date. */
    method Revalue(date: Date, symbols: seq<string>) returns (r: Result<bool>)
      requires Valid() && IsEnumeration(symbols, pod.account.holdings.Keys)
      modifies pod.account.Repr
      ensures Valid() && pod.account.Repr == old(pod.account.Repr)
      ensures var sweep := DailyUpdates.Revalue(old(pod.account.State()).positions, symbols, Read(pod.provider.View(), false, date),
                                                Read(pod.provider.View(), true, date), pod.provider.settings.workWithPrices, date);
        pod.account.State() == old(pod.account.State()).(positions := sweep.positions) &&
        (r.Ok? <==> sweep.failure.None?) && (r.Ok? ==> r.value == sweep.traded) &&
        (r.Err? ==> r.error == sweep.failure.value)
    {
      ghost var l := pod.account.State();
      ghost var c := pod.provider.View();
      ghost var wwp := pod.provider.settings.workWithPrices;
      ghost var v := DailyUpdates.UpdateAll(l.positions, symbols, Read(c, false, date), DailyUpdates.Value, date, true);
      ghost var revalued := DailyUpdates.Revalue(l.positions, symbols, Read(c, false, date), Read(c, true, date), wwp, date);
      DailyUpdates.RevalueStages(l.positions, symbols, Read(c, false, date), Read(c, true, date), wwp, date);
      var values := UpdateValues(date, symbols);
      if values.Err? {
        assert revalued == v;
        return Err(values.error);
      }
      assert pod.provider.View() == c;
      ghost var mid := pod.account.State();
      assert mid == l.(positions := v.positions);
      ghost var pr := if wwp then DailyUpdates.UpdateAll(v.positions, symbols, Read(c, true, date), DailyUpdates.Price, date, true)
                      else DailyUpdates.UpdateAll(v.positions, symbols, Read(c, false, date), DailyUpdates.Quantity, date, true);
      assert revalued == pr.(traded := pr.traded || v.traded);
      var prices := UpdatePrice(date, symbols);
      assert pod.account.State() == l.(positions := pr.positions);
      if prices.Err? {
        return Err(prices.error);
      }
      r := Ok(prices.value || values.value);
    }

    /** order: the table's orders for `date`, placed by the pod with the
        given price date; an empty batch fails the assertion that it is not
        empty, before anything is downloaded. */
    method Order(date: Date, priceDate: Option<Date>)
      returns (r: Result<Collection>, ghost downloaded: Result<()>, ghost closing: seq<string>)
      requires Valid()
      modifies pod.provider, pod.account.Repr
      ensures Valid() && fresh(pod.account.Repr - old(pod.account.Repr))
      ensures GetOrders(orderProvider, date) == [] ==>
        r == Err(AssertionError(EmptyOrders)) && pod.account.State() == old(pod.account.State())
      ensures GetOrders(orderProvider, date) != [] && downloaded.Err? ==>
        r == Err(downloaded.error) && pod.account.State() == old(pod.account.State())
      ensures GetOrders(orderProvider, date) != [] && downloaded.Ok? ==>
        var pd := PriceDate(date, priceDate);
        Outcome(pod.account.State(), r) ==
          PodOrder(Corrected, pod.Configuration(), old(pod.account.State()), GetOrders(orderProvider, date), pd,
                   Reader(pod.provider.View(), pd), closing)
    {
      downloaded := Ok(());
      closing := [];
      var orders := GetOrders(orderProvider, date);
      if |orders| == 0 {
        return Err(AssertionError(EmptyOrders)), downloaded, closing;
      }
      OrdersNamed(orderProvider, date);
      r, downloaded, closing := pod.Order(date, orders, priceDate);
    }

    /** The revaluation of a trading day after the first: a day on which
        no holding was brought up to date is reported as a day without
        trading, any other with a snapshot.  The result says whether the
        day traded. */
    method OpenDay(date: Date) returns (r: Result<bool>, ghost fired: seq<Event>)
      requires Valid()
      modifies pod.account.Repr, pod.exporters
      ensures Valid() && pod.account.Repr == old(pod.account.Repr)
      ensures pod.exporters.events == old(pod.exporters.events) + fired
      ensures r.Err? ==> fired == []
      ensures r.Ok? && !r.value ==> Marks(fired) == [DayLoop.Skipped(date, DayLoop.NoValue, false)]
      ensures r.Ok? && r.value ==> Marks(fired) == [DayLoop.Snapped(date, false, None)]
    {
      fired := [];
      var symbols := pod.Listing();
      var revalued := Revalue(date, symbols);
      if revalued.Err? {
        return Err(revalued.error), fired;
      }
      r, fired := ReportValues(date, revalued.value);
    }

    /** What follows a revaluation that raised nothing. */
    method ReportValues(date: Date, traded: bool) returns (r: Result<bool>, ghost fired: seq<Event>)
      requires Valid()
      modifies pod.exporters
      ensures Valid()
      ensures pod.exporters.events == old(pod.exporters.events) + fired
      ensures r == Ok(traded)
      ensures !traded ==> Marks(fired) == [DayLoop.Skipped(date, DayLoop.NoValue, false)]
      ensures traded ==> Marks(fired) == [DayLoop.Snapped(date, false, None)]
    {
      if !traded {
        pod.exporters.FireSkip(date, DayLoop.NoValue, false);
        fired := [SkipFired(date, DayLoop.NoValue, false)];
      } else {
        pod.FireSnapshot(date, None, None);
        fired := [SnapshotFired(date, pod.account.State(), None, None)];
      }
      assert Marks(fired) == Marks([]) + MarkOf(fired[0]);
      r := Ok(traded);
    }

    /** The pending order of the loop, given on `orderDate`, placed with
        the day as its price date: a batch that returns no result is
        reported as a day without trading (the order stays pending), any
        other with a snapshot carrying the result, marked as postponed when
        the order was given on an earlier day.  The result says whether the
        batch returned anything. */
    method PlacePending(orderDate: Date, date: Date) returns (r: Result<bool>, ghost fired: seq<Event>)
      requires Valid()
      modifies pod.provider, pod.account.Repr, pod.exporters
      ensures Valid() && fresh(pod.account.Repr - old(pod.account.Repr))
      ensures pod.exporters.events == old(pod.exporters.events) + fired
      ensures r.Err? ==> fired == []
      ensures r.Ok? && !r.value ==> Marks(fired) == [DayLoop.Skipped(date, DayLoop.NoOrder, true)]
      ensures r.Ok? && r.value ==>
        Marks(fired) == [DayLoop.Snapped(date, true, if orderDate != date then Some(orderDate) else None)]
    {
      fired := [];
      var result, _, _ := Order(orderDate, Some(date));
      if result.Err? {
        return Err(result.error), fired;
      }
      r, fired := Report(orderDate, date, result.value);
    }

    /** What follows a batch that raised nothing, in run's loop: a skip when
        it returned no result, a snapshot carrying it otherwise. */
    method Report(orderDate: Date, date: Date, result: Collection) returns (r: Result<bool>, ghost fired: seq<Event>)
      requires Valid()
      modifies pod.exporters
      ensures Valid()
      ensures pod.exporters.events == old(pod.exporters.events) + fired
      ensures r == Ok(|result.elements| != 0)
      ensures |result.elements| == 0 ==> Marks(fired) == [DayLoop.Skipped(date, DayLoop.NoOrder, true)]
      ensures |result.elements| != 0 ==>
        Marks(fired) == [DayLoop.Snapped(date, true, if orderDate != date then Some(orderDate) else None)]
    {
      if |result.elements| == 0 {
        pod.exporters.FireSkip(date, DayLoop.NoOrder, true);
        fired := [SkipFired(date, DayLoop.NoOrder, true)];
        assert Marks(fired) == Marks([]) + MarkOf(fired[0]);
        return Ok(false), fired;
      }
      var postponned := if orderDate != date then Some(orderDate) else None;
      pod.FireSnapshot(date, Some(result), postponned);
      fired := [SnapshotFired(date, pod.account.State(), Some(result), postponned)];
      assert Marks(fired) == Marks([]) + MarkOf(fired[0]);
      r := Ok(true);
    }

    /** The snapshot that ends the first trading day. */
    method FirstSnapshot(date: Date) returns (ghost fired: seq<Event>)
      requires Valid()
      modifies pod.exporters
      ensures Valid() && pod.account.Repr == old(pod.account.Repr)
      ensures pod.exporters.events == old(pod.exporters.events) + fired
      ensures Marks(fired) == [DayLoop.Snapped(date, false, None)]
    {
      pod.FireSnapshot(date, None, None);
      fired := [SnapshotFired(date, pod.account.State(), None, None)];
      assert Marks(fired) == Marks([]) + MarkOf(fired[0]);
    }

    /** One turn of run's loop, on `date`, from the loop's flags `cur`: the
        calls it makes to the exporters are `fired`, and, unless an
        exception ends the run, they and the new flags are the day that
        DayLoop.Day describes, given what the account answered (`found`):
        whether the revaluation found a trading day and whether the batch
        returned any result. */
    method Turn(date: Date, cur: DayLoop.Cursor)
      returns (r: Result<DayLoop.Cursor>, ghost found: DayLoop.Found, ghost fired: seq<Event>)
      requires Valid()
      modifies pod.provider, pod.account.Repr, pod.exporters
      ensures Valid() && fresh(pod.account.Repr - old(pod.account.Repr))
      ensures pod.exporters.events == old(pod.exporters.events) + fired
      ensures r.Ok? ==>
        var t := DayLoop.Day(DayLoop.PlanOf(dateIterator), cur, date, found);
        r.value == t.cursor && Marks(fired) == t.marks
    {
      var ordered := cur.ordered || date in dateIterator.orderDates;
      var orderDate := if date in dateIterator.orderDates then date else cur.orderDate;
      var skip := DayLoop.Skipping(dateIterator, date, ordered);
      if skip.Some? {
        pod.exporters.FireSkip(date, skip.value.reason, ordered);
        fired := [SkipFired(date, skip.value.reason, ordered)];
        assert Marks(fired) == Marks([]) + MarkOf(fired[0]);
        return Ok(DayLoop.Cursor(ordered, orderDate, cur.preTrading)), DayLoop.Found(false, false), fired;
      }
      r, found, fired := Trade(date, cur.preTrading, ordered, orderDate);
    }

    /** The rest of a day that is not skipped, as DayLoop.Trading describes
        it. */
    method Trade(date: Date, preTrading: bool, ordered: bool, orderDate: Date)
      returns (r: Result<DayLoop.Cursor>, ghost found: DayLoop.Found, ghost fired: seq<Event>)
      requires Valid()
      modifies pod.provider, pod.account.Repr, pod.exporters
      ensures Valid() && fresh(pod.account.Repr - old(pod.account.Repr))
      ensures pod.exporters.events == old(pod.exporters.events) + fired
      ensures r.Ok? ==>
        var t := DayLoop.Trading(preTrading, date, ordered, orderDate, found);
        r.value == t.cursor && Marks(fired) == t.marks
    {
      var traded := true;
      fired := [];
      if !preTrading {
        var day, revalued := OpenDay(date);
        if day.Err? {
          return Err(day.error), DayLoop.Found(false, false), revalued;
        }
        traded := day.value;
        fired := revalued;
        if !traded {
          return Ok(DayLoop.Cursor(ordered, orderDate, preTrading)), DayLoop.Found(false, false), fired;
        }
      }
      ghost var executed, rest;
      ghost var before := pod.exporters.events;
      assert before == old(pod.exporters.events) + fired;
      r, executed, rest := Place(date, preTrading, ordered, orderDate);
      found := DayLoop.Found(traded, executed);
      MarksAppend(fired, rest);
      Regroup(old(pod.exporters.events), fired, rest);
      fired := fired + rest;
    }

    /** The pending order and the first day's snapshot, as DayLoop.Placing
        describes them. */
    method Place(date: Date, preTrading: bool, ordered: bool, orderDate: Date)
      returns (r: Result<DayLoop.Cursor>, ghost executed: bool, ghost fired: seq<Event>)
      requires Valid()
      modifies pod.provider, pod.account.Repr, pod.exporters
      ensures Valid() && fresh(pod.account.Repr - old(pod.account.Repr))
      ensures pod.exporters.events == old(pod.exporters.events) + fired
      ensures r.Ok? ==>
        var t := DayLoop.Placing(preTrading, date, ordered, orderDate, executed);
        r.value == t.cursor && Marks(fired) == t.marks
    {
      executed := false;
      fired := [];
      if ordered {
        var result, placed := PlacePending(orderDate, date);
        fired := placed;
        if result.Err? {
          return Err(result.error), executed, fired;
        }
        executed := result.value;
        if !result.value {
          return Ok(DayLoop.Cursor(ordered, orderDate, preTrading)), executed, fired;
        }
      }
      if preTrading {
        ghost var before := pod.exporters.events;
        assert before == old(pod.exporters.events) + fired;
        var first := FirstSnapshot(date);
        MarksAppend(fired, first);
        Regroup(old(pod.exporters.events), fired, first);
        fired := fired + first;
      }
      r := Ok(DayLoop.Cursor(false, orderDate, false));
    }

    /** run: the days from the iterator's start to its end, one turn each,
        between the initialize and finalize calls, and the provider's cache
        saved at the end.  What is reported to the exporters, day after
        day, is the run DayLoop.Through describes, given what the account
        answered each day (`found`); an exception ends the run where it
        was raised, before the save and the finalize call.  The files
        written are the cache files, when caching and something was
        downloaded. */
    method Run() returns (r: Result<seq<(string, Frame)>>, ghost found: map<Date, DayLoop.Found>, ghost reported: seq<Event>)
      requires Valid()
      modifies pod.provider, pod.account.Repr, pod.exporters
      ensures Valid()
      ensures pod.exporters.events ==
        old(pod.exporters.events) + [Initialized] + reported + (if r.Ok? then [Finalized] else [])
      ensures r.Ok? ==>
        Marks(reported) == DayLoop.Through(DayLoop.PlanOf(dateIterator), FoundOf(found), dateIterator.end).marks
      ensures r.Ok? ==> (r.value != [] <==> pod.provider.settings.caching && pod.provider.updated)
    {
      pod.exporters.FireInitialize();
      var walked;
      walked, found, reported := Walk();
      if walked.Err? {
        return Err(walked.error), found, reported;
      }
      var written := pod.provider.Save();
      pod.exporters.FireFinalize();
      r := Ok(written);
    }

    /** run's loop: `date` walks from the day before the iterator's start
        to its end, each day one turn. */
    method Walk() returns (r: Result<()>, ghost found: map<Date, DayLoop.Found>, ghost reported: seq<Event>)
      requires Valid()
      modifies pod.provider, pod.account.Repr, pod.exporters
      ensures Valid() && fresh(pod.account.Repr - old(pod.account.Repr))
      ensures pod.exporters.events == old(pod.exporters.events) + reported
      ensures r.Ok? ==>
        Marks(reported) == DayLoop.Through(DayLoop.PlanOf(dateIterator), FoundOf(found), dateIterator.end).marks
    {
      ghost var p := DayLoop.PlanOf(dateIterator);
      found := map[];
      reported := [];
      var cur := DayLoop.Initial;
      var date := dateIterator.start - 1;
      while date < dateIterator.end
        invariant Valid() && fresh(pod.account.Repr - old(pod.account.Repr))
        invariant dateIterator.start - 1 <= date && (date > dateIterator.end ==> date == dateIterator.start - 1)
        invariant pod.exporters.events == old(pod.exporters.events) + reported
        invariant forall d :: d in found ==> d <= date
        invariant DayLoop.Through(p, FoundOf(found), date) == DayLoop.Turn(cur, Marks(reported))
        decreases dateIterator.end - date
      {
        date := date + 1;
        var next, answered, fired := Turn(date, cur);
        ThroughNextDay(p, found, date, answered, cur, Marks(reported));
        found := found[date := answered];
        MarksAppend(reported, fired);
        Regroup(old(pod.exporters.events), reported, fired);
        reported := reported + fired;
        if next.Err? {
          return Err(next.error), found, reported;
        }
        cur := next.value;
      }
      if date != dateIterator.end {
        assert DayLoop.Through(p, FoundOf(found), dateIterator.end) == DayLoop.Turn(DayLoop.Initial, []);
      }
      r := Ok(());
    }
  }

  /** A sweep of the simple backtester ended: the ledger `after` is
      `before` with the sweep's holdings, and the result is the read that
      raised, or else whether a holding was brought up to date. */
  predicate Ends(before: Ledger, sweep: DailyUpdates.Sweep, after: Ledger, r: Result<bool>) {
    after == before.(positions := sweep.positions) &&
    (r.Ok? <==> sweep.failure.None?) && (r.Ok? ==> r.value == sweep.traded) && (r.Err? ==> r.error == sweep.failure.value)
  }

  /** The simple backtester's sweep on its pod. */
  method PodSweep(pod: Pod, date: Date, symbols: seq<string>, field: DailyUpdates.Field) returns (r: Result<bool>)
    requires pod.Valid() && IsEnumeration(symbols, pod.account.holdings.Keys)
    modifies pod.account.Repr
    ensures pod.Valid() && pod.account.Repr == old(pod.account.Repr) && pod.account.holdings == old(pod.account.holdings)
    ensures Ends(old(pod.account.State()), DailyUpdates.UpdateAll(old(pod.account.State()).positions, symbols,
                 Read(pod.provider.View(), field == DailyUpdates.Price, date), field, date, true), pod.account.State(), r)
  {
    var account := pod.account;
    ghost var l := account.State();
    ghost var read := Read(pod.provider.View(), field == DailyUpdates.Price, date);
    var traded := false;
    var j := 0;
    while j < |symbols|
      invariant 0 <= j <= |symbols|
      invariant pod.Valid() && account.Repr == old(account.Repr) && account.holdings == old(account.holdings)
      invariant Updated(account, l, symbols[..j], read, field, date, traded)
    {
      var x;
      x, traded := UpdateStep(pod, date, field, l, symbols, j, traded);
      if x.Err? {
        return Err(x.error);
      }
      j := j + 1;
    }
    assert symbols[..j] == symbols;
    return Ok(traded);
  }

  /** An account's holdings after the first holdings of the simple
      backtester's sweep: those listed, in that order, were read from
      `read` and rewritten with the date stamped, no read raised, and
      `traded` says whether one of them was brought up to date. */
  ghost predicate Updated(account: Account, before: Ledger, symbols: seq<string>, read: Quote, field: DailyUpdates.Field,
                          date: Date, traded: bool)
    reads account, account.Repr
  {
    account.Valid() && (forall i :: 0 <= i < |symbols| ==> symbols[i] in before.positions) &&
    var sweep := DailyUpdates.UpdateAll(before.positions, symbols, read, field, date, true);
    sweep.failure.None? && account.State() == before.(positions := sweep.positions) && traded == sweep.traded
  }

  /** One more holding, `symbols[j]`, of the simple backtester's sweep: its
      price or total return of the day, written into it with the date
      stamped when the read raised nothing; a read that raises ends the
      sweep there. */
  method UpdateStep(pod: Pod, date: Date, field: DailyUpdates.Field, ghost l: Ledger, symbols: seq<string>, j: nat,
                    traded: bool)
    returns (x: Result<Option<real>>, traded': bool)
    requires j < |symbols| && pod.Valid() && symbols[j] in pod.account.holdings
    requires forall i :: 0 <= i < |symbols| ==> symbols[i] in l.positions
    requires Updated(pod.account, l, symbols[..j], Read(pod.provider.View(), field == DailyUpdates.Price, date), field, date, traded)
    modifies pod.account.Repr
    ensures pod.Valid() && pod.account.Repr == old(pod.account.Repr) && pod.account.holdings == old(pod.account.holdings)
    ensures x.Ok? ==>
      Updated(pod.account, l, symbols[..j + 1], Read(pod.provider.View(), field == DailyUpdates.Price, date), field, date, traded')
    ensures x.Err? ==>
      Ends(l, DailyUpdates.UpdateAll(l.positions, symbols, Read(pod.provider.View(), field == DailyUpdates.Price, date),
                                     field, date, true), pod.account.State(), Err(x.error))
  {
    ghost var read := Read(pod.provider.View(), field == DailyUpdates.Price, date);
    var symbol := symbols[j];
    x := if field == DailyUpdates.Price then pod.provider.GetUnmapped(date, symbol)
         else pod.provider.GetTotalReturnUnmapped(date, symbol);
    assert x == read(symbol);
    DailyUpdates.UpdateAllStep(l.positions, symbols[..j], symbol, read, field, date, true);
    SliceStep(symbols, j);
    traded' := traded;
    if x.Ok? {
      pod.Refresh(symbol, field, x.value, date, true);
      traded' := traded || pod.account.holdings[symbol].upToDate;
    } else {
      DailyUpdates.UpdateAllStops(l.positions, symbols, j + 1, read, field, date, true);
    }
  }

  /** A pod's holdings after the parallel update_price's sweep: those listed,
      in that order, were priced by `prices` without stamping the date, and
      no read raised. */
  ghost predicate Swept(account: Account, before: Ledger, symbols: seq<string>, prices: Quote, date: Date)
    reads account, account.Repr
  {
    account.Valid() && Sweeps(before, symbols, prices, date, account.State())
  }

  /** Swept, on values: `after` is `before` with the listed holdings priced
      by `prices`, none of those reads having raised. */
  ghost predicate Sweeps(before: Ledger, symbols: seq<string>, prices: Quote, date: Date, after: Ledger) {
    (forall i :: 0 <= i < |symbols| ==> symbols[i] in before.positions) &&
    var sweep := DailyUpdates.ParallelUpdate(before.positions, symbols, prices, date);
    sweep.failure.None? && after == before.(positions := sweep.positions)
  }

  /** A pod after its turn in the parallel update_price, from `was`: its
      holdings, listed by `listing`, swept with `prices`, then one snapshot
      with no result fired for the day. */
  ghost predicate Turned(now: PodState, was: PodState, listing: seq<string>, prices: Quote, date: Date) {
    IsEnumeration(listing, was.held) && now.held == was.held && Sweeps(was.ledger, listing, prices, date, now.ledger) &&
    now.events == was.events + [SnapshotFired(date, now.ledger, None, None)]
  }

  /** update_price's cache of the day: each entry is what the provider's get
      returned for the symbol. */
  ghost predicate Memo(cache: map<string, Option<real>>, c: Cache, date: Date) {
    forall s :: s in cache ==> ReadPrice(c, s, s, date) == Ok(cache[s])
  }

  /** A pod's turn in the parallel backtester's update_price: each holding,
      in the account's order, priced from the day's cache or, when the
      cache has no price for it, from the provider (the answer joins the
      cache), then a snapshot with no result. */
  method SharedUpdate(pod: Pod, date: Date, cache: map<string, Option<real>>, symbols: seq<string>)
    returns (r: Result<()>, cache': map<string, Option<real>>, ghost failedOn: string)
    requires pod.Valid() && Memo(cache, pod.provider.View(), date) && IsEnumeration(symbols, pod.account.holdings.Keys)
    modifies pod.account.Repr, pod.exporters
    ensures pod.Valid() && pod.account.Repr == old(pod.account.Repr) && pod.account.holdings == old(pod.account.holdings)
    ensures Memo(cache', pod.provider.View(), date)
    ensures r.Ok? ==>
      Sweeps(old(pod.account.State()), symbols, Read(pod.provider.View(), true, date), date, pod.account.State()) &&
      pod.exporters.events == old(pod.exporters.events) + [SnapshotFired(date, pod.account.State(), None, None)]
    ensures r.Err? ==> Read(pod.provider.View(), true, date)(failedOn) == Err(r.error)
  {
    r, cache', failedOn := SharedSweep(pod, date, cache, symbols);
    if r.Ok? {
      pod.FireSnapshot(date, None, None);
    }
  }

  /** The day's price of a symbol in update_price: the cached one when the
      cache has a price for it; otherwise the provider's answer, which joins
      the cache. */
  method Lookup(provider: PriceProvider, date: Date, symbol: string, cache: map<string, Option<real>>)
    returns (price: Result<Option<real>>, cache': map<string, Option<real>>)
    requires Memo(cache, provider.View(), date)
    ensures price == ReadPrice(provider.View(), symbol, symbol, date)
    ensures Memo(cache', provider.View(), date)
    ensures price.Ok? ==> cache' == cache[symbol := price.value]
    ensures price.Err? ==> cache' == cache
  {
    cache' := cache;
    if symbol in cache && cache[symbol].Some? {
      price := Ok(cache[symbol]);
    } else {
      price := provider.GetUnmapped(date, symbol);
      if price.Ok? {
        cache' := cache[symbol := price.value];
      }
    }
  }

  /** One holding of the parallel update_price: its price of the day, from
      the cache or the provider, written into it when the read raised
      nothing. */
  method Reprice(pod: Pod, date: Date, symbol: string, cache: map<string, Option<real>>)
    returns (price: Result<Option<real>>, cache': map<string, Option<real>>)
    requires pod.Valid() && symbol in pod.account.holdings && Memo(cache, pod.provider.View(), date)
    modifies pod.account.Repr
    ensures pod.Valid() && pod.account.Repr == old(pod.account.Repr) && pod.account.holdings == old(pod.account.holdings)
    ensures Memo(cache', pod.provider.View(), date)
    ensures price == Read(pod.provider.View(), true, date)(symbol)
    ensures price.Ok? ==> pod.account.State() == old(pod.account.State()).(positions := old(pod.account.State()).positions[
      symbol := DailyUpdates.Refreshed(old(pod.account.State()).positions[symbol], DailyUpdates.Price, price.value, date, false)])
  {
    price, cache' := Lookup(pod.provider, date, symbol, cache);
    if price.Ok? {
      pod.Refresh(symbol, DailyUpdates.Price, price.value, date, false);
    }
  }

  /** One more holding of SharedSweep's loop. */
  method SweepStep(pod: Pod, date: Date, cache: map<string, Option<real>>, ghost l: Ledger, ghost done: seq<string>,
                   symbol: string)
    returns (price: Result<Option<real>>, cache': map<string, Option<real>>)
    requires pod.Valid() && symbol in pod.account.holdings && symbol in l.positions && Memo(cache, pod.provider.View(), date)
    requires Swept(pod.account, l, done, Read(pod.provider.View(), true, date), date)
    modifies pod.account.Repr
    ensures pod.Valid() && pod.account.Repr == old(pod.account.Repr) && pod.account.holdings == old(pod.account.holdings)
    ensures Memo(cache', pod.provider.View(), date)
    ensures price.Ok? ==> Swept(pod.account, l, done + [symbol], Read(pod.provider.View(), true, date), date)
    ensures price.Err? ==> Read(pod.provider.View(), true, date)(symbol) == Err(price.error)
  {
    ghost var read := Read(pod.provider.View(), true, date);
    DailyUpdates.UpdateAllStep(l.positions, done, symbol, read, DailyUpdates.Price, date, false);
    price, cache' := Reprice(pod, date, symbol, cache);
  }

  /** The sweep of SharedUpdate, before its snapshot. */
  method SharedSweep(pod: Pod, date: Date, cache: map<string, Option<real>>, symbols: seq<string>)
    returns (r: Result<()>, cache': map<string, Option<real>>, ghost failedOn: string)
    requires pod.Valid() && Memo(cache, pod.provider.View(), date) && IsEnumeration(symbols, pod.account.holdings.Keys)
    modifies pod.account.Repr
    ensures pod.Valid() && pod.account.Repr == old(pod.account.Repr) && pod.account.holdings == old(pod.account.holdings)
    ensures Memo(cache', pod.provider.View(), date)
    ensures r.Ok? ==> Swept(pod.account, old(pod.account.State()), symbols, Read(pod.provider.View(), true, date), date)
    ensures r.Err? ==> Read(pod.provider.View(), true, date)(failedOn) == Err(r.error)
  {
    ghost var l := pod.account.State();
    cache' := cache;
    failedOn := "";
    ghost var done: seq<string> := [];
    var j := 0;
    while j < |symbols|
      invariant 0 <= j <= |symbols| && done == symbols[..j]
      invariant pod.Valid() && pod.account.Repr == old(pod.account.Repr) && pod.account.holdings == old(pod.account.holdings)
      invariant Memo(cache', pod.provider.View(), date)
      invariant Swept(pod.account, l, done, Read(pod.provider.View(), true, date), date)
    {
      var symbol := symbols[j];
      var price;
      price, cache' := SweepStep(pod, date, cache', l, done, symbol);
      if price.Err? {
        return Err(price.error), cache', symbol;
      }
      SliceStep(symbols, j);
      done := done + [symbol];
      j := j + 1;
    }
    assert done == symbols;
    r := Ok(());
  }

  /** Two pods of the parallel backtester that hold the same symbol end the
      day's update with the same price for it, read once and shared. */
  lemma SharedPrice(a: Ledger, b: Ledger, symbolsA: seq<string>, symbolsB: seq<string>, prices: Quote, date: Date, s: string)
    requires IsEnumeration(symbolsA, a.positions.Keys) && IsEnumeration(symbolsB, b.positions.Keys)
    requires DailyUpdates.ParallelUpdate(a.positions, symbolsA, prices, date).failure.None?
    requires DailyUpdates.ParallelUpdate(b.positions, symbolsB, prices, date).failure.None?
    requires s in a.positions && s in b.positions && prices(s).Ok? && prices(s).value.Some?
    ensures var pa := DailyUpdates.ParallelUpdate(a.positions, symbolsA, prices, date).positions[s];
      var pb := DailyUpdates.ParallelUpdate(b.positions, symbolsB, prices, date).positions[s];
      pa.price == pb.price == prices(s).value.value && pa.upToDate && pb.upToDate
  {
    EnumerationDistinct(symbolsA, a.positions.Keys);
    EnumerationDistinct(symbolsB, b.positions.Keys);
    DailyUpdates.UpdateAllEach(a.positions, symbolsA, prices, DailyUpdates.Price, date, false);
    DailyUpdates.UpdateAllEach(b.positions, symbolsB, prices, DailyUpdates.Price, date, false);
    var i :| 0 <= i < |symbolsA| && symbolsA[i] == s;
    var j :| 0 <= j < |symbolsB| && symbolsB[j] == s;
  }

  /** A pod's turn in the parallel update_price, its holdings listed in
      the account's order. */
  method PodTurn(pod: Pod, date: Date, cache: map<string, Option<real>>)
    returns (r: Result<()>, cache': map<string, Option<real>>, symbols: seq<string>, ghost failedOn: string)
    requires pod.Valid() && Memo(cache, pod.provider.View(), date)
    modifies pod.account.Repr, pod.exporters
    ensures pod.Valid() && pod.account.Repr == old(pod.account.Repr)
    ensures Memo(cache', pod.provider.View(), date)
    ensures r.Ok? ==> Turned(pod.Now(), old(pod.Now()), symbols, Read(pod.provider.View(), true, date), date)
    ensures r.Err? ==> Read(pod.provider.View(), true, date)(failedOn) == Err(r.error)
  {
    ghost var was := pod.Now();
    ghost var view := pod.provider.View();
    symbols := pod.Listing();
    assert pod.Now() == was && pod.provider.View() == view;
    r, cache', failedOn := SharedUpdate(pod, date, cache, symbols);
  }

  /** Pods that share nothing but the price provider: each account owns
      its objects alone, and no account owns a pod or an exporter
      collection. */
  ghost predicate Separate(pods: seq<Pod>)
    reads set i | 0 <= i < |pods| :: pods[i].account
  {
    (forall i, j :: 0 <= i < |pods| && 0 <= j < |pods| && i != j ==>
       pods[i].account.Repr !! pods[j].account.Repr && pods[i].exporters != pods[j].exporters) &&
    (forall i, j :: 0 <= i < |pods| && 0 <= j < |pods| ==>
       pods[i].exporters !in pods[j].account.Repr && pods[i] !in pods[j].account.Repr)
  }

  /** Pods keep apart while their accounts own the same objects. */
  twostate lemma SeparateKept(pods: seq<Pod>)
    requires old(Separate(pods)) && forall i :: 0 <= i < |pods| ==> pods[i].account.Repr == old(pods[i].account.Repr)
    ensures Separate(pods)
  {
  }

  /** A pod none of whose objects changed keeps its state. */
  twostate lemma PodKept(pod: Pod)
    requires old(pod.Valid()) && unchanged(pod, pod.account, pod.exporters) && unchanged(old(pod.account.Repr))
    ensures pod.Valid() && pod.account.Repr == old(pod.account.Repr) && pod.Now() == old(pod.Now())
  {
  }

  /** One pod's turn in the parallel update_price: the other pods keep
      their state. */
  method UpdateOne(pods: seq<Pod>, k: nat, date: Date, cache: map<string, Option<real>>)
    returns (r: Result<()>, cache': map<string, Option<real>>, symbols: seq<string>, ghost failedOn: string)
    requires k < |pods| && (forall i :: 0 <= i < |pods| ==> pods[i].Valid()) && Separate(pods)
    requires Memo(cache, pods[k].provider.View(), date)
    modifies pods[k].account.Repr, pods[k].exporters
    ensures forall i :: 0 <= i < |pods| ==> pods[i].Valid() && pods[i].account.Repr == old(pods[i].account.Repr)
    ensures forall i :: 0 <= i < |pods| && i != k ==> pods[i].Now() == old(pods[i].Now())
    ensures pods[k].provider.View() == old(pods[k].provider.View()) && Memo(cache', pods[k].provider.View(), date)
    ensures r.Ok? ==> Turned(pods[k].Now(), old(pods[k].Now()), symbols, Read(pods[k].provider.View(), true, date), date)
    ensures r.Err? ==> Read(pods[k].provider.View(), true, date)(failedOn) == Err(r.error)
  {
    var pod := pods[k];
    r, cache', symbols, failedOn := PodTurn(pod, date, cache);
    forall i | 0 <= i < |pods| && i != k
      ensures pods[i].Valid() && pods[i].Now() == old(pods[i].Now())
    {
      assert old(pods[i].account.Repr !! pods[k].account.Repr && pods[i] !in pods[k].account.Repr);
      assert old(pods[i].exporters !in pods[k].account.Repr) && pods[i].exporters != pods[k].exporters;
      PodKept(pods[i]);
    }
  }

  /** A new pod on `provider`, with a new account and exporter collection. */
  method NewPod(initialCash: real, feeModel: Option<FeeModel>, quantityInDecimal: bool, autoCloseOthers: bool,
                provider: PriceProvider) returns (pod: Pod)
    ensures fresh(pod) && fresh(pod.account.Repr) && fresh(pod.exporters)
    ensures pod.Valid() && pod.provider == provider
    ensures pod.account.State() == Ledger(initialCash, initialCash, map[]) && pod.exporters.events == []
    ensures pod.quantityInDecimal == quantityInDecimal && pod.autoCloseOthers == autoCloseOthers
  {
    var account := new Account(initialCash, feeModel);
    var exporters := new Exporters();
    pod := new Pod(quantityInDecimal, autoCloseOthers, provider, account, exporters);
  }

  /** The `n` pods of ParallelBacktester's constructor. */
  method NewPods(n: nat, initialCash: real, feeModel: Option<FeeModel>, quantityInDecimal: bool, autoCloseOthers: bool,
                 provider: PriceProvider) returns (pods: seq<Pod>)
    ensures |pods| == n && Separate(pods)
    ensures forall i :: 0 <= i < n ==>
      pods[i].Valid() && pods[i].provider == provider &&
      pods[i].account.State() == Ledger(initialCash, initialCash, map[]) && pods[i].exporters.events == [] &&
      pods[i].quantityInDecimal == quantityInDecimal && pods[i].autoCloseOthers == autoCloseOthers
  {
    pods := [];
    while |pods| < n
      invariant |pods| <= n && Separate(pods)
      invariant forall i :: 0 <= i < |pods| ==>
        pods[i].Valid() && pods[i].provider == provider &&
        pods[i].account.State() == Ledger(initialCash, initialCash, map[]) && pods[i].exporters.events == [] &&
        pods[i].quantityInDecimal == quantityInDecimal && pods[i].autoCloseOthers == autoCloseOthers
      decreases n - |pods|
    {
      var pod := NewPod(initialCash, feeModel, quantityInDecimal, autoCloseOthers, provider);
      pods := pods + [pod];
    }
  }

  /** The loop of the parallel update_price: the pods in turn, sharing one
      price cache for the day; a read that raises ends the update. */
  method UpdatePods(pods: seq<Pod>, provider: PriceProvider, date: Date)
    returns (r: Result<()>, ghost listings: seq<seq<string>>, ghost failedOn: string)
    requires PodsValid(pods, provider)
    modifies Footprint(pods), ExportersOf(pods)
    ensures PodsValid(pods, provider) && forall i :: 0 <= i < |pods| ==> pods[i].account.Repr == old(pods[i].account.Repr)
    ensures r.Ok? ==> |listings| == |pods| && forall i :: 0 <= i < |pods| ==>
      Turned(pods[i].Now(), old(pods[i].Now()), listings[i], Read(provider.View(), true, date), date)
    ensures r.Err? ==> Read(provider.View(), true, date)(failedOn) == Err(r.error)
  {
    ghost var view := provider.View();
    var cache := map[];
    listings := [];
    failedOn := "";
    var k := 0;
    while k < |pods|
      invariant 0 <= k <= |pods| && |listings| == k
      invariant (forall i :: 0 <= i < |pods| ==> pods[i].Valid() && pods[i].provider == provider) && Separate(pods)
      invariant forall i :: 0 <= i < |pods| ==> pods[i].account.Repr == old(pods[i].account.Repr)
      invariant provider.View() == view && Memo(cache, view, date)
      invariant forall i :: 0 <= i < k ==> Turned(pods[i].Now(), old(pods[i].Now()), listings[i], Read(view, true, date), date)
      invariant forall i :: k <= i < |pods| ==> pods[i].Now() == old(pods[i].Now())
    {
      assert pods[k].provider == provider;
      var res, next, symbols, failed := UpdateOne(pods, k, date, cache);
      SeparateKept(pods);
      if res.Err? {
        return res, listings, failed;
      }
      cache := next;
      listings := listings + [symbols];
      k := k + 1;
    }
    r := Ok(());
  }

  /** The accounts of `pods`. */
  ghost function AccountsOf(pods: seq<Pod>): set<Account> {
    set i | 0 <= i < |pods| :: pods[i].account
  }

  /** The objects the pods' accounts own. */
  ghost function Footprint(pods: seq<Pod>): set<object>
    reads AccountsOf(pods)
  {
    set i, o | 0 <= i < |pods| && o in pods[i].account.Repr :: o
  }

  /** The pods' exporter collections. */
  ghost function ExportersOf(pods: seq<Pod>): set<Exporters> {
    set i | 0 <= i < |pods| :: pods[i].exporters
  }

  ghost function PodsReads(pods: seq<Pod>): set<object>
    reads AccountsOf(pods)
  {
    (set i | 0 <= i < |pods| :: pods[i]) + AccountsOf(pods) + Footprint(pods)
  }

  /** Pods that are each valid, share `provider` and nothing else. */
  ghost predicate PodsValid(pods: seq<Pod>, provider: PriceProvider)
    reads PodsReads(pods)
  {
    (forall i :: 0 <= i < |pods| ==> pods[i].Valid() && pods[i].provider == provider) && Separate(pods)
  }

  /** ParallelBacktester: `n` pods, each with its own account and exporter
      collection, trading the same order book side by side on one shared
      price provider. */
  class ParallelBacktester {
    const dateIterator: DateIterator
    const provider: PriceProvider
    const pods: seq<Pod>

    ghost predicate Valid()
      reads PodsReads(pods)
    {
      PodsValid(pods, provider)
    }

    /** ParallelBacktester(n, start, end, order_provider, initial_cash, ...):
        the run starts at the later of the first order date and `start`;
        every pod gets a new account and its own exporter collection, and
        all of them share one new price provider.  `orderDates` stands for
        what the order provider's get_dates returns. */
    constructor (n: nat, start: Date, end: Date, orderDates: seq<Date>, initialCash: real, quantityInDecimal: bool,
                 source: Source, autoCloseOthers: bool, mapper: Option<Mapping>, feeModel: Option<FeeModel>,
                 caching: bool, allowWeekends: bool, allowHolidays: bool, isHoliday: Date -> bool,
                 cachedPrices: Option<Frame>, cachedReturns: Option<Frame>)
      requires orderDates != []
      ensures Valid() && |pods| == n
      ensures var first := if orderDates[0] > start then orderDates[0] else start;
        dateIterator == DateIterator(first, end, source.closeable, orderDates, isHoliday, allowWeekends, allowHolidays) &&
        provider.settings.start == first && provider.settings.end == end &&
        provider.settings.workWithPrices == source.containsPrices
      ensures forall i :: 0 <= i < n ==>
        pods[i].account.State() == Ledger(initialCash, initialCash, map[]) && pods[i].exporters.events == [] &&
        pods[i].quantityInDecimal == quantityInDecimal && pods[i].autoCloseOthers == autoCloseOthers
    {
      var first := if orderDates[0] > start then orderDates[0] else start;
      var shared := new PriceProvider(first, end, source, mapper, caching, true, cachedPrices, cachedReturns);
      var built := NewPods(n, initialCash, feeModel, quantityInDecimal, autoCloseOthers, shared);
      provider := shared;
      pods := built;
      dateIterator := DateIterator(first, end, source.closeable, orderDates, isHoliday, allowWeekends, allowHolidays);
    }
  
    /** update_price: the pods in turn, sharing one price cache for the
        day; a read that raises ends the update. */
    method UpdatePrice(date: Date) returns (r: Result<()>, ghost listings: seq<seq<string>>, ghost failedOn: string)
      requires Valid()
      modifies Footprint(pods), ExportersOf(pods)
      ensures Valid() && forall i :: 0 <= i < |pods| ==> pods[i].account.Repr == old(pods[i].account.Repr)
      ensures r.Ok? ==> |listings| == |pods| && forall i :: 0 <= i < |pods| ==>
        Turned(pods[i].Now(), old(pods[i].Now()), listings[i], Read(provider.View(), true, date), date)
      ensures r.Err? ==> Read(provider.View(), true, date)(failedOn) == Err(r.error)
    {
      r, listings, failedOn := UpdatePods(pods, provider, date);
    }
  }
}
