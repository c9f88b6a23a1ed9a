/** bktest/backtest.py, the daily revaluation of the holdings, stated on
    values: `SimpleBacktester.update_price` and `update_values`, and
    `ParallelBacktester.update_price`.  Each walks the holdings in the
    account's order, reads one figure per holding from the price provider
    and rewrites that holding; the day counts as a trading day when some
    holding was brought up to date. */
module DailyUpdates {
  import opened Wrappers
  import opened Calendar
  import opened Orders
  import opened Holdings
  import opened Ledgers

  /** The figure a sweep rewrites: the price (update_price when the
      provider works with prices), the quantity scaled by the total return
      (update_price otherwise), or the `value` scaled by the total return
      (update_values). */
  datatype Field = Price | Quantity | Value

  /** One holding after its read.  A missing figure only marks the holding
      stale.  A present one is applied and marks it up to date; the
      single-pod backtester also stamps it with the date (`stamp`), the
      parallel one does not. */
  function Refreshed(p: Position, field: Field, read: Option<real>, date: Date, stamp: bool): Position {
    if read.None? then p.(upToDate := false)
    else
      var x := read.value;
      var q := match field
        case Price => p.(price := x)
        case Quantity => p.(quantity := p.quantity * (1.0 + x))
        case Value => p.(value := p.value * (1.0 + x));
      q.(upToDate := true, lastDateUpdated := if stamp then Some(date) else p.lastDateUpdated)
  }

  /** The holdings after a sweep, whether some holding was brought up to
      date, and the exception that stopped the sweep, if any. */
  datatype Sweep = Sweep(positions: map<string, Position>, traded: bool, failure: Option<Error>)

  /** A sweep over the held symbols in the order listed; a read that
      raises stops it, the holdings already rewritten staying so. */
  function UpdateAll(positions: map<string, Position>, symbols: seq<string>, read: string -> Result<Option<real>>,
                     field: Field, date: Date, stamp: bool): (r: Sweep)
    requires forall i :: 0 <= i < |symbols| ==> symbols[i] in positions
    ensures r.positions.Keys == positions.Keys
    decreases |symbols|
  {
    if symbols == [] then Sweep(positions, false, None)
    else
      var before := UpdateAll(positions, symbols[..|symbols| - 1], read, field, date, stamp);
      if before.failure.Some? then before
      else
        var s := symbols[|symbols| - 1];
        match read(s)
        case Err(e) => Sweep(before.positions, before.traded, Some(e))
        case Ok(x) =>
          var p := Refreshed(before.positions[s], field, x, date, stamp);
          Sweep(before.positions[s := p], before.traded || p.upToDate, None)
  }

  predicate Distinct(symbols: seq<string>) {
    forall i, j :: 0 <= i < j < |symbols| ==> symbols[i] != symbols[j]
  }

  /** A sweep that raised nothing rewrote each listed holding exactly once,
      from its own read, and left every other holding as it was. */
  lemma {:induction false} UpdateAllEach(positions: map<string, Position>, symbols: seq<string>,
                                         read: string -> Result<Option<real>>, field: Field, date: Date, stamp: bool)
    requires forall i :: 0 <= i < |symbols| ==> symbols[i] in positions
    requires Distinct(symbols)
    requires UpdateAll(positions, symbols, read, field, date, stamp).failure.None?
    ensures var r := UpdateAll(positions, symbols, read, field, date, stamp);
      (forall i :: 0 <= i < |symbols| ==>
         (read(symbols[i]).Ok? &&
          r.positions[symbols[i]] == Refreshed(positions[symbols[i]], field, read(symbols[i]).value, date, stamp))) &&
      (forall s :: s in positions && s !in symbols ==> r.positions[s] == positions[s])
    decreases |symbols|
  {
    if symbols != [] {
      var prefix := symbols[..|symbols| - 1];
      var last := symbols[|symbols| - 1];
      UpdateAllEach(positions, prefix, read, field, date, stamp);
      assert last !in prefix;
      forall s | s in positions && s !in symbols ensures s !in prefix {
      }
      forall i | 0 <= i < |prefix| ensures symbols[i] == prefix[i] && symbols[i] != last {
      }
    }
  }

  /** A sweep raises exactly when some read raises; one that raises nothing
      finds a trading day exactly when some read found a figure. */
  lemma {:induction false} UpdateAllOutcome(positions: map<string, Position>, symbols: seq<string>,
                                            read: string -> Result<Option<real>>, field: Field, date: Date, stamp: bool)
    requires forall i :: 0 <= i < |symbols| ==> symbols[i] in positions
    ensures var r := UpdateAll(positions, symbols, read, field, date, stamp);
      (r.failure.Some? <==> exists i :: 0 <= i < |symbols| && read(symbols[i]).Err?) &&
      (r.failure.None? ==> (r.traded <==> exists i :: 0 <= i < |symbols| && read(symbols[i]).value.Some?))
    decreases |symbols|
  {
    if symbols != [] {
      var prefix := symbols[..|symbols| - 1];
      var last := symbols[|symbols| - 1];
      UpdateAllOutcome(positions, prefix, read, field, date, stamp);
      var before := UpdateAll(positions, prefix, read, field, date, stamp);
      if (exists i :: 0 <= i < |symbols| && read(symbols[i]).Err?) {
        var i :| 0 <= i < |symbols| && read(symbols[i]).Err?;
        if i < |prefix| {
          assert read(prefix[i]).Err?;
        }
      }
      if before.failure.Some? {
        var i :| 0 <= i < |prefix| && read(prefix[i]).Err?;
        assert read(symbols[i]).Err?;
      } else {
        forall i | 0 <= i < |prefix| ensures symbols[i] == prefix[i] {
        }
        if read(last).Ok? && (exists i :: 0 <= i < |symbols| && read(symbols[i]).value.Some?) {
          var i :| 0 <= i < |symbols| && read(symbols[i]).value.Some?;
          if i < |prefix| {
            assert read(prefix[i]).value.Some?;
          }
        }
      }
    }
  }

  /** One more holding read by a sweep that has raised nothing so far. */
  lemma UpdateAllStep(positions: map<string, Position>, symbols: seq<string>, s: string,
                      read: string -> Result<Option<real>>, field: Field, date: Date, stamp: bool)
    requires forall i :: 0 <= i < |symbols| ==> symbols[i] in positions
    requires s in positions
    requires UpdateAll(positions, symbols, read, field, date, stamp).failure.None?
    ensures forall i :: 0 <= i < |symbols + [s]| ==> (symbols + [s])[i] in positions
    ensures var before := UpdateAll(positions, symbols, read, field, date, stamp);
      UpdateAll(positions, symbols + [s], read, field, date, stamp) ==
        if read(s).Err? then Sweep(before.positions, before.traded, Some(read(s).error))
        else
          var p := Refreshed(before.positions[s], field, read(s).value, date, stamp);
          Sweep(before.positions[s := p], before.traded || p.upToDate, None)
  {
    assert (symbols + [s])[..|symbols|] == symbols;
  }

  /** A read that raises ends the sweep: the holdings after it are not
      read. */
  lemma {:induction false} UpdateAllStops(positions: map<string, Position>, symbols: seq<string>, n: nat,
                                          read: string -> Result<Option<real>>, field: Field, date: Date, stamp: bool)
    requires forall i :: 0 <= i < |symbols| ==> symbols[i] in positions
    requires n <= |symbols|
    requires UpdateAll(positions, symbols[..n], read, field, date, stamp).failure.Some?
    ensures UpdateAll(positions, symbols, read, field, date, stamp) == UpdateAll(positions, symbols[..n], read, field, date, stamp)
    decreases |symbols| - n
  {
    if n < |symbols| {
      var prefix := symbols[..|symbols| - 1];
      assert prefix[..n] == symbols[..n];
      UpdateAllStops(positions, prefix, n, read, field, date, stamp);
    } else {
      assert symbols[..n] == symbols;
    }
  }

  /** `SimpleBacktester`'s day: update_values, then update_price (called
      first in the `or`, so always), over the same listing of the
      holdings; the day trades when either sweep brought a holding up to
      date. */
  function Revalue(positions: map<string, Position>, symbols: seq<string>, changes: string -> Result<Option<real>>,
                   prices: string -> Result<Option<real>>, workWithPrices: bool, date: Date): (r: Sweep)
    requires forall i :: 0 <= i < |symbols| ==> symbols[i] in positions
    ensures r.positions.Keys == positions.Keys
  {
    var values := UpdateAll(positions, symbols, changes, Value, date, true);
    if values.failure.Some? then values
    else
      var priced := if workWithPrices then UpdateAll(values.positions, symbols, prices, Price, date, true)
                    else UpdateAll(values.positions, symbols, changes, Quantity, date, true);
      priced.(traded := priced.traded || values.traded)
  }

  /** The day's two sweeps, one after the other. */
  lemma RevalueStages(positions: map<string, Position>, symbols: seq<string>, changes: string -> Result<Option<real>>,
                      prices: string -> Result<Option<real>>, workWithPrices: bool, date: Date)
    requires forall i :: 0 <= i < |symbols| ==> symbols[i] in positions
    ensures var values := UpdateAll(positions, symbols, changes, Value, date, true);
      var r := Revalue(positions, symbols, changes, prices, workWithPrices, date);
      (values.failure.Some? ==> r == values) &&
      (values.failure.None? ==>
         var priced := if workWithPrices then UpdateAll(values.positions, symbols, prices, Price, date, true)
                       else UpdateAll(values.positions, symbols, changes, Quantity, date, true);
         r == priced.(traded := priced.traded || values.traded))
  {
  }

  /** After a day that raised nothing, a holding is up to date exactly when
      its price (or, without prices, its total return) was found: the
      second sweep decides; and it is stamped with the date when either
      sweep found its figure. */
  lemma RevalueMarks(positions: map<string, Position>, symbols: seq<string>, changes: string -> Result<Option<real>>,
                     prices: string -> Result<Option<real>>, workWithPrices: bool, date: Date, s: string)
    requires forall i :: 0 <= i < |symbols| ==> symbols[i] in positions
    requires Distinct(symbols) && s in symbols
    requires Revalue(positions, symbols, changes, prices, workWithPrices, date).failure.None?
    ensures var r := Revalue(positions, symbols, changes, prices, workWithPrices, date).positions[s];
      var second := if workWithPrices then prices(s) else changes(s);
      second.Ok? && changes(s).Ok? &&
      (r.upToDate <==> second.value.Some?) &&
      (r.lastDateUpdated == Some(date) <== changes(s).value.Some? || second.value.Some?) &&
      (r.lastDateUpdated == positions[s].lastDateUpdated <== changes(s).value.None? && second.value.None?)
  {
    var values := UpdateAll(positions, symbols, changes, Value, date, true);
    UpdateAllEach(positions, symbols, changes, Value, date, true);
    var i :| 0 <= i < |symbols| && symbols[i] == s;
    if workWithPrices {
      UpdateAllEach(values.positions, symbols, prices, Price, date, true);
    } else {
      UpdateAllEach(values.positions, symbols, changes, Quantity, date, true);
    }
  }

  /** `ParallelBacktester.update_price` for one pod: the prices sweep
      without the date stamp.  The memo of prices it keeps across pods
      returns what get returns, so it is not modelled apart. */
  function ParallelUpdate(positions: map<string, Position>, symbols: seq<string>, prices: string -> Result<Option<real>>,
                          date: Date): (r: Sweep)
    requires forall i :: 0 <= i < |symbols| ==> symbols[i] in positions
    ensures r.positions.Keys == positions.Keys
  {
    UpdateAll(positions, symbols, prices, Price, date, false)
  }

  /** As written the parallel update leaves `last_date_updated` where it
      was, so a holding bought on an earlier day, although priced today,
      cannot be ordered again today: to_relative_order raises
      AssertionError.  Stamping the date, as the single-pod backtester
      does, lets the same order through. */
  lemma ParallelUpdateLeavesStale(l: Ledger, symbols: seq<string>, prices: string -> Result<Option<real>>,
                                  date: Date, order: Order)
    requires forall i :: 0 <= i < |symbols| ==> symbols[i] in l.positions
    requires Distinct(symbols)
    requires order.symbol.Some? && order.symbol.value in symbols && order.quantity.Some?
    requires l.positions[order.symbol.value].lastDateUpdated != Some(date)
    requires ParallelUpdate(l.positions, symbols, prices, date).failure.None?
    requires prices(order.symbol.value).Ok? && prices(order.symbol.value).value.Some?
    ensures ToRelativeOrder(l.(positions := ParallelUpdate(l.positions, symbols, prices, date).positions), order, date) ==
            Err(AssertionError(""))
    ensures UpdateAll(l.positions, symbols, prices, Price, date, true).failure.None?
    ensures ToRelativeOrder(l.(positions := UpdateAll(l.positions, symbols, prices, Price, date, true).positions), order, date).Ok?
  {
    var s := order.symbol.value;
    var i :| 0 <= i < |symbols| && symbols[i] == s;
    UpdateAllEach(l.positions, symbols, prices, Price, date, false);
    UpdateAllOutcome(l.positions, symbols, prices, Price, date, false);
    UpdateAllOutcome(l.positions, symbols, prices, Price, date, true);
    UpdateAllEach(l.positions, symbols, prices, Price, date, true);
  }
}
