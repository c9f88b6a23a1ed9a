/** bktest/data/source/dataframe.py and backtest/data/source/file/parquet.py:
    data sources that hold every price in one table, built once from rows
    of (date, symbol, price), and answer a request by selecting from it. */
module TableSources {
  import opened Wrappers
  import opened Calendar
  import opened Sums
  import opened Frames

  /** One row of the input: its date, symbol and price (None for NaN). */
  datatype Row = Row(date: Date, symbol: string, price: Option<real>)

  /** The dates of the rows as pandas' pivot indexes them: each date once,
      in ascending order, whatever the order of the rows. */
  function Dates(rows: seq<Row>): (r: seq<Date>)
    ensures Ascending(r)
    ensures forall d :: d in r <==> exists i :: 0 <= i < |rows| && rows[i].date == d
  {
    if rows == [] then []
    else
      var rest := Dates(rows[1..]);
      assert forall i :: 1 <= i < |rows| ==> rows[i] == rows[1..][i - 1];
      InsertDate(rows[0].date, rest)
  }

  /** An ascending index with one more date in its place. */
  function InsertDate(d: Date, index: seq<Date>): (r: seq<Date>)
    requires Ascending(index)
    ensures Ascending(r)
    ensures forall x :: x in r <==> x == d || x in index
  {
    if index == [] then [d]
    else if d < index[0] then [d] + index
    else if d == index[0] then index
    else
      var rest := InsertDate(d, index[1..]);
      var r := [index[0]] + rest;
      assert forall x :: x in rest ==> index[0] < x by {
        forall x | x in rest ensures index[0] < x {
          if x != d {
            var k :| 0 <= k < |index[1..]| && index[1..][k] == x;
            assert index[k + 1] == x;
          }
        }
      }
      assert Ascending(r) by {
        forall i, j | 0 <= i < j < |r| ensures r[i] < r[j] {
          assert r[j] == rest[j - 1] && r[j] in rest;
        }
      }
      r
  }

  /** The distinct symbols of the rows. */
  function Symbols(rows: seq<Row>): (r: seq<string>)
    ensures forall s :: s in r <==> exists i :: 0 <= i < |rows| && rows[i].symbol == s
  {
    if rows == [] then []
    else
      var rest := Symbols(rows[1..]);
      assert forall i :: 1 <= i < |rows| ==> rows[i] == rows[1..][i - 1];
      if rows[0].symbol in rest then rest else [rows[0].symbol] + rest
  }

  /** The prices of one symbol by date; of several rows for the same
      (symbol, date) the first wins. */
  function Cells(rows: seq<Row>, symbol: string): (r: map<Date, Option<real>>)
    ensures forall d :: d in r <==> exists i :: 0 <= i < |rows| && rows[i].symbol == symbol && rows[i].date == d
  {
    if rows == [] then map[]
    else
      var rest := Cells(rows[1..], symbol);
      assert forall i :: 1 <= i < |rows| ==> rows[i] == rows[1..][i - 1];
      if rows[0].symbol == symbol then rest[rows[0].date := rows[0].price] else rest
  }

  /** The row with key (symbol, date) that comes before any other. */
  ghost predicate FirstWith(rows: seq<Row>, k: int, symbol: string, date: Date) {
    0 <= k < |rows| && rows[k].symbol == symbol && rows[k].date == date &&
    forall j :: 0 <= j < k ==> !(rows[j].symbol == symbol && rows[j].date == date)
  }

  /** The cell of (symbol, date) holds the price of the first such row. */
  lemma {:induction false} CellsKeepFirst(rows: seq<Row>, k: int, symbol: string, date: Date)
    requires FirstWith(rows, k, symbol, date)
    ensures date in Cells(rows, symbol) && Cells(rows, symbol)[date] == rows[k].price
    decreases |rows|
  {
    if k > 0 {
      assert FirstWith(rows[1..], k - 1, symbol, date) by {
        forall j | 0 <= j < k - 1 ensures !(rows[1..][j].symbol == symbol && rows[1..][j].date == date) {
          assert rows[1..][j] == rows[j + 1];
        }
      }
      CellsKeepFirst(rows[1..], k - 1, symbol, date);
    }
  }

  /** `drop_duplicates(subset=[symbol, date], keep="first")` followed by
      `pivot(index=date, columns=symbol, values=price)`. */
  function Pivot(rows: seq<Row>): (r: Frame)
    ensures Ascending(r.index)
    ensures forall d :: d in r.index <==> exists i :: 0 <= i < |rows| && rows[i].date == d
    ensures forall s :: s in Names(r.columns) <==> exists i :: 0 <= i < |rows| && rows[i].symbol == s
    ensures forall c :: c in r.columns ==> c.cells == Cells(rows, c.name)
  {
    var symbols := Symbols(rows);
    var columns := seq(|symbols|, i requires 0 <= i < |symbols| => Series(symbols[i], Cells(rows, symbols[i])));
    assert Names(columns) == symbols;
    Frame(Dates(rows), columns)
  }

  /** Looking a (symbol, date) up in the pivoted table gives the price of
      the first row with that key. */
  lemma PivotKeepsFirst(rows: seq<Row>, k: int)
    requires 0 <= k < |rows|
    requires FirstWith(rows, k, rows[k].symbol, rows[k].date)
    ensures Lookup(Pivot(rows), rows[k].symbol, rows[k].date) == Ok(rows[k].price)
  {
    var t := Pivot(rows);
    assert rows[k].symbol in Names(t.columns);
    assert rows[k].date in t.index;
    CellsKeepFirst(rows, k, rows[k].symbol, rows[k].date);
  }

  /** fetch_prices of both sources: the requested symbols the table has
      are read on the dates from start to end; when it has none of them
      the index is every day from start to end; the others are added as
      all-NaN columns, in whatever order the set yields them. */
  method FetchFromTable(table: Frame, symbols: seq<string>, start: Date, end: Date) returns (r: Frame)
    ensures forall n :: n in Names(r.columns) <==> n in symbols
    ensures Ascending(table.index) ==> Ascending(r.index)
    ensures (exists n :: n in symbols && n in Names(table.columns)) ==>
      forall d :: d in r.index <==> d in table.index && start <= d <= end
    ensures (forall n :: n in symbols ==> n !in Names(table.columns)) ==> r.index == DayRange(start, end)
    ensures forall n, d :: n in symbols && n in Names(table.columns) && d in r.index ==> Lookup(r, n, d) == Lookup(table, n, d)
    ensures forall n, d :: n in symbols && n !in Names(table.columns) && d in r.index ==> Lookup(r, n, d) == Ok(None)
  {
    var requested := set n | n in symbols;
    var missings := requested - NameSet(table);
    var founds := requested - missings;
    var prices: Frame;
    if founds != {} {
      prices := Window(table, founds, start, end);
    } else {
      prices := Frame(DayRange(start, end), []);
    }
    assert Ascending(table.index) ==> Ascending(prices.index);
    var missingList := Enumerate(missings);
    r := WithNaNColumns(prices, missingList);
    assert forall n :: n in Names(prices.columns) <==> n in founds;
    forall n ensures n in Names(r.columns) <==> n in symbols {
      assert n in Names(r.columns) <==> n in Names(prices.columns) || n in missingList;
    }
    forall n, d | n in symbols && d in r.index
      ensures n in Names(table.columns) ==> Lookup(r, n, d) == Lookup(table, n, d)
      ensures n !in Names(table.columns) ==> Lookup(r, n, d) == Ok(None)
    {
      FilledLookup(prices, missingList, n, d);
      if n in Names(table.columns) {
        assert n in founds;
      } else {
        assert n in missings;
      }
    }
  }

  /** The cells of a table with all-NaN columns added after its own. */
  lemma FilledLookup(prices: Frame, names: seq<string>, n: string, d: Date)
    requires d in prices.index
    ensures n in Names(prices.columns) ==> Lookup(WithNaNColumns(prices, names), n, d) == Lookup(prices, n, d)
    ensures n !in Names(prices.columns) && n in names ==> Lookup(WithNaNColumns(prices, names), n, d) == Ok(None)
  {
    var nan := NaNColumns(names);
    ColumnAppend(prices.columns, nan, n);
    if n !in Names(prices.columns) && n in names {
      var k :| 0 <= k < |names| && names[k] == n;
      assert nan[k].name == n && nan[k].cells == map[];
      assert Column(nan, n).value.cells == map[];
    }
  }

  /** DataFrameDataSource: the pivoted table and its two flags. */
  datatype DataFrameSource = DataFrameSource(table: Frame, closeable: bool, containsPrices: bool)

  /** DataFrameDataSource(dataframe, closeable, contains_prices) over the
      rows of the given frame, with the default column names. */
  function NewDataFrameSource(rows: seq<Row>, closeable: bool, containsPrices: bool): (r: DataFrameSource)
    ensures r.table == Pivot(rows) && r.closeable == closeable && r.containsPrices == containsPrices
  {
    DataFrameSource(Pivot(rows), closeable, containsPrices)
  }

  /** is_closeable: the constructor's flag. */
  function DataFrameIsCloseable(source: DataFrameSource): (r: bool)
    ensures r == source.closeable
  {
    source.closeable
  }

  /** A field of a parquet schema: its name and its type's name. */
  datatype Field = Field(name: string, fieldType: string)

  /** _expect_column: the first field with the name decides; True when
      its type is the expected one. */
  function ExpectColumn(schema: seq<Field>, name: string, fieldType: string): (r: Result<bool>)
    ensures r.Ok? ==> r.value
    ensures r.Ok? <==> exists i :: 0 <= i < |schema| && schema[i].name == name && schema[i].fieldType == fieldType &&
                         forall j :: 0 <= j < i ==> schema[j].name != name
    ensures (forall i :: 0 <= i < |schema| ==> schema[i].name != name) <==> r == Err(ValueError("field " + name + " not found"))
  {
    if schema == [] then Err(ValueError("field " + name + " not found"))
    else
      var rest := ExpectColumn(schema[1..], name, fieldType);
      assert forall i :: 1 <= i < |schema| ==> schema[i] == schema[1..][i - 1];
      if schema[0].name == name then
        if schema[0].fieldType != fieldType then
          var prefix := "field " + name;
          var message := prefix + " expected type " + fieldType + " but got: " + schema[0].fieldType;
          assert message[|prefix| + 1] != (prefix + " not found")[|prefix| + 1];
          Err(ValueError(message))
        else Ok(true)
      else rest
  }

  /** RowParquetFileDataSource: the pivoted table. */
  datatype ParquetSource = ParquetSource(table: Frame)

  /** RowParquetFileDataSource(path) once the file is read: the date,
      symbol and price columns are checked, in that order, then the rows
      are pivoted. */
  function NewParquetSource(schema: seq<Field>, rows: seq<Row>, dateColumn: string, symbolColumn: string, priceColumn: string): (r: Result<ParquetSource>)
    ensures r.Ok? <==> (ExpectColumn(schema, dateColumn, "date32[day]").Ok? &&
      ExpectColumn(schema, symbolColumn, "string").Ok? && ExpectColumn(schema, priceColumn, "double").Ok?)
    ensures r.Ok? ==> r.value.table == Pivot(rows)
    ensures ExpectColumn(schema, dateColumn, "date32[day]").Err? ==> r == Err(ExpectColumn(schema, dateColumn, "date32[day]").error)
  {
    var date := ExpectColumn(schema, dateColumn, "date32[day]");
    if date.Err? then Err(date.error)
    else
      var symbol := ExpectColumn(schema, symbolColumn, "string");
      if symbol.Err? then Err(symbol.error)
      else
        var price := ExpectColumn(schema, priceColumn, "double");
        if price.Err? then Err(price.error)
        else Ok(ParquetSource(Pivot(rows)))
  }

  /** is_closeable of the parquet source: always. */
  function ParquetIsCloseable(source: ParquetSource): (r: bool)
    ensures r
  {
    true
  }
}
