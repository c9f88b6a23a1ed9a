/** bktest/price_provider.py: the symbol mapper and the price cache.  The
    cache holds one table of prices and one of total returns, both indexed
    by the days of the backtest; symbols not yet known are fetched from the
    data source once and left-joined onto them. */
module PriceProviders {
  import opened Wrappers
  import opened Calendar
  import opened Sums
  import opened Frames

  /* ---------------------------------------------------------------- */
  /* SymbolMapper                                                      */
  /* ---------------------------------------------------------------- */

  /** The two dicts of a SymbolMapper: user symbol to data-source symbol,
      and back. */
  datatype Mapping = Mapping(forward: map<string, string>, inverse: map<string, string>)

  /** SymbolMapper.empty() */
  const NoMapping: Mapping := Mapping(map[], map[])

  /** map: the registered partner, or the symbol itself. */
  function MapSymbol(m: Mapping, symbol: string): (r: string)
    ensures symbol in m.forward ==> r == m.forward[symbol]
    ensures symbol !in m.forward ==> r == symbol
  {
    if symbol in m.forward then m.forward[symbol] else symbol
  }

  /** unmap: the registered partner, or the symbol itself. */
  function UnmapSymbol(m: Mapping, symbol: string): (r: string)
    ensures symbol in m.inverse ==> r == m.inverse[symbol]
    ensures symbol !in m.inverse ==> r == symbol
  {
    if symbol in m.inverse then m.inverse[symbol] else symbol
  }

  /** add(from_, to): both directions are registered; every other symbol
      maps and unmaps as before. */
  function Added(m: Mapping, from: string, to: string): (r: Mapping)
    ensures MapSymbol(r, from) == to && UnmapSymbol(r, to) == from
    ensures forall s :: s != from ==> MapSymbol(r, s) == MapSymbol(m, s)
    ensures forall s :: s != to ==> UnmapSymbol(r, s) == UnmapSymbol(m, s)
  {
    Mapping(m.forward[from := to], m.inverse[to := from])
  }

  /** maps: the list mapped one by one, in order. */
  function MapAll(m: Mapping, symbols: seq<string>): (r: seq<string>)
    ensures |r| == |symbols|
    ensures forall i :: 0 <= i < |r| ==> r[i] == MapSymbol(m, symbols[i])
  {
    seq(|symbols|, i requires 0 <= i < |symbols| => MapSymbol(m, symbols[i]))
  }

  /** unmaps: the list unmapped one by one, in order. */
  function UnmapAll(m: Mapping, symbols: seq<string>): (r: seq<string>)
    ensures |r| == |symbols|
    ensures forall i :: 0 <= i < |r| ==> r[i] == UnmapSymbol(m, symbols[i])
  {
    seq(|symbols|, i requires 0 <= i < |symbols| => UnmapSymbol(m, symbols[i]))
  }

  /** A symbol that unmap brings back from where map sends it. */
  predicate RoundTrips(m: Mapping, s: string) {
    UnmapSymbol(m, MapSymbol(m, s)) == s
  }

  /** The symbol just added round-trips, and so does every symbol that
      round-tripped before unless the new target is the one it maps to. */
  lemma AddedRoundTrips(m: Mapping, from: string, to: string, s: string)
    requires s == from || (RoundTrips(m, s) && to != MapSymbol(m, s))
    ensures RoundTrips(Added(m, from, to), s)
  {
  }

  /** Reusing a target breaks the round trip of its first owner. */
  lemma ReusedTargetBreaksRoundTrip()
    ensures RoundTrips(Added(NoMapping, "A", "X"), "A")
    ensures !RoundTrips(Added(Added(NoMapping, "A", "X"), "B", "X"), "A")
  {
    var m := Added(Added(NoMapping, "A", "X"), "B", "X");
    assert MapSymbol(m, "A") == "X";
    assert UnmapSymbol(m, "X") == "B";
  }

  /** unmaps(maps(symbols)) gives the list back when every symbol in it
      round-trips. */
  lemma UnmapAllMapAll(m: Mapping, symbols: seq<string>)
    requires forall s :: s in symbols ==> RoundTrips(m, s)
    ensures UnmapAll(m, MapAll(m, symbols)) == symbols
  {
    var r := UnmapAll(m, MapAll(m, symbols));
    assert forall i :: 0 <= i < |r| ==> r[i] == symbols[i] by {
      forall i | 0 <= i < |r| ensures r[i] == symbols[i] {
        assert RoundTrips(m, symbols[i]);
      }
    }
  }

  /** The JSON values from_file tells apart. */
  datatype Json = JObject(items: seq<(string, Json)>) | JString(text: string) | JOther

  predicate EndsWith(s: string, suffix: string) {
    |suffix| <= |s| && s[|s| - |suffix|..] == suffix
  }

  /** The loop of from_file: each key is added with its value, stopping at
      the first value that is not a string. */
  function AddItems(m: Mapping, items: seq<(string, Json)>): (r: Result<Mapping>)
    ensures r.Err? ==> (exists i :: 0 <= i < |items| && !items[i].1.JString? &&
                                    r.error == ValueError(items[i].0 + "'s value must be a string"))
    ensures r.Ok? <==> forall i :: 0 <= i < |items| ==> items[i].1.JString?
    decreases |items|
  {
    if items == [] then Ok(m)
    else if !items[0].1.JString? then Err(ValueError(items[0].0 + "'s value must be a string"))
    else
      var r := AddItems(Added(m, items[0].0, items[0].1.text), items[1..]);
      assert forall i :: 1 <= i < |items| ==> items[i] == items[1..][i - 1];
      r
  }

  /** from_file on the parsed content of the file at `path`. */
  function Parse(path: string, root: Json): (r: Result<Mapping>)
    ensures !EndsWith(path, ".json") ==> r == Err(ValueError("unsupported file type: " + path))
    ensures EndsWith(path, ".json") && !root.JObject? ==> r == Err(ValueError("root must be an object"))
    ensures EndsWith(path, ".json") && root.JObject? ==> r == AddItems(NoMapping, root.items)
  {
    if !EndsWith(path, ".json") then Err(ValueError("unsupported file type: " + path))
    else if !root.JObject? then Err(ValueError("root must be an object"))
    else AddItems(NoMapping, root.items)
  }

  /** When the keys are distinct, every key maps to its own value. */
  lemma {:induction false} AddItemsMapsEachKey(m: Mapping, items: seq<(string, Json)>)
    requires forall i :: 0 <= i < |items| ==> items[i].1.JString?
    requires forall i, j :: 0 <= i < j < |items| ==> items[i].0 != items[j].0
    ensures AddItems(m, items).Ok?
    ensures forall i :: 0 <= i < |items| ==> MapSymbol(AddItems(m, items).value, items[i].0) == items[i].1.text
    ensures forall s :: (forall i :: 0 <= i < |items| ==> items[i].0 != s) ==>
      MapSymbol(AddItems(m, items).value, s) == MapSymbol(m, s)
    decreases |items|
  {
    if items != [] {
      var next := Added(m, items[0].0, items[0].1.text);
      var tail := items[1..];
      AddItemsMapsEachKey(next, tail);
      assert AddItems(m, items) == AddItems(next, tail);
      forall i | 0 <= i < |items| ensures MapSymbol(AddItems(m, items).value, items[i].0) == items[i].1.text {
        if i > 0 {
          assert tail[i - 1] == items[i];
        } else {
          assert forall j :: 0 <= j < |tail| ==> tail[j].0 != items[0].0 by {
            forall j | 0 <= j < |tail| ensures tail[j].0 != items[0].0 {
              assert tail[j] == items[j + 1];
            }
          }
        }
      }
      forall s | (forall i :: 0 <= i < |items| ==> items[i].0 != s)
        ensures MapSymbol(AddItems(m, items).value, s) == MapSymbol(m, s)
      {
        assert items[0].0 != s;
        assert forall j :: 0 <= j < |tail| ==> tail[j].0 != s by {
          forall j | 0 <= j < |tail| ensures tail[j].0 != s {
            assert tail[j] == items[j + 1];
          }
        }
      }
    }
  }

  class SymbolMapper {
    var mapping: map<string, string>
    var inverseMapping: map<string, string>

    function View(): Mapping
      reads this
    {
      Mapping(mapping, inverseMapping)
    }

    /** SymbolMapper(), also SymbolMapper.empty(). */
    constructor ()
      ensures View() == NoMapping
    {
      mapping := map[];
      inverseMapping := map[];
    }

    /** add */
    method Add(from: string, to: string)
      modifies this
      ensures View() == Added(old(View()), from, to)
    {
      mapping := mapping[from := to];
      inverseMapping := inverseMapping[to := from];
    }

    /** map */
    function Map(symbol: string): (r: string)
      reads this
      ensures r == MapSymbol(View(), symbol)
    {
      if symbol in mapping then mapping[symbol] else symbol
    }

    /** unmap */
    function Unmap(symbol: string): (r: string)
      reads this
      ensures r == UnmapSymbol(View(), symbol)
    {
      if symbol in inverseMapping then inverseMapping[symbol] else symbol
    }

    /** from_file: `load` stands for opening and parsing the JSON file. */
    static method FromFile(path: string, load: string -> Json) returns (r: Result<SymbolMapper>)
      ensures r.Ok? <==> Parse(path, load(path)).Ok?
      ensures r.Ok? ==> fresh(r.value) && r.value.View() == Parse(path, load(path)).value
      ensures r.Err? ==> r.error == Parse(path, load(path)).error
    {
      var mapper := new SymbolMapper();
      if !EndsWith(path, ".json") {
        return Err(ValueError("unsupported file type: " + path));
      }
      var root := load(path);
      if !root.JObject? {
        return Err(ValueError("root must be an object"));
      }
      var items := root.items;
      var i := 0;
      while i < |items|
        invariant 0 <= i <= |items|
        invariant fresh(mapper)
        invariant AddItems(mapper.View(), items[i..]) == AddItems(NoMapping, items)
      {
        var (key, value) := items[i];
        assert items[i..][1..] == items[i + 1..];
        if !value.JString? {
          return Err(ValueError(key + "'s value must be a string"));
        }
        mapper.Add(key, value.text);
        i := i + 1;
      }
      return Ok(mapper);
    }
  }

  /* ---------------------------------------------------------------- */
  /* PriceProvider                                                     */
  /* ---------------------------------------------------------------- */

  /** The tolerance of the price normalisation. */
  const Epsilon: real := 0.000001

  /** DataSource.fetch_prices(symbols, start, end): a table, None, or a raised
      exception. */
  type Fetch = (seq<string>, Date, Date) -> Result<Option<Frame>>

  /** The data source as the provider sees it. */
  datatype Source = Source(fetch: Fetch, containsPrices: bool, closeable: bool)

  /** One call of fetch_prices: the user symbols it was for, in the order
      they were listed, and the arguments it received. */
  datatype Request = Request(missing: seq<string>, symbols: seq<string>, start: Date, end: Date)

  /** What the provider was built with. */
  datatype Settings = Settings(start: Date, end: Date, source: Source, mapper: Mapping, caching: bool, workWithPrices: bool)

  /** The fields download_missing reassigns. */
  datatype Cache = Cache(storage: Frame, totalReturns: Frame, symbols: set<string>, updated: bool)

  /** `prices / prices.shift(1) - 1` for one cell: NaN unless both prices
      are there.  A zero previous price, which numpy turns into an infinity
      or NaN, is NaN here as well. */
  function Change(current: Option<real>, previous: Option<real>): (r: Option<real>)
    ensures r.Some? <==> current.Some? && previous.Some? && previous.value != 0.0
    ensures r.Some? ==> r.value * previous.value == current.value - previous.value
  {
    if current.Some? && previous.Some? && previous.value != 0.0 then
      Some(current.value / previous.value - 1.0)
    else None
  }

  /** The returns of one column along the rows of the index: the first row
      has none. */
  function ReturnCells(s: Series, index: seq<Date>): (r: map<Date, Option<real>>)
    ensures forall d :: d in r ==> |index| >= 2 && d in index[1..]
    decreases |index|
  {
    if |index| < 2 then map[]
    else
      var n := |index|;
      ReturnCells(s, index[..n - 1])[index[n - 1] := Change(Cell(s, index[n - 1]), Cell(s, index[n - 2]))]
  }

  /** total_returns when the source holds prices. */
  function Returns(f: Frame): (r: Frame)
    ensures r.index == f.index && Names(r.columns) == Names(f.columns)
  {
    Frame(f.index, seq(|f.columns|, i requires 0 <= i < |f.columns| =>
      Series(f.columns[i].name, ReturnCells(f.columns[i], f.index))))
  }

  /** `(abs + EPSILON) / (abs + EPSILON)`: 1 wherever there is a price. */
  function Ones(f: Frame): (r: Frame)
    ensures r.index == f.index && Names(r.columns) == Names(f.columns)
    ensures forall i, d :: 0 <= i < |r.columns| ==>
      Cell(r.columns[i], d) == if Cell(f.columns[i], d).Some? then Some(1.0) else None
  {
    Frame(f.index, seq(|f.columns|, i requires 0 <= i < |f.columns| =>
      Series(f.columns[i].name, map d | d in f.columns[i].cells && f.columns[i].cells[d].Some? :: Some(1.0))))
  }

  /** The assertion of line 155: from row `shift` on, prices and returns are
      missing in the same cells. */
  predicate NaNsMatch(prices: Frame, changes: Frame, shift: nat) {
    |prices.columns| == |changes.columns| &&
    forall i, k :: 0 <= i < |prices.columns| && shift <= k < |prices.index| ==>
      (Cell(prices.columns[i], prices.index[k]).None? <==> Cell(changes.columns[i], prices.index[k]).None?)
  }

  /** The part of download_missing that prepares the fetched table: an
      empty table for the missing symbols when the source returned None,
      the columns renamed back to user symbols, the returns, and the
      normalisation to ones when the backtest runs on returns.  Yields the
      price table and the returns table to join. */
  function Prepare(s: Settings, missing: seq<string>, fetched: Option<Frame>): (r: Result<(Frame, Frame)>)
    ensures r.Ok? ==> r.value.0.index == r.value.1.index
    ensures r.Ok? ==> Names(r.value.0.columns) == Names(r.value.1.columns)
    ensures r.Err? ==> r.error.AssertionError? && !s.workWithPrices
  {
    var raw := if fetched.Some? then fetched.value else Frame([], NaNColumns(missing));
    var prices := Rename(raw, x => UnmapSymbol(s.mapper, x));
    assert Names(prices.columns) == UnmapAll(s.mapper, Names(raw.columns));
    var changes := if s.source.containsPrices then Returns(prices) else prices;
    var shift := if s.source.containsPrices then 1 else 0;
    if s.workWithPrices then Ok((prices, changes))
    else
      var ones := Ones(prices);
      if NaNsMatch(ones, changes, shift) then Ok((ones, changes))
      else Err(AssertionError("nans are not matching between prices and total_returns"))
  }

  /** The fetch of download_missing for the missing symbols listed in the
      order `missing`, prepared for joining. */
  function Fetched(s: Settings, missing: seq<string>): (r: Result<(Frame, Frame)>)
  {
    var fetched := s.source.fetch(MapAll(s.mapper, missing), s.start - 1, s.end + 1);
    if fetched.Err? then Err(fetched.error) else Prepare(s, missing, fetched.value)
  }

  /** The cache once the prepared tables are joined on. */
  function Joined(c: Cache, prepared: (Frame, Frame), wanted: set<string>): (r: Cache)
    ensures r.storage == LeftJoin(c.storage, prepared.0) && r.totalReturns == LeftJoin(c.totalReturns, prepared.1)
    ensures r.symbols == c.symbols + wanted && r.updated
  {
    Cache(LeftJoin(c.storage, prepared.0), LeftJoin(c.totalReturns, prepared.1), c.symbols + wanted, true)
  }

  /** download_missing once the missing symbols are listed, in the order
      `missing`; `wanted` is the set asked for. */
  function Download(s: Settings, c: Cache, wanted: set<string>, missing: seq<string>): (r: Result<Cache>)
  {
    if wanted <= c.symbols then Ok(c)
    else
      match Fetched(s, missing)
      case Err(e) => Err(e)
      case Ok(prepared) => Ok(Joined(c, prepared, wanted))
  }

  /** With nothing missing nothing is fetched or changed; otherwise the
      requested symbols are all known afterwards, the cache is marked
      updated, and both tables keep their dates and their columns, gaining
      the fetched ones after them. */
  lemma DownloadKeepsDates(s: Settings, c: Cache, wanted: set<string>, missing: seq<string>)
    requires Download(s, c, wanted, missing).Ok?
    ensures var c' := Download(s, c, wanted, missing).value;
      c'.symbols == c.symbols + wanted &&
      c'.storage.index == c.storage.index && c'.totalReturns.index == c.totalReturns.index &&
      c'.storage.columns[..|c.storage.columns|] == c.storage.columns &&
      c'.totalReturns.columns[..|c.totalReturns.columns|] == c.totalReturns.columns &&
      (wanted <= c.symbols ==> c' == c) &&
      (!(wanted <= c.symbols) ==> c'.updated)
  {
    if !(wanted <= c.symbols) {
      var prepared := Fetched(s, missing).value;
      assert Download(s, c, wanted, missing) == Ok(Joined(c, prepared, wanted));
    } else {
      assert c.symbols + wanted == c.symbols;
    }
  }

  /** get on a table: ValueError for a symbol never downloaded; None for a
      missing, NaN or zero price. */
  function ReadPrice(c: Cache, column: string, symbol: string, date: Date): (r: Result<Option<real>>)
    ensures symbol !in c.symbols ==> r == Err(ValueError(symbol + " not available"))
    ensures symbol in c.symbols ==> (r.Ok? <==> Lookup(c.storage, column, date).Ok?)
    ensures r.Ok? ==> (r.value.Some? <==> Lookup(c.storage, column, date).value.Some? && Lookup(c.storage, column, date).value.value != 0.0)
    ensures r.Ok? && r.value.Some? ==> r.value == Lookup(c.storage, column, date).value
  {
    if symbol !in c.symbols then Err(ValueError(symbol + " not available"))
    else match Lookup(c.storage, column, date)
      case Err(e) => Err(e)
      case Ok(v) => Ok(if v.Some? && v.value != 0.0 then v else None)
  }

  /** get_total_return on a table: None only for NaN; a zero return is
      kept. */
  function ReadReturn(c: Cache, column: string, symbol: string, date: Date): (r: Result<Option<real>>)
    ensures symbol !in c.symbols ==> r == Err(ValueError(symbol + " not available"))
    ensures symbol in c.symbols ==> r == Lookup(c.totalReturns, column, date)
  {
    if symbol !in c.symbols then Err(ValueError(symbol + " not available"))
    else Lookup(c.totalReturns, column, date)
  }

  /** After a download whose table has a column for every symbol it was
      asked for, every downloaded symbol that round-trips through the mapper
      can be read under its own name on every date of the cache. */
  lemma DownloadedSymbolsResolve(s: Settings, c: Cache, wanted: set<string>, missing: seq<string>, symbol: string, date: Date)
    requires Download(s, c, wanted, missing).Ok?
    requires symbol in missing && RoundTrips(s.mapper, symbol)
    requires var f := s.source.fetch(MapAll(s.mapper, missing), s.start - 1, s.end + 1);
      f.Ok? && f.value.Some? && MapSymbol(s.mapper, symbol) in Names(f.value.value.columns)
    requires !(wanted <= c.symbols) && symbol in wanted
    requires date in c.storage.index
    ensures ReadPrice(Download(s, c, wanted, missing).value, symbol, symbol, date).Ok?
  {
    var fetched := s.source.fetch(MapAll(s.mapper, missing), s.start - 1, s.end + 1);
    var k := RenamedColumn(s, missing, fetched.value.value, symbol);
    var prepared := DownloadJoins(s, c, wanted, missing);
    assert Names(prepared.0.columns)[k] == symbol;
    JoinedNames(c, prepared, wanted, k);
    DownloadKeepsDates(s, c, wanted, missing);
  }

  /** A download that fetched joins what it prepared. */
  lemma DownloadJoins(s: Settings, c: Cache, wanted: set<string>, missing: seq<string>) returns (prepared: (Frame, Frame))
    requires Download(s, c, wanted, missing).Ok? && !(wanted <= c.symbols)
    ensures var f := s.source.fetch(MapAll(s.mapper, missing), s.start - 1, s.end + 1);
      f.Ok? && Prepare(s, missing, f.value) == Ok(prepared)
    ensures Download(s, c, wanted, missing) == Ok(Joined(c, prepared, wanted))
  {
    prepared := Fetched(s, missing).value;
  }

  lemma JoinedNames(c: Cache, prepared: (Frame, Frame), wanted: set<string>, k: nat)
    requires k < |prepared.0.columns|
    ensures Names(Joined(c, prepared, wanted).storage.columns)[|c.storage.columns| + k] == Names(prepared.0.columns)[k]
  {
    var left := Names(c.storage.columns);
    var right := Names(prepared.0.columns);
    assert Names(LeftJoin(c.storage, prepared.0).columns) == left + right;
    assert |left| == |c.storage.columns| && (left + right)[|left| + k] == right[k];
  }

  /** The fetched column of a round-tripping symbol keeps its place and
      carries the user symbol once renamed. */
  lemma RenamedColumn(s: Settings, missing: seq<string>, raw: Frame, symbol: string) returns (k: nat)
    requires RoundTrips(s.mapper, symbol) && MapSymbol(s.mapper, symbol) in Names(raw.columns)
    ensures k < |raw.columns|
    ensures Prepare(s, missing, Some(raw)).Ok? ==> Names(Prepare(s, missing, Some(raw)).value.0.columns)[k] == symbol
  {
    k :| k < |raw.columns| && raw.columns[k].name == MapSymbol(s.mapper, symbol);
    var renamed := Rename(raw, x => UnmapSymbol(s.mapper, x));
    assert renamed.columns[k].name == UnmapSymbol(s.mapper, raw.columns[k].name);
  }

  /** _get_cache_path: ".cache/{name}-s{start}-e{end}.csv". */
  function CachePath(start: Date, end: Date, name: string): (r: string)
    requires 1 <= start <= MaxOrdinal && 1 <= end <= MaxOrdinal
    ensures |r| > |name| + 7 && r[..7] == ".cache/" && r[7..7 + |name|] == name && r[7 + |name|] == '-'
  {
    var tail := "-s" + DateString(start) + "-e" + DateString(end) + ".csv";
    assert (".cache/" + name + tail)[..7] == ".cache/";
    assert (".cache/" + name + tail)[7..7 + |name|] == name;
    ".cache/" + name + tail
  }

  /** save writes its two tables to two different files. */
  lemma CachePathsDiffer(start: Date, end: Date)
    requires 1 <= start <= MaxOrdinal && 1 <= end <= MaxOrdinal
    ensures CachePath(start, end, "prices") != CachePath(start, end, "returns")
  {
    var p := CachePath(start, end, "prices");
    var t := CachePath(start, end, "returns");
    assert p[13] == '-' && t[7..14] == "returns";
    assert t[13] == t[7..14][6];
  }

  /** _create_symbols_set: every column but the placeholder "_". */
  function SymbolsOf(storage: Frame): (r: set<string>)
    ensures "_" !in r
    ensures forall n :: n in r <==> n in Names(storage.columns) && n != "_"
  {
    set n | n in Names(storage.columns) && n != "_"
  }

  /** The grid _create_storage builds when no cache file is read. */
  function Grid(start: Date, end: Date): Frame {
    Frame(DayRange(start, end), [Series("_", map[])])
  }

  lemma DayRangeSnoc(start: Date, d: Date)
    requires start <= d
    ensures DayRange(start, d) == DayRange(start, d - 1) + [d]
  {
    assert forall i :: 0 <= i < |DayRange(start, d)| ==> DayRange(start, d)[i] == (DayRange(start, d - 1) + [d])[i];
  }

  /** _create_storage: the cached table when caching and a cache file was
      read (`cached`), otherwise one row per day from start to end, built
      in a loop, with a single all-NaN placeholder column. */
  method CreateStorage(start: Date, end: Date, caching: bool, cached: Option<Frame>) returns (r: Frame)
    ensures caching && cached.Some? ==> r == cached.value
    ensures !(caching && cached.Some?) ==> r == Grid(start, end)
    ensures !(caching && cached.Some?) ==> |r.index| == (if start <= end then end - start + 1 else 0) && SymbolsOf(r) == {}
  {
    if caching && cached.Some? {
      return cached.value;
    }
    var dates: seq<Date> := [];
    var date := start;
    while date <= end
      invariant start <= date && (date <= end + 1 || date == start)
      invariant dates == DayRange(start, date - 1)
      decreases end + 1 - date
    {
      DayRangeSnoc(start, date);
      dates := dates + [date];
      date := date + 1;
    }
    assert date - 1 == end || end < start;
    r := Frame(dates, [Series("_", map[])]);
    assert Names(r.columns) == ["_"];
  }

  /** The request download_missing makes for the missing symbols: all of
      them, each once, mapped, over the widened date range. */
  ghost predicate Asked(s: Settings, missingSet: set<string>, q: Request) {
    IsEnumeration(q.missing, missingSet) && q.symbols == MapAll(s.mapper, q.missing) &&
    q.start == s.start - 1 && q.end == s.end + 1
  }

  /** The order in which the last request listed the missing symbols, or
      none when nothing was missing. */
  function LastMissing(known: set<string>, wanted: set<string>, requests: seq<Request>): seq<string> {
    if wanted <= known || requests == [] then [] else requests[|requests| - 1].missing
  }

  /** The cache and the outcome a call leaves are those of the download,
      and an exception leaves the cache as it was. */
  predicate Completed(d: Result<Cache>, before: Cache, r: Result<()>, after: Cache) {
    (r.Ok? <==> d.Ok?) && (d.Ok? ==> after == d.value) && (d.Err? ==> r.error == d.error && after == before)
  }

  /** download_missing when something is missing, step by step. */
  lemma DownloadFetches(s: Settings, c: Cache, wanted: set<string>, missing: seq<string>)
    requires !(wanted <= c.symbols)
    ensures var f := s.source.fetch(MapAll(s.mapper, missing), s.start - 1, s.end + 1);
      Download(s, c, wanted, missing) ==
        if f.Err? then Err(f.error)
        else if Prepare(s, missing, f.value).Err? then Err(Prepare(s, missing, f.value).error)
        else Ok(Joined(c, Prepare(s, missing, f.value).value, wanted))
  {
    var f := s.source.fetch(MapAll(s.mapper, missing), s.start - 1, s.end + 1);
    if f.Ok? {
      assert Fetched(s, missing) == Prepare(s, missing, f.value);
    }
  }

  class PriceProvider {
    const settings: Settings
    var storage: Frame
    var totalReturns: Frame
    var symbols: set<string>
    var updated: bool
    /** The calls made to the data source, oldest first. */
    ghost var requests: seq<Request>

    function View(): Cache
      reads this
    {
      Cache(storage, totalReturns, symbols, updated)
    }

    /** PriceProvider(start, end, data_source, mapper, caching,
        work_with_prices): `cachedPrices` and `cachedReturns` stand for the
        cache files read when caching, if they exist.  Working on prices is
        switched off when the source does not hold prices. */
    constructor (start: Date, end: Date, source: Source, mapper: Option<Mapping>, caching: bool, workWithPrices: bool,
                 cachedPrices: Option<Frame>, cachedReturns: Option<Frame>)
      ensures settings == Settings(start, end, source, if mapper.Some? then mapper.value else NoMapping,
                                   caching, workWithPrices && source.containsPrices)
      ensures storage == (if caching && cachedPrices.Some? then cachedPrices.value else Grid(start, end))
      ensures totalReturns == (if caching && cachedReturns.Some? then cachedReturns.value else Grid(start, end))
      ensures symbols == SymbolsOf(storage) && !updated && requests == []
    {
      var prices := CreateStorage(start, end, caching, cachedPrices);
      var changes := CreateStorage(start, end, caching, cachedReturns);
      settings := Settings(start, end, source, if mapper.Some? then mapper.value else NoMapping,
                           caching, workWithPrices && source.containsPrices);
      storage := prices;
      totalReturns := changes;
      symbols := SymbolsOf(prices);
      updated := false;
      requests := [];
    }

    /** download_missing: the symbols not yet known are listed in some
        order, mapped, fetched over [start - 1, end + 1] and joined on; an
        exception leaves the cache as it was. */
    method DownloadMissing(wanted: set<string>) returns (r: Result<()>)
      modifies this
      ensures wanted <= old(symbols) ==> requests == old(requests)
      ensures !(wanted <= old(symbols)) ==>
        |requests| == |old(requests)| + 1 && requests[..|old(requests)|] == old(requests) &&
        Asked(settings, wanted - old(symbols), requests[|old(requests)|])
      ensures Completed(Download(settings, old(View()), wanted, LastMissing(old(symbols), wanted, requests)), old(View()), r, View())
    {
      var missingSet := wanted - symbols;
      if missingSet == {} {
        assert wanted <= symbols by {
          forall x | x in wanted ensures x in symbols {
            assert x !in missingSet;
          }
        }
        return Ok(());
      }
      ghost var before := View();
      var missing := Enumerate(missingSet);
      var request := MapAll(settings.mapper, missing);
      requests := requests + [Request(missing, request, settings.start - 1, settings.end + 1)];
      assert LastMissing(before.symbols, wanted, requests) == missing;
      var fetched := settings.source.fetch(request, settings.start - 1, settings.end + 1);
      DownloadFetches(settings, before, wanted, missing);
      if fetched.Err? {
        return Err(fetched.error);
      }
      var prepared := Prepare(settings, missing, fetched.value);
      if prepared.Err? {
        return Err(prepared.error);
      }
      Install(prepared.value, wanted);
      return Ok(());
    }

    /** The join at the end of download_missing. */
    method Install(prepared: (Frame, Frame), wanted: set<string>)
      modifies this
      ensures View() == Joined(old(View()), prepared, wanted) && requests == old(requests)
    {
      storage := LeftJoin(storage, prepared.0);
      totalReturns := LeftJoin(totalReturns, prepared.1);
      symbols := symbols + wanted;
      updated := true;
    }

    /** get, as written: the column is looked up under the mapped symbol,
        although the downloaded columns were renamed back to user symbols. */
    function Get(date: Date, symbol: string): (r: Result<Option<real>>)
      reads this
      ensures r == ReadPrice(View(), MapSymbol(settings.mapper, symbol), symbol, date)
    {
      ReadPrice(View(), MapSymbol(settings.mapper, symbol), symbol, date)
    }

    /** get, reading the column under the user symbol it was stored as. */
    function GetUnmapped(date: Date, symbol: string): (r: Result<Option<real>>)
      reads this
      ensures r == ReadPrice(View(), symbol, symbol, date)
    {
      ReadPrice(View(), symbol, symbol, date)
    }

    /** get_total_return, as written (mapped lookup). */
    function GetTotalReturn(date: Date, symbol: string): (r: Result<Option<real>>)
      reads this
      ensures r == ReadReturn(View(), MapSymbol(settings.mapper, symbol), symbol, date)
    {
      ReadReturn(View(), MapSymbol(settings.mapper, symbol), symbol, date)
    }

    /** get_total_return under the user symbol. */
    function GetTotalReturnUnmapped(date: Date, symbol: string): (r: Result<Option<real>>)
      reads this
      ensures r == ReadReturn(View(), symbol, symbol, date)
    {
      ReadReturn(View(), symbol, symbol, date)
    }

    /** save: the files written, as (path, table) pairs; nothing unless
        caching and updated. */
    method Save() returns (written: seq<(string, Frame)>)
      requires 1 <= settings.start <= MaxOrdinal && 1 <= settings.end <= MaxOrdinal
      ensures !settings.caching || !updated ==> written == []
      ensures settings.caching && updated ==>
        written == [(CachePath(settings.start, settings.end, "prices"), storage),
                    (CachePath(settings.start, settings.end, "returns"), totalReturns)]
    {
      if !settings.caching || !updated {
        return [];
      }
      written := [(CachePath(settings.start, settings.end, "prices"), storage)];
      written := written + [(CachePath(settings.start, settings.end, "returns"), totalReturns)];
    }
  }

  /** With an identity mapper the two lookups agree. */
  lemma IdentityMapperReadsAlike(c: Cache, symbol: string, date: Date)
    ensures ReadPrice(c, MapSymbol(NoMapping, symbol), symbol, date) == ReadPrice(c, symbol, symbol, date)
  {
  }

  /** A mapper sending "AAPL" to "AAPL.US", a source that answers with an
      "AAPL.US" column priced on every date: after the download the column
      is stored as "AAPL", so get as written raises KeyError where the
      lookup under the user symbol finds the price. */
  lemma MappedLookupMisses(date: Date, price: real)
    requires price > 0.0
    ensures var m := Added(NoMapping, "AAPL", "AAPL.US");
      var table := Frame([date], [Series("AAPL.US", map[date := Some(price)])]);
      var s := Settings(date, date, Source((_, _, _) => Ok(Some(table)), true, true), m, false, true);
      var c := Cache(Grid(date, date), Grid(date, date), {}, false);
      var d := Download(s, c, {"AAPL"}, ["AAPL"]);
      d.Ok? &&
      ReadPrice(d.value, MapSymbol(m, "AAPL"), "AAPL", date).Err? &&
      ReadPrice(d.value, "AAPL", "AAPL", date) == Ok(Some(price))
  {
    var m := Added(NoMapping, "AAPL", "AAPL.US");
    var table := Frame([date], [Series("AAPL.US", map[date := Some(price)])]);
    var s := Settings(date, date, Source((_, _, _) => Ok(Some(table)), true, true), m, false, true);
    var c := Cache(Grid(date, date), Grid(date, date), {}, false);
    assert DayRange(date, date) == [date];
    var renamed := Rename(table, x => UnmapSymbol(m, x));
    assert renamed.columns[0].name == "AAPL";
    var d := Download(s, c, {"AAPL"}, ["AAPL"]);
    assert d.value.storage.columns == [Series("_", map[])] + RestrictAll(renamed.columns, [date]);
    assert Names(d.value.storage.columns) == ["_", "AAPL"];
    assert "AAPL.US" !in Names(d.value.storage.columns);
    assert Column(d.value.storage.columns, "AAPL") == Some(d.value.storage.columns[1]);
  }
}
