/** backtest/price_provider.py: the older price cache.  It keeps one table
    of prices, indexed by the days of the backtest, fetches the symbols it
    does not know yet once and left-joins them on, and reads cells back
    raw.  Its SymbolMapper is the same as the newer one and is taken from
    `PriceProviders`. */
module LegacyPriceProviders {
  import opened Wrappers
  import opened Calendar
  import opened Sums
  import opened Frames
  import PriceProviders

  /** What DataSource.fetch_prices hands back: a table, a single column
      (a pandas Series, with its index and cells), or None. */
  datatype Answer = Table(frame: Frame) | Single(index: seq<Date>, cells: map<Date, Option<real>>) | Nothing

  type LegacyFetch = (seq<string>, Date, Date) -> Result<Answer>

  /** What the provider was built with. */
  datatype LegacySettings = LegacySettings(start: Date, end: Date, fetch: LegacyFetch, closeable: bool,
                                           mapper: PriceProviders.Mapping, caching: bool)

  /** The fields download_missing reassigns. */
  datatype LegacyCache = LegacyCache(storage: Frame, symbols: set<string>, updated: bool)

  /** What reading the columns of no answer, and of a single series, raises. */
  const NoneColumns: string := "'NoneType' object has no attribute 'columns'"
  const SeriesColumns: string := "'Series' object has no attribute 'columns'"

  /** The answer as a table.  A Series answering a one-symbol request
      becomes a column named after that symbol, over its own dates or,
      when empty, all NaN over the storage dates.  None has no columns to
      rename. */
  function AsTable(missing: seq<string>, answer: Answer, storageIndex: seq<Date>): (r: Result<Frame>)
    ensures answer.Table? ==> r == Ok(answer.frame)
    ensures answer.Nothing? ==> r.Err? && r.error.AttributeError?
    ensures answer.Single? && |missing| == 1 ==>
      r.Ok? && Names(r.value.columns) == missing &&
      r.value.index == (if |answer.index| > 0 then answer.index else storageIndex)
  {
    match answer
    case Table(f) => Ok(f)
    case Nothing => Err(AttributeError(NoneColumns))
    case Single(index, cells) =>
      if |missing| != 1 then Err(AttributeError(SeriesColumns))
      else if |index| > 0 then Ok(Frame(index, [Series(missing[0], cells)]))
      else Ok(Frame(storageIndex, [Series(missing[0], map[])]))
  }

  /** A column without a single price on the table's own dates. */
  predicate HasUnpriced(f: Frame) {
    exists i :: 0 <= i < |f.columns| && AllNaN(f.columns[i], f.index)
  }

  /** The table of the answer with its columns unmapped to user symbols. */
  function Renamed(s: LegacySettings, c: LegacyCache, missing: seq<string>, answer: Answer): (r: Result<Frame>)
    ensures r.Ok? <==> AsTable(missing, answer, c.storage.index).Ok?
    ensures r.Ok? ==> r.value == Rename(AsTable(missing, answer, c.storage.index).value, x => PriceProviders.UnmapSymbol(s.mapper, x))
  {
    match AsTable(missing, answer, c.storage.index)
    case Err(e) => Err(e)
    case Ok(f) => Ok(Rename(f, x => PriceProviders.UnmapSymbol(s.mapper, x)))
  }

  /** The cache once the table is joined on. */
  function Merged(c: LegacyCache, prices: Frame, wanted: set<string>): (r: LegacyCache)
    ensures r.storage == LeftJoin(c.storage, prices) && r.symbols == c.symbols + wanted && r.updated
  {
    LegacyCache(LeftJoin(c.storage, prices), c.symbols + wanted, true)
  }

  /** What naming the unimported `sys` raises. */
  const NoSys: string := "name 'sys' is not defined"

  /** download_missing as written, for the missing symbols listed in the
      order `missing`: the warning for an unpriced column names `sys`,
      which the module never imports, so it raises NameError instead. */
  function DownloadAsWritten(s: LegacySettings, c: LegacyCache, wanted: set<string>, missing: seq<string>): (r: Result<LegacyCache>)
  {
    if wanted <= c.symbols then Ok(c)
    else
      var answer := s.fetch(PriceProviders.MapAll(s.mapper, missing), s.start - 1, s.end + 1);
      if answer.Err? then Err(answer.error)
      else match Renamed(s, c, missing, answer.value)
        case Err(e) => Err(e)
        case Ok(prices) =>
          if HasUnpriced(prices) then Err(NameError(NoSys))
          else Ok(Merged(c, prices, wanted))
  }

  /** download_missing with the warning written out, so that an unpriced
      column is only reported. */
  function Download(s: LegacySettings, c: LegacyCache, wanted: set<string>, missing: seq<string>): (r: Result<LegacyCache>)
  {
    if wanted <= c.symbols then Ok(c)
    else
      var answer := s.fetch(PriceProviders.MapAll(s.mapper, missing), s.start - 1, s.end + 1);
      if answer.Err? then Err(answer.error)
      else match Renamed(s, c, missing, answer.value)
        case Err(e) => Err(e)
        case Ok(prices) => Ok(Merged(c, prices, wanted))
  }

  /** The download when something is missing and the answer is a table. */
  lemma DownloadUnfolds(s: LegacySettings, c: LegacyCache, wanted: set<string>, missing: seq<string>)
    requires !(wanted <= c.symbols)
    ensures var a := s.fetch(PriceProviders.MapAll(s.mapper, missing), s.start - 1, s.end + 1);
      var p := if a.Ok? then Renamed(s, c, missing, a.value) else Err(a.error);
      Download(s, c, wanted, missing) == (if p.Err? then Err(p.error) else Ok(Merged(c, p.value, wanted))) &&
      DownloadAsWritten(s, c, wanted, missing) ==
        (if p.Err? then Err(p.error)
         else if HasUnpriced(p.value) then Err(NameError(NoSys))
         else Ok(Merged(c, p.value, wanted)))
  {
    var a := s.fetch(PriceProviders.MapAll(s.mapper, missing), s.start - 1, s.end + 1);
    if a.Ok? {
      var p := Renamed(s, c, missing, a.value);
      if p.Ok? {
        assert Download(s, c, wanted, missing) == Ok(Merged(c, p.value, wanted));
      } else {
        assert Download(s, c, wanted, missing) == Err(p.error);
      }
    }
  }

  /** With nothing missing nothing changes; otherwise a download that
      succeeds knows every requested symbol, is marked updated, and keeps
      the storage dates and columns, the fetched ones after them. */
  lemma DownloadKeepsDates(s: LegacySettings, c: LegacyCache, wanted: set<string>, missing: seq<string>)
    requires Download(s, c, wanted, missing).Ok?
    ensures var c' := Download(s, c, wanted, missing).value;
      c'.symbols == c.symbols + wanted && c'.storage.index == c.storage.index &&
      c'.storage.columns[..|c.storage.columns|] == c.storage.columns &&
      (wanted <= c.symbols ==> c' == c) && (!(wanted <= c.symbols) ==> c'.updated)
  {
    if wanted <= c.symbols {
      assert c.symbols + wanted == c.symbols;
    } else {
      DownloadUnfolds(s, c, wanted, missing);
    }
  }

  /** The two versions agree except where the written one raises NameError,
      which it does exactly for an answer with an unpriced column. */
  lemma AsWrittenDiffersOnlyByNameError(s: LegacySettings, c: LegacyCache, wanted: set<string>, missing: seq<string>)
    ensures DownloadAsWritten(s, c, wanted, missing) == Download(s, c, wanted, missing) ||
      (Download(s, c, wanted, missing).Ok? && DownloadAsWritten(s, c, wanted, missing) == Err(NameError(NoSys)))
    ensures DownloadAsWritten(s, c, wanted, missing) == Err(NameError(NoSys)) <==>
      !(wanted <= c.symbols) &&
      var a := s.fetch(PriceProviders.MapAll(s.mapper, missing), s.start - 1, s.end + 1);
      (a.Ok? && Renamed(s, c, missing, a.value).Ok? && HasUnpriced(Renamed(s, c, missing, a.value).value)) ||
      (a.Err? && a.error == NameError(NoSys))
  {
    if !(wanted <= c.symbols) {
      DownloadUnfolds(s, c, wanted, missing);
    }
  }

  /** A symbol whose source answers with an empty Series, the answer for a
      symbol it has no prices for: the NaN column built for it makes the
      written download raise NameError, while the corrected one records
      the symbol with no price on any day. */
  lemma EmptySeriesRaises(start: Date, symbol: string, caching: bool)
    ensures var s := LegacySettings(start, start, (_, _, _) => Ok(Single([], map[])), true, PriceProviders.NoMapping, caching);
      var c := LegacyCache(PriceProviders.Grid(start, start), {}, false);
      DownloadAsWritten(s, c, {symbol}, [symbol]) == Err(NameError(NoSys)) &&
      Download(s, c, {symbol}, [symbol]).Ok? &&
      Lookup(Download(s, c, {symbol}, [symbol]).value.storage, symbol, start) == Ok(None)
  {
    var s := LegacySettings(start, start, (_, _, _) => Ok(Single([], map[])), true, PriceProviders.NoMapping, caching);
    var c := LegacyCache(PriceProviders.Grid(start, start), {}, false);
    assert DayRange(start, start) == [start];
    var prices := Renamed(s, c, [symbol], Single([], map[])).value;
    assert prices.columns[0] == Series(symbol, map[]);
    assert HasUnpriced(prices) by {
      assert AllNaN(prices.columns[0], prices.index);
    }
    DownloadUnfolds(s, c, {symbol}, [symbol]);
    var c' := Download(s, c, {symbol}, [symbol]).value;
    assert Names(c'.storage.columns) == ["_", symbol];
    assert c'.storage.columns[1] == Restrict(Series(symbol, map[]), [start]);
    assert Column(c'.storage.columns, symbol) == Some(c'.storage.columns[1]);
  }

  /** get on the cache: ValueError for a symbol never downloaded, otherwise
      the raw cell under the mapped column, NaN and zero included. */
  function ReadRaw(c: LegacyCache, m: PriceProviders.Mapping, symbol: string, date: Date): (r: Result<Option<real>>)
    ensures symbol !in c.symbols ==> r == Err(ValueError(symbol + " not available"))
    ensures symbol in c.symbols ==> r == Lookup(c.storage, PriceProviders.MapSymbol(m, symbol), date)
  {
    if symbol !in c.symbols then Err(ValueError(symbol + " not available"))
    else Lookup(c.storage, PriceProviders.MapSymbol(m, symbol), date)
  }

  /** A stored zero price is handed back as it is, where the newer get
      reads it as no price. */
  lemma ZeroPriceReadRaw(c: LegacyCache, symbol: string, date: Date)
    requires symbol in c.symbols && Lookup(c.storage, symbol, date) == Ok(Some(0.0))
    ensures ReadRaw(c, PriceProviders.NoMapping, symbol, date) == Ok(Some(0.0))
    ensures PriceProviders.ReadPrice(PriceProviders.Cache(c.storage, c.storage, c.symbols, c.updated), symbol, symbol, date) == Ok(None)
  {
  }

  class LegacyPriceProvider {
    const settings: LegacySettings
    var storage: Frame
    var symbols: set<string>
    var updated: bool
    /** The symbol lists fetched, in the order they were asked for. */
    ghost var requests: seq<seq<string>>

    function View(): LegacyCache
      reads this
    {
      LegacyCache(storage, symbols, updated)
    }

    /** PriceProvider(start, end, data_source, mapper, caching): `cached`
        stands for the cache file read when caching, if it exists. */
    constructor (start: Date, end: Date, fetch: LegacyFetch, closeable: bool, mapper: Option<PriceProviders.Mapping>, caching: bool,
                 cached: Option<Frame>)
      ensures settings == LegacySettings(start, end, fetch, closeable, if mapper.Some? then mapper.value else PriceProviders.NoMapping, caching)
      ensures storage == (if caching && cached.Some? then cached.value else PriceProviders.Grid(start, end))
      ensures symbols == PriceProviders.SymbolsOf(storage) && !updated && requests == []
    {
      var prices := PriceProviders.CreateStorage(start, end, caching, cached);
      settings := LegacySettings(start, end, fetch, closeable, if mapper.Some? then mapper.value else PriceProviders.NoMapping, caching);
      storage := prices;
      symbols := PriceProviders.SymbolsOf(prices);
      updated := false;
      requests := [];
    }

    /** download_missing, with the unpriced-column warning only reported:
        the unknown symbols are listed in some order and fetched once. */
    method DownloadMissing(wanted: set<string>) returns (r: Result<()>)
      modifies this
      ensures wanted <= old(symbols) ==> requests == old(requests)
      ensures !(wanted <= old(symbols)) ==>
        |requests| == |old(requests)| + 1 && requests[..|old(requests)|] == old(requests) &&
        IsEnumeration(requests[|old(requests)|], wanted - old(symbols))
      ensures var missing := if wanted <= old(symbols) then [] else requests[|old(requests)|];
        var d := Download(settings, old(View()), wanted, missing);
        (r.Ok? <==> d.Ok?) && (d.Ok? ==> View() == d.value) && (d.Err? ==> r.error == d.error && View() == old(View()))
    {
      var missingSet := wanted - symbols;
      if missingSet == {} {
        assert wanted <= symbols by {
          forall x | x in wanted ensures x in symbols {
            assert x !in missingSet;
          }
        }
        return Ok(());
      }
      ghost var before := View();
      var missing := Enumerate(missingSet);
      requests := requests + [missing];
      DownloadUnfolds(settings, before, wanted, missing);
      var answer := settings.fetch(PriceProviders.MapAll(settings.mapper, missing), settings.start - 1, settings.end + 1);
      if answer.Err? {
        return Err(answer.error);
      }
      var prices := Renamed(settings, View(), missing, answer.value);
      if prices.Err? {
        return Err(prices.error);
      }
      storage := LeftJoin(storage, prices.value);
      symbols := symbols + wanted;
      updated := true;
      return Ok(());
    }

    /** get: the raw cell under the mapped column. */
    function Get(date: Date, symbol: string): (r: Result<Option<real>>)
      reads this
      ensures r == ReadRaw(View(), settings.mapper, symbol, date)
    {
      ReadRaw(View(), settings.mapper, symbol, date)
    }

    /** is_closeable: whatever the data source says. */
    function IsCloseable(): (r: bool)
      ensures r == settings.closeable
    {
      settings.closeable
    }

    /** save: the file written, if any; only the prices table is cached. */
    method Save() returns (written: seq<(string, Frame)>)
      requires 1 <= settings.start <= MaxOrdinal && 1 <= settings.end <= MaxOrdinal
      ensures !settings.caching || !updated ==> written == []
      ensures settings.caching && updated ==> written == [(PriceProviders.CachePath(settings.start, settings.end, "prices"), storage)]
    {
      if !settings.caching || !updated {
        return [];
      }
      return [(PriceProviders.CachePath(settings.start, settings.end, "prices"), storage)];
    }
  }
}
