/** backtest/order/provider/multiple.py: orders read from a directory that
    holds one file per order date.  Listing the directory, parsing a file
    name as a date, shifting a date by business days and reading a file
    are parameters. */
module OrderFiles {
  import opened Wrappers
  import opened Calendar
  import opened Sums
  import opened Sorting

  /** FileReader.CSV and FileReader.JSON. */
  datatype Reader = Csv | Json

  /** `str.lower()` on ASCII letters. */
  function Lower(s: string): (r: string)
    ensures |r| == |s|
    ensures forall i :: 0 <= i < |s| ==> r[i] == if 'A' <= s[i] <= 'Z' then (s[i] as int + 32) as char else s[i]
  {
    seq(|s|, i requires 0 <= i < |s| => if 'A' <= s[i] <= 'Z' then (s[i] as int + 32) as char else s[i])
  }

  /** FileReader.find: "csv" or "json" in any case, else ValueError. */
  function Find(extension: Option<string>): (r: Result<Reader>)
    ensures extension.None? ==> r == Err(ValueError("extension is None"))
    ensures extension.Some? ==> (r == Ok(Csv) <==> Lower(extension.value) == "csv")
    ensures extension.Some? ==> (r == Ok(Json) <==> Lower(extension.value) == "json")
    ensures extension.Some? && r.Err? ==> r.error == ValueError("extension `" + Lower(extension.value) + "` is not supported")
  {
    if extension.None? then Err(ValueError("extension is None"))
    else
      var lowered := Lower(extension.value);
      if lowered == "csv" then Ok(Csv)
      else if lowered == "json" then Ok(Json)
      else Err(ValueError("extension `" + lowered + "` is not supported"))
  }

  /** Upper and mixed case are accepted alike. */
  lemma FindIgnoresCase()
    ensures Find(Some("CSV")) == Ok(Csv) && Find(Some("Json")) == Ok(Json)
    ensures Find(Some("txt")).Err?
  {
    assert Lower("CSV") == "csv";
    assert Lower("Json") == "json";
    assert Lower("txt") == "txt";
  }

  /** OrderFile(at, path, reader) */
  datatype OrderFile = OrderFile(at: Date, path: string, reader: Reader)

  predicate EndsWith(s: string, suffix: string) {
    |suffix| <= |s| && s[|s| - |suffix|..] == suffix
  }

  /** os.path.join(directory, file) for a relative file name. */
  function JoinPath(directory: string, file: string): (r: string)
    ensures EndsWith(r, file)
  {
    var r := if directory == [] || directory[|directory| - 1] == '/' then directory + file else directory + "/" + file;
    assert r[|r| - |file|..] == file;
    r
  }

  function At(f: OrderFile): int {
    f.at
  }

  /** The files load_from keeps, in listing order: names ending with the
      extension as given, dated on or after `skipUntil` when it is set. */
  function Kept(directory: string, listing: seq<string>, extension: string, skipUntil: Option<Date>,
                parse: string -> Result<Date>, reader: Reader): (r: Result<seq<OrderFile>>)
    decreases |listing|
  {
    if listing == [] then Ok([])
    else
      var before := Kept(directory, listing[..|listing| - 1], extension, skipUntil, parse, reader);
      KeepOne(before, directory, listing[|listing| - 1], extension, skipUntil, parse, reader)
  }

  /** Every file kept comes from a name of the listing with the
      extension, has the reader found for it, and is not before
      `skipUntil`. */
  lemma {:induction false} KeptQualify(directory: string, listing: seq<string>, extension: string, skipUntil: Option<Date>,
                                       parse: string -> Result<Date>, reader: Reader)
    requires Kept(directory, listing, extension, skipUntil, parse, reader).Ok?
    ensures forall f :: f in Kept(directory, listing, extension, skipUntil, parse, reader).value ==> (f.reader == reader &&
      (skipUntil.Some? ==> skipUntil.value <= f.at) &&
      exists name :: name in listing && EndsWith(name, "." + extension) && f.path == JoinPath(directory, name))
    decreases |listing|
  {
    if listing != [] {
      var init := listing[..|listing| - 1];
      var file := listing[|listing| - 1];
      var before := Kept(directory, init, extension, skipUntil, parse, reader);
      KeptQualify(directory, init, extension, skipUntil, parse, reader);
      var r := Kept(directory, listing, extension, skipUntil, parse, reader);
      forall f | f in r.value ensures f.reader == reader && (skipUntil.Some? ==> skipUntil.value <= f.at) &&
        exists name :: name in listing && EndsWith(name, "." + extension) && f.path == JoinPath(directory, name)
      {
        if f in before.value {
          var name :| name in init && EndsWith(name, "." + extension) && f.path == JoinPath(directory, name);
          assert name in listing;
        } else {
          assert f == r.value[|before.value|];
          assert file in listing;
        }
      }
    }
  }

  /** One name of the listing looked at, after the files kept before it. */
  function KeepOne(before: Result<seq<OrderFile>>, directory: string, file: string, extension: string, skipUntil: Option<Date>,
                   parse: string -> Result<Date>, reader: Reader): (r: Result<seq<OrderFile>>)
    ensures before.Err? ==> r == before
    ensures before.Ok? && r.Ok? ==> (r.value == before.value || (EndsWith(file, "." + extension) &&
      |r.value| == |before.value| + 1 &&
      r.value == before.value + [OrderFile(r.value[|before.value|].at, JoinPath(directory, file), reader)] &&
      (skipUntil.Some? ==> skipUntil.value <= r.value[|before.value|].at)))
  {
    var dotExtension := "." + extension;
    if before.Err? then before
    else if !EndsWith(file, dotExtension) then before
    else match parse(file[..|file| - |dotExtension|])
      case Err(e) => Err(e)
      case Ok(at) =>
        if skipUntil.Some? && skipUntil.value > at then before
        else Ok(before.value + [OrderFile(at, JoinPath(directory, file), reader)])
  }

  /** An error on a name ends the listing: later names change nothing. */
  lemma {:induction false} KeptErrorEnds(directory: string, listing: seq<string>, extension: string, skipUntil: Option<Date>,
                                         parse: string -> Result<Date>, reader: Reader, i: int)
    requires 0 <= i <= |listing|
    requires Kept(directory, listing[..i], extension, skipUntil, parse, reader).Err?
    ensures Kept(directory, listing, extension, skipUntil, parse, reader) == Kept(directory, listing[..i], extension, skipUntil, parse, reader)
    decreases |listing|
  {
    if i < |listing| {
      var init := listing[..|listing| - 1];
      assert init[..i] == listing[..i];
      KeptErrorEnds(directory, init, extension, skipUntil, parse, reader, i);
    } else {
      assert listing[..i] == listing;
    }
  }

  /** Kept on one more name of the listing. */
  lemma KeptSnoc(directory: string, listing: seq<string>, extension: string, skipUntil: Option<Date>,
                 parse: string -> Result<Date>, reader: Reader, i: int)
    requires 0 <= i < |listing|
    ensures Kept(directory, listing[..i + 1], extension, skipUntil, parse, reader) ==
      KeepOne(Kept(directory, listing[..i], extension, skipUntil, parse, reader), directory, listing[i], extension, skipUntil, parse, reader)
  {
    assert listing[..i + 1][..i] == listing[..i];
  }

  /** The loop of load_from over the directory listing. */
  method KeepFiles(directory: string, listing: seq<string>, extension: string, skipUntil: Option<Date>,
                   parse: string -> Result<Date>, reader: Reader) returns (r: Result<seq<OrderFile>>)
    ensures r == Kept(directory, listing, extension, skipUntil, parse, reader)
  {
    var dotExtension := "." + extension;
    var files: seq<OrderFile> := [];
    var i := 0;
    while i < |listing|
      invariant 0 <= i <= |listing|
      invariant Kept(directory, listing[..i], extension, skipUntil, parse, reader) == Ok(files)
    {
      var file := listing[i];
      KeptSnoc(directory, listing, extension, skipUntil, parse, reader, i);
      if !EndsWith(file, dotExtension) {
        i := i + 1;
        continue;
      }
      var at := parse(file[..|file| - |dotExtension|]);
      if at.Err? {
        KeptErrorEnds(directory, listing, extension, skipUntil, parse, reader, i + 1);
        return Err(at.error);
      }
      if skipUntil.Some? && skipUntil.value > at.value {
        i := i + 1;
        continue;
      }
      files := files + [OrderFile(at.value, JoinPath(directory, file), reader)];
      i := i + 1;
    }
    assert listing[..|listing|] == listing;
    return Ok(files);
  }

  /** OrderFile.load_from: the reader is found first, the listing is
      filtered in a loop, and the kept files are sorted by date. */
  method LoadFrom(directory: string, listing: seq<string>, extension: string, skipUntil: Option<Date>,
                  parse: string -> Result<Date>) returns (r: Result<seq<OrderFile>>)
    ensures Find(Some(extension)).Err? ==> r == Err(Find(Some(extension)).error)
    ensures Find(Some(extension)).Ok? && Kept(directory, listing, extension, skipUntil, parse, Find(Some(extension)).value).Err? ==>
      r == Kept(directory, listing, extension, skipUntil, parse, Find(Some(extension)).value)
    ensures Find(Some(extension)).Ok? && Kept(directory, listing, extension, skipUntil, parse, Find(Some(extension)).value).Ok? ==>
      r.Ok? && SortedBy(r.value, At) &&
      multiset(r.value) == multiset(Kept(directory, listing, extension, skipUntil, parse, Find(Some(extension)).value).value)
  {
    var reader := Find(Some(extension));
    if reader.Err? {
      return Err(reader.error);
    }
    var files := KeepFiles(directory, listing, extension, skipUntil, parse, reader.value);
    if files.Err? {
      return files;
    }
    return Ok(SortBy(files.value, At));
  }

  /** The dict comprehension of the provider: each file under its order
      date shifted by the business-day offset; a later file with the same
      shifted date replaces an earlier one. */
  function ByShiftedDate(files: seq<OrderFile>, shift: Date -> Date): (r: map<Date, OrderFile>)
    ensures forall d :: d in r <==> exists f :: f in files && shift(f.at) == d
    ensures forall d :: d in r ==> r[d] in files && shift(r[d].at) == d
  {
    if files == [] then map[]
    else
      var last := files[|files| - 1];
      var before := ByShiftedDate(files[..|files| - 1], shift);
      assert forall f :: f in files <==> f in files[..|files| - 1] || f == last by {
        assert files == files[..|files| - 1] + [last];
      }
      before[shift(last.at) := last]
  }

  /** The file kept under a date is the last one in the list with that
      shifted date. */
  lemma {:induction false} LastFileWins(files: seq<OrderFile>, shift: Date -> Date, k: int)
    requires 0 <= k < |files|
    requires forall j :: k < j < |files| ==> shift(files[j].at) != shift(files[k].at)
    ensures ByShiftedDate(files, shift)[shift(files[k].at)] == files[k]
    decreases |files|
  {
    if k < |files| - 1 {
      var init := files[..|files| - 1];
      assert forall j :: k < j < |init| ==> init[j] == files[j];
      LastFileWins(init, shift, k);
    }
  }

  /** MultipleFileOrderProvider once built: its files by shifted date and
      the sorted list of those dates. */
  datatype FileOrderProvider = FileOrderProvider(orderFiles: map<Date, OrderFile>, dates: seq<Date>)

  function Identity(d: Date): int {
    d
  }

  /** MultipleFileOrderProvider(directory, offset_before_trading,
      extension): the files loaded, keyed by shifted date, and the keys
      listed in some order and sorted. */
  method NewFileOrderProvider(directory: string, listing: seq<string>, extension: string,
                              parse: string -> Result<Date>, shift: Date -> Date) returns (r: Result<FileOrderProvider>)
    ensures Find(Some(extension)).Err? ==> r == Err(Find(Some(extension)).error)
    ensures Find(Some(extension)).Ok? && Kept(directory, listing, extension, None, parse, Find(Some(extension)).value).Err? ==>
      r == Err(Kept(directory, listing, extension, None, parse, Find(Some(extension)).value).error)
    ensures Find(Some(extension)).Ok? && Kept(directory, listing, extension, None, parse, Find(Some(extension)).value).Ok? ==>
      r.Ok? &&
      exists files :: SortedBy(files, At) &&
        multiset(files) == multiset(Kept(directory, listing, extension, None, parse, Find(Some(extension)).value).value) &&
        r.value.orderFiles == ByShiftedDate(files, shift)
    ensures r.Ok? ==> SortedBy(r.value.dates, Identity) && |r.value.dates| == |r.value.orderFiles.Keys|
    ensures r.Ok? ==> forall d :: d in r.value.dates <==> d in r.value.orderFiles
  {
    var loaded := LoadFrom(directory, listing, extension, None, parse);
    if loaded.Err? {
      return Err(loaded.error);
    }
    var orderFiles := ByShiftedDate(loaded.value, shift);
    var keys := Enumerate(orderFiles.Keys);
    var dates := SortBy(keys, Identity);
    forall d ensures d in dates <==> d in orderFiles {
      assert d in dates <==> d in multiset(dates);
      assert d in keys <==> d in multiset(keys);
    }
    return Ok(FileOrderProvider(orderFiles, dates));
  }

  /** get_dates */
  function GetDates(p: FileOrderProvider): (r: seq<Date>)
    ensures r == p.dates
  {
    p.dates
  }

  /** get_orders_dataframe: the file to read for the date, KeyError for a
      date without one. */
  function OrderFileFor(p: FileOrderProvider, date: Date): (r: Result<OrderFile>)
    ensures r.Ok? <==> date in p.orderFiles
    ensures r.Ok? ==> r.value == p.orderFiles[date]
    ensures r.Err? ==> r.error.KeyError?
  {
    if date in p.orderFiles then Ok(p.orderFiles[date]) else Err(KeyError(if 1 <= date <= MaxOrdinal then DateString(date) else ""))
  }
}
