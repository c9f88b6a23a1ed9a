/** The few pandas operations the price cache and the data sources use, on a
    date-indexed table of prices.  A missing cell, like a NaN, reads as None. */
module Frames {
  import opened Wrappers
  import opened Calendar

  /** One column: its name and the cells it holds, by date. */
  datatype Series = Series(name: string, cells: map<Date, Option<real>>)

  /** frame[name][date] once the column is found: NaN when there is no cell. */
  function Cell(s: Series, d: Date): Option<real> {
    if d in s.cells then s.cells[d] else None
  }

  /** A table: its date index, in row order, and its columns, in order. */
  datatype Frame = Frame(index: seq<Date>, columns: seq<Series>)

  /** frame.columns */
  function Names(cols: seq<Series>): (r: seq<string>)
    ensures |r| == |cols|
    ensures forall i :: 0 <= i < |cols| ==> r[i] == cols[i].name
  {
    if cols == [] then [] else [cols[0].name] + Names(cols[1..])
  }

  /** The first column with the given name. */
  function Column(cols: seq<Series>, name: string): (r: Option<Series>)
    ensures r.Some? <==> name in Names(cols)
    ensures r.Some? ==> r.value.name == name && r.value in cols
    ensures r.Some? && cols[0].name == name ==> r.value == cols[0]
  {
    if cols == [] then None
    else if cols[0].name == name then Some(cols[0])
    else Column(cols[1..], name)
  }

  /** frame[name][date]: KeyError for an unknown column or date. */
  function Lookup(f: Frame, name: string, d: Date): (r: Result<Option<real>>)
    ensures r.Ok? <==> name in Names(f.columns) && d in f.index
    ensures r.Ok? ==> r.value == Cell(Column(f.columns, name).value, d)
    ensures r.Err? ==> r.error.KeyError?
  {
    match Column(f.columns, name)
    case None => Err(KeyError(name))
    case Some(s) => if d in f.index then Ok(Cell(s, d)) else Err(KeyError("date not in index"))
  }

  /** All-NaN columns with the given names. */
  function NaNColumns(names: seq<string>): (r: seq<Series>)
    ensures Names(r) == names
    ensures forall i :: 0 <= i < |r| ==> r[i].cells == map[]
  {
    seq(|names|, i requires 0 <= i < |names| => Series(names[i], map[]))
  }

  /** `frame[names] = numpy.nan`: the named columns added, all NaN. */
  function WithNaNColumns(f: Frame, names: seq<string>): (r: Frame)
    ensures r.index == f.index
    ensures Names(r.columns) == Names(f.columns) + names
    ensures r.columns[..|f.columns|] == f.columns
  {
    Frame(f.index, f.columns + NaNColumns(names))
  }

  /** A date index in strictly increasing order, as pandas keeps a sorted
      index without duplicates. */
  predicate Ascending(index: seq<Date>) {
    forall i, j :: 0 <= i < j < |index| ==> index[i] < index[j]
  }

  /** pandas.date_range(start, end): every day from start to end. */
  function DayRange(start: Date, end: Date): (r: seq<Date>)
    ensures Ascending(r)
    ensures |r| == if start <= end then end - start + 1 else 0
    ensures forall i :: 0 <= i < |r| ==> r[i] == start + i
    ensures forall d :: d in r <==> start <= d <= end
  {
    var n := if start <= end then end - start + 1 else 0;
    var r := seq(n, i requires 0 <= i < n => start + i);
    assert forall i :: 0 <= i < |r| ==> r[i] == start + i;
    forall d | start <= d <= end ensures d in r {
      assert r[d - start] == d;
    }
    r
  }

  /** The cells of a column on the given dates only. */
  function Restrict(s: Series, index: seq<Date>): (r: Series)
    ensures r.name == s.name
    ensures forall d :: Cell(r, d) == if d in index then Cell(s, d) else None
  {
    Series(s.name, map d | d in s.cells && d in index :: s.cells[d])
  }

  function RestrictAll(cols: seq<Series>, index: seq<Date>): (r: seq<Series>)
    ensures |r| == |cols| && Names(r) == Names(cols)
    ensures forall i :: 0 <= i < |r| ==> r[i] == Restrict(cols[i], index)
  {
    seq(|cols|, i requires 0 <= i < |cols| => Restrict(cols[i], index))
  }

  /** pandas.merge(left, right, on=Date, how="left"): the left index is
      kept, the right columns are appended and read only on its dates. */
  function LeftJoin(left: Frame, right: Frame): (r: Frame)
    ensures r.index == left.index
    ensures Names(r.columns) == Names(left.columns) + Names(right.columns)
    ensures r.columns[..|left.columns|] == left.columns
    ensures forall i, d :: 0 <= i < |right.columns| ==>
      Cell(r.columns[|left.columns| + i], d) == if d in left.index then Cell(right.columns[i], d) else None
  {
    Frame(left.index, left.columns + RestrictAll(right.columns, left.index))
  }

  /** The dates of `right` that `left` lacks, in order. */
  function NewDates(left: seq<Date>, right: seq<Date>): (r: seq<Date>)
    ensures forall d :: d in r <==> d in right && d !in left
  {
    if right == [] then []
    else (if right[0] in left then [] else [right[0]]) + NewDates(left, right[1..])
  }

  /** pandas.merge(left, right, on=Date, how="outer"): the dates of both,
      the columns of both.  Rows are kept in order of first appearance; the
      sort pandas applies to the joined keys is not modelled. */
  function OuterJoin(left: Frame, right: Frame): (r: Frame)
    ensures forall d :: d in r.index <==> d in left.index || d in right.index
    ensures r.columns == left.columns + right.columns
  {
    Frame(left.index + NewDates(left.index, right.index), left.columns + right.columns)
  }

  /** `frame.columns = [rename(c) for c in frame.columns]` */
  function Rename(f: Frame, rename: string -> string): (r: Frame)
    ensures r.index == f.index && |r.columns| == |f.columns|
    ensures forall i :: 0 <= i < |r.columns| ==>
      r.columns[i].name == rename(f.columns[i].name) && r.columns[i].cells == f.columns[i].cells
  {
    Frame(f.index, seq(|f.columns|, i requires 0 <= i < |f.columns| => f.columns[i].(name := rename(f.columns[i].name))))
  }

  /** `series.isna().values.all()` over the rows of the index. */
  predicate AllNaN(s: Series, index: seq<Date>) {
    forall d :: d in index ==> Cell(s, d).None?
  }

  /** The columns that hold at least one number on the index. */
  function KeepPriced(cols: seq<Series>, index: seq<Date>): (r: seq<Series>)
    ensures forall s :: s in r <==> s in cols && !AllNaN(s, index)
    ensures |r| <= |cols|
  {
    if cols == [] then []
    else (if AllNaN(cols[0], index) then [] else [cols[0]]) + KeepPriced(cols[1..], index)
  }

  /** `dropna(axis=1, how='all')` */
  function DropAllNaN(f: Frame): (r: Frame)
    ensures r.index == f.index
    ensures forall s :: s in r.columns <==> s in f.columns && !AllNaN(s, f.index)
  {
    Frame(f.index, KeepPriced(f.columns, f.index))
  }

  /** The set of column names. */
  function NameSet(f: Frame): (r: set<string>)
    ensures forall n :: n in r <==> n in Names(f.columns)
  {
    set n | n in Names(f.columns)
  }

  /** The rows with start <= date <= end, and only the named columns, in
      table order: `frame[(index >= start) & (index <= end)][names]`. */
  function Window(f: Frame, names: set<string>, start: Date, end: Date): (r: Frame)
    ensures forall d :: d in r.index <==> d in f.index && start <= d <= end
    ensures Ascending(f.index) ==> Ascending(r.index)
    ensures forall s :: s in r.columns ==> s.name in names
    ensures forall n :: n in Names(r.columns) ==> n in names && n in Names(f.columns)
    ensures forall n :: n in names && n in Names(f.columns) ==> n in Names(r.columns)
    ensures forall n, d :: n in Names(r.columns) && d in r.index ==>
      Lookup(r, n, d) == Lookup(f, n, d)
  {
    var index := Between(f.index, start, end);
    var cols := Chosen(f.columns, names);
    var r := Frame(index, RestrictAll(cols, index));
    forall n, d | n in Names(r.columns) && d in r.index ensures Lookup(r, n, d) == Lookup(f, n, d) {
      ChosenColumn(f.columns, names, n);
      RestrictColumn(cols, index, n);
    }
    r
  }

  function Between(index: seq<Date>, start: Date, end: Date): (r: seq<Date>)
    ensures forall d :: d in r <==> d in index && start <= d <= end
    ensures Ascending(index) ==> Ascending(r)
  {
    if index == [] then []
    else
      var rest := Between(index[1..], start, end);
      assert Ascending(index) ==> Ascending(rest) && forall x :: x in rest ==> index[0] < x by {
        if Ascending(index) {
          assert Ascending(index[1..]);
          forall x | x in rest ensures index[0] < x {
            var k :| 0 <= k < |index[1..]| && index[1..][k] == x;
            assert index[k + 1] == x;
          }
        }
      }
      var r := (if start <= index[0] <= end then [index[0]] else []) + rest;
      assert Ascending(index) ==> Ascending(r) by {
        if Ascending(index) && start <= index[0] <= end {
          forall i, j | 0 <= i < j < |r| ensures r[i] < r[j] {
            assert r[j] == rest[j - 1] && r[j] in rest;
          }
        }
      }
      r
  }

  function Chosen(cols: seq<Series>, names: set<string>): (r: seq<Series>)
    ensures forall s :: s in r <==> s in cols && s.name in names
    ensures forall n :: n in Names(r) ==> n in Names(cols)
  {
    if cols == [] then []
    else (if cols[0].name in names then [cols[0]] else []) + Chosen(cols[1..], names)
  }

  lemma {:induction false} ChosenColumn(cols: seq<Series>, names: set<string>, n: string)
    requires n in names
    ensures Column(Chosen(cols, names), n) == Column(cols, n)
  {
    if cols != [] {
      var rest := Chosen(cols[1..], names);
      ChosenColumn(cols[1..], names, n);
      if cols[0].name in names {
        var c := [cols[0]] + rest;
        assert Chosen(cols, names) == c;
        if cols[0].name != n {
          assert c[1..] == rest;
          assert Column(c, n) == Column(rest, n);
        }
      } else {
        assert Chosen(cols, names) == rest;
      }
    }
  }

  lemma {:induction false} RestrictColumn(cols: seq<Series>, index: seq<Date>, n: string)
    requires n in Names(cols)
    ensures Column(RestrictAll(cols, index), n) == Some(Restrict(Column(cols, n).value, index))
  {
    if cols[0].name != n {
      assert RestrictAll(cols, index)[1..] == RestrictAll(cols[1..], index);
      RestrictColumn(cols[1..], index, n);
    }
  }

  /** The first column named n of two lists of columns laid end to end. */
  lemma {:induction false} ColumnAppend(a: seq<Series>, b: seq<Series>, n: string)
    ensures Column(a + b, n) == if n in Names(a) then Column(a, n) else Column(b, n)
    decreases |a|
  {
    if a == [] {
      assert a + b == b;
    } else {
      assert (a + b)[1..] == a[1..] + b;
      ColumnAppend(a[1..], b, n);
      assert n in Names(a) <==> a[0].name == n || n in Names(a[1..]);
    }
  }
}
