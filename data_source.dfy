/** bktest/data/source/base.py and backtest/data/source/base.py: the name
    a data source reports and the defaults every source inherits. */
module DataSources {
  import opened Wrappers
  import opened Calendar
  import opened Frames

  const BaseName: string := "DataSource"

  predicate StartsWith(s: string, p: string) {
    |p| <= |s| && s[..|p|] == p
  }

  /** `p in s` for strings: p occurs somewhere in s. */
  predicate Contains(s: string, p: string)
    decreases |s|
  {
    StartsWith(s, p) || (|s| > 0 && Contains(s[1..], p))
  }

  /** `s.replace(p, "")`: occurrences removed left to right, without
      overlap.  Nothing changes when p does not occur, and at least one
      copy of p goes when it does. */
  function RemoveAll(s: string, p: string): (r: string)
    requires p != []
    ensures !Contains(s, p) ==> r == s
    ensures Contains(s, p) ==> |r| <= |s| - |p|
    ensures |r| <= |s|
    decreases |s|
  {
    if |s| < |p| then ShortNotContains(s, p); s
    else if StartsWith(s, p) then RemoveAll(s[|p|..], p)
    else [s[0]] + RemoveAll(s[1..], p)
  }

  /** A string shorter than p does not contain it. */
  lemma {:induction false} ShortNotContains(s: string, p: string)
    requires |s| < |p|
    ensures !Contains(s, p)
    decreases |s|
  {
    if |s| > 0 {
      ShortNotContains(s[1..], p);
    }
  }

  /** get_name: the base class answers "DataSource"; any other class its
      own name with every "DataSource" in it removed. */
  function GetName(className: string, isBase: bool): (r: string)
    ensures isBase ==> r == BaseName
    ensures !isBase && !Contains(className, BaseName) ==> r == className
    ensures !isBase && Contains(className, BaseName) ==> |r| <= |className| - |BaseName|
  {
    if isBase then BaseName
    else if Contains(className, BaseName) then RemoveAll(className, BaseName)
    else className
  }

  /** The older get_name, without the case of the base class. */
  function LegacyGetName(className: string): (r: string)
    ensures !Contains(className, BaseName) ==> r == className
    ensures Contains(className, BaseName) ==> |r| <= |className| - |BaseName|
  {
    if Contains(className, BaseName) then RemoveAll(className, BaseName) else className
  }

  /** Text without the first character of p holds no occurrence of it. */
  lemma {:induction false} NoFirstCharNotContains(s: string, p: string)
    requires p != [] && forall i :: 0 <= i < |s| ==> s[i] != p[0]
    ensures !Contains(s, p)
    decreases |s|
  {
    if |s| > 0 {
      NoFirstCharNotContains(s[1..], p);
    }
  }

  /** Text without the first character of p is passed over unchanged. */
  lemma {:induction false} RemoveAfterFree(a: string, t: string, p: string)
    requires p != [] && forall i :: 0 <= i < |a| ==> a[i] != p[0]
    ensures RemoveAll(a + t, p) == a + RemoveAll(t, p)
    decreases |a|
  {
    if a == [] {
      assert a + t == t;
    } else {
      var s := a + t;
      assert s[1..] == a[1..] + t;
      RemoveAfterFree(a[1..], t, p);
      if |s| < |p| {
        ShortNotContains(t, p);
      } else {
        assert !StartsWith(s, p) by { assert s[0] == a[0]; }
        assert RemoveAll(s, p) == [a[0]] + (a[1..] + RemoveAll(t, p));
        assert [a[0]] + (a[1..] + RemoveAll(t, p)) == ([a[0]] + a[1..]) + RemoveAll(t, p);
        assert [a[0]] + a[1..] == a;
      }
    }
  }

  /** A class named by a stem without a capital D followed by "DataSource"
      reports the stem, in both versions. */
  lemma SuffixStripped(c: string)
    requires forall i :: 0 <= i < |c| ==> c[i] != 'D'
    ensures LegacyGetName(c + BaseName) == c
    ensures GetName(c + BaseName, false) == c
  {
    assert StartsWith(BaseName, BaseName) && BaseName[|BaseName|..] == [];
    ShortNotContains([], BaseName);
    assert RemoveAll(BaseName, BaseName) == [];
    RemoveAfterFree(c, BaseName, BaseName);
    assert (c + BaseName)[|c|..] == BaseName;
    assert Contains(c + BaseName, BaseName);
  }

  /** A class name without a capital D is reported unchanged, in both
      versions. */
  lemma NameKept(c: string)
    requires forall i :: 0 <= i < |c| ==> c[i] != 'D'
    ensures LegacyGetName(c) == c
    ensures GetName(c, false) == c
  {
    NoFirstCharNotContains(c, BaseName);
  }

  /** The first name of tests/test_data_source.py loses its suffix. */
  lemma SuffixRemoved()
    ensures LegacyGetName("ValidNameDataSource") == "ValidName"
    ensures GetName("ValidNameDataSource", false) == "ValidName"
  {
    assert "ValidNameDataSource" == "ValidName" + BaseName;
    SuffixStripped("ValidName");
  }

  /** The second name of tests/test_data_source.py is kept: it has no
      capital D. */
  lemma OtherNameKept()
    ensures LegacyGetName("InvalidNameSource") == "InvalidNameSource"
    ensures GetName("InvalidNameSource", false) == "InvalidNameSource"
  {
    NameKept("InvalidNameSource");
  }

  /** The base class: the newer get_name answers "DataSource", the older
      one removes the whole name. */
  lemma BaseClassName()
    ensures GetName(BaseName, true) == "DataSource"
    ensures LegacyGetName(BaseName) == ""
  {
    assert StartsWith(BaseName, BaseName);
    assert BaseName[|BaseName|..] == [];
    ShortNotContains([], BaseName);
  }

  /** is_closeable, when a source does not override it: markets close. */
  function DefaultIsCloseable(): (r: bool)
    ensures r
  {
    true
  }

  /** fetch_prices of the newer base class: not implemented. */
  function DefaultFetchPrices(symbols: seq<string>, start: Date, end: Date): (r: Result<Option<Frame>>)
    ensures r == Err(NotImplementedError)
  {
    Err(NotImplementedError)
  }

  /** fetch_prices of the older base class: no table. */
  function LegacyDefaultFetchPrices(symbols: seq<string>, start: Date, end: Date): (r: Result<Option<Frame>>)
    ensures r == Ok(None)
  {
    Ok(None)
  }
}
