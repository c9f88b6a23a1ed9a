/** Python's `list.sort` with a key, as the modules that sort use it:
    stable, ascending. */
module Sorting {

  /** Sorted by a key, ascending. */
  predicate SortedBy<T>(s: seq<T>, key: T -> int) {
    forall i, j :: 0 <= i < j < |s| ==> key(s[i]) <= key(s[j])
  }

  /** x put after every element whose key is not above its own. */
  function InsertBy<T>(x: T, s: seq<T>, key: T -> int): (r: seq<T>)
    ensures multiset(r) == multiset(s) + multiset{x}
    ensures |r| == |s| + 1
  {
    if s == [] then [x]
    else if key(x) < key(s[0]) then [x] + s
    else
      assert s == [s[0]] + s[1..];
      [s[0]] + InsertBy(x, s[1..], key)
  }

  /** Every key of the insertion's result is x's or one of s's. */
  lemma {:induction false} InsertByKeys<T>(x: T, s: seq<T>, key: T -> int, i: int)
    requires 0 <= i < |s| + 1
    ensures key(InsertBy(x, s, key)[i]) == key(x) || exists j :: 0 <= j < |s| && key(InsertBy(x, s, key)[i]) == key(s[j])
    decreases |s|
  {
    if s != [] && key(x) >= key(s[0]) && i > 0 {
      InsertByKeys(x, s[1..], key, i - 1);
    }
  }

  /** Inserting into a sorted sequence keeps it sorted. */
  lemma {:induction false} InsertBySorted<T>(x: T, s: seq<T>, key: T -> int)
    requires SortedBy(s, key)
    ensures SortedBy(InsertBy(x, s, key), key)
    decreases |s|
  {
    if s != [] && key(x) >= key(s[0]) {
      var rest := InsertBy(x, s[1..], key);
      InsertBySorted(x, s[1..], key);
      forall i | 0 <= i < |rest| ensures key(s[0]) <= key(rest[i]) {
        InsertByKeys(x, s[1..], key, i);
      }
    }
  }

  /** `list.sort()` by a key: an insertion sort, so that elements with the
      same key keep their order. */
  function SortBy<T>(s: seq<T>, key: T -> int): (r: seq<T>)
    ensures SortedBy(r, key) && multiset(r) == multiset(s) && |r| == |s|
  {
    if s == [] then []
    else
      assert s == s[..|s| - 1] + [s[|s| - 1]];
      InsertBySorted(s[|s| - 1], SortBy(s[..|s| - 1], key), key);
      InsertBy(s[|s| - 1], SortBy(s[..|s| - 1], key), key)
  }

  /** [y] when y has the key k, otherwise nothing. */
  function Keyed<T>(y: T, key: T -> int, k: int): seq<T> {
    if key(y) == k then [y] else []
  }

  /** The elements whose key is k, in the order they come in. */
  function KeyRun<T>(s: seq<T>, key: T -> int, k: int): (r: seq<T>)
    ensures |r| <= |s|
    ensures forall i :: 0 <= i < |r| ==> key(r[i]) == k
  {
    if s == [] then [] else Keyed(s[0], key, k) + KeyRun(s[1..], key, k)
  }

  /** A sequence without the key k has an empty run of it. */
  lemma {:induction false} KeyRunAbsent<T>(s: seq<T>, key: T -> int, k: int)
    requires forall i :: 0 <= i < |s| ==> key(s[i]) != k
    ensures KeyRun(s, key, k) == []
  {
    if s != [] {
      KeyRunAbsent(s[1..], key, k);
    }
  }

  lemma Associative<T>(a: seq<T>, b: seq<T>, c: seq<T>)
    ensures a + (b + c) == (a + b) + c
  {
  }

  /** Prepending one element puts it in front of the run of its key. */
  lemma KeyRunCons<T>(y: T, t: seq<T>, key: T -> int, k: int)
    ensures KeyRun([y] + t, key, k) == Keyed(y, key, k) + KeyRun(t, key, k)
  {
    assert ([y] + t)[1..] == t;
  }

  /** Appending one element extends the run of its key by it. */
  lemma {:induction false} KeyRunAppend<T>(s: seq<T>, y: T, key: T -> int, k: int)
    ensures KeyRun(s + [y], key, k) == KeyRun(s, key, k) + Keyed(y, key, k)
  {
    if s == [] {
      assert s + [y] == [y] + [];
      KeyRunCons(y, [], key, k);
    } else {
      assert s + [y] == [s[0]] + (s[1..] + [y]);
      KeyRunCons(s[0], s[1..] + [y], key, k);
      KeyRunAppend(s[1..], y, key, k);
      assert s == [s[0]] + s[1..];
      KeyRunCons(s[0], s[1..], key, k);
      Associative(Keyed(s[0], key, k), KeyRun(s[1..], key, k), Keyed(y, key, k));
    }
  }

  /** x goes in front when its key is below the first: it is the last
      of its key because no later element shares it. */
  lemma InsertByFront<T>(x: T, s: seq<T>, key: T -> int, k: int)
    requires SortedBy(s, key) && s != [] && key(x) < key(s[0])
    ensures KeyRun(InsertBy(x, s, key), key, k) == KeyRun(s, key, k) + Keyed(x, key, k)
  {
    assert InsertBy(x, s, key) == [x] + s;
    KeyRunCons(x, s, key, k);
    if key(x) == k {
      forall i | 0 <= i < |s| ensures key(s[i]) != k {
        assert i == 0 || key(s[0]) <= key(s[i]);
      }
      KeyRunAbsent(s, key, k);
    }
  }

  /** x goes past the first element when its key is not below it. */
  lemma InsertByPast<T>(x: T, s: seq<T>, key: T -> int, k: int)
    requires SortedBy(s, key) && s != [] && key(x) >= key(s[0])
    ensures SortedBy(s[1..], key)
    ensures KeyRun(InsertBy(x, s, key), key, k) == Keyed(s[0], key, k) + KeyRun(InsertBy(x, s[1..], key), key, k)
    ensures KeyRun(s, key, k) == Keyed(s[0], key, k) + KeyRun(s[1..], key, k)
  {
    assert InsertBy(x, s, key) == [s[0]] + InsertBy(x, s[1..], key);
    KeyRunCons(s[0], InsertBy(x, s[1..], key), key, k);
  }

  /** Inserting x into a sorted sequence puts it after every element with
      the same key. */
  lemma {:induction false} InsertByRun<T>(x: T, s: seq<T>, key: T -> int, k: int)
    requires SortedBy(s, key)
    ensures KeyRun(InsertBy(x, s, key), key, k) == KeyRun(s, key, k) + Keyed(x, key, k)
  {
    if s == [] {
      assert InsertBy(x, s, key) == [x] + [];
      KeyRunCons(x, [], key, k);
    } else if key(x) < key(s[0]) {
      InsertByFront(x, s, key, k);
    } else {
      InsertByPast(x, s, key, k);
      InsertByRun(x, s[1..], key, k);
      Associative(Keyed(s[0], key, k), KeyRun(s[1..], key, k), Keyed(x, key, k));
    }
  }

  /** The sort is stable: for every key, the elements with that key come
      out in the order they went in. */
  lemma {:induction false} SortByStable<T>(s: seq<T>, key: T -> int, k: int)
    ensures KeyRun(SortBy(s, key), key, k) == KeyRun(s, key, k)
  {
    if s != [] {
      var init, last := s[..|s| - 1], s[|s| - 1];
      assert s == init + [last];
      SortByStable(init, key, k);
      InsertByRun(last, SortBy(init, key), key, k);
      KeyRunAppend(init, last, key, k);
    }
  }
}
