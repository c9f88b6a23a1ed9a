/** Python's sum() over the values of a dict, whose iteration order cannot
    change the result of an exact sum, and the arbitrary order in which a
    set is iterated. */
module Sums {

  ghost function Pick<K, V>(m: map<K, V>): (k: K)
    requires m != map[]
    ensures k in m
  {
    var k :| k in m; k
  }

  /** The sum of f over the values of m. */
  ghost function Sum<K, V>(m: map<K, V>, f: V -> real): real
    decreases |m|
  {
    if m == map[] then 0.0
    else
      var k := Pick(m);
      f(m[k]) + Sum(m - {k}, f)
  }

  /** Any entry can be taken out of the sum first. */
  lemma {:induction false} SumRemove<K, V>(m: map<K, V>, k: K, f: V -> real)
    requires k in m
    ensures Sum(m, f) == f(m[k]) + Sum(m - {k}, f)
    decreases |m|
  {
    var j := Pick(m);
    if j != k {
      var mj := m - {j};
      var mk := m - {k};
      assert |mj| < |m|;
      SumRemove(mj, k, f);
      assert mj - {k} == mk - {j};
      assert |mk| < |m|;
      SumRemove(mk, j, f);
    }
  }

  /** Setting one entry replaces its term in the sum. */
  lemma SumUpdate<K, V>(m: map<K, V>, k: K, v: V, f: V -> real)
    ensures k in m ==> Sum(m[k := v], f) == Sum(m, f) - f(m[k]) + f(v)
    ensures k !in m ==> Sum(m[k := v], f) == Sum(m, f) + f(v)
  {
    SumRemove(m[k := v], k, f);
    assert m[k := v] - {k} == m - {k};
    if k in m {
      SumRemove(m, k, f);
    } else {
      assert m - {k} == m;
    }
  }

  /** Filing a new key adds its value to the values of the map. */
  lemma ValuesAdd<K, V>(m: map<K, V>, k: K, v: V)
    requires k !in m
    ensures m[k := v].Values == m.Values + {v}
  {
    forall x | x in m.Values ensures x in m[k := v].Values {
      var j :| j in m && m[j] == x;
      assert m[k := v][j] == x;
    }
    assert m[k := v][k] == v;
  }

  /** Removing a key whose value no other key shares removes that value. */
  lemma ValuesRemove<K, V>(m: map<K, V>, k: K)
    requires k in m
    requires forall j :: j in m && j != k ==> m[j] != m[k]
    ensures (m - {k}).Values == m.Values - {m[k]}
  {
    forall x | x in m.Values - {m[k]} ensures x in (m - {k}).Values {
      var j :| j in m && m[j] == x;
      assert (m - {k})[j] == x;
    }
  }

  /** `r` lists every element of `s` once, in some order. */
  ghost predicate IsEnumeration<T(!new)>(r: seq<T>, s: set<T>) {
    |r| == |s| && forall x :: x in r <==> x in s
  }

  /** `for x in s`: a set is iterated in an order the model leaves open. */
  method Enumerate<T(!new)>(s: set<T>) returns (r: seq<T>)
    ensures IsEnumeration(r, s)
  {
    var rest := s;
    r := [];
    while rest != {}
      invariant rest <= s && |r| + |rest| == |s|
      invariant forall x :: x in r <==> x in s && x !in rest
      decreases |rest|
    {
      var x :| x in rest;
      r := r + [x];
      rest := rest - {x};
    }
  }

  /** An enumeration lists nothing twice. */
  lemma {:induction false} EnumerationDistinct<T(!new)>(r: seq<T>, s: set<T>)
    requires IsEnumeration(r, s)
    ensures forall i, j :: 0 <= i < j < |r| ==> r[i] != r[j]
  {
    if exists i, j :: 0 <= i < j < |r| && r[i] == r[j] {
      var i, j :| 0 <= i < j < |r| && r[i] == r[j];
      var without := r[..j] + r[j + 1..];
      assert forall x :: x in r ==> x in without by {
        forall x | x in r ensures x in without {
          var k :| 0 <= k < |r| && r[k] == x;
          if k < j { assert without[k] == x; }
          else if k == j { assert without[i] == x; }
          else { assert without[k - 1] == x; }
        }
      }
      SetOfAtMostLength(without, s);
      assert false;
    }
  }

  /** A sequence holds at least as many elements as any set it covers. */
  lemma {:induction false} SetOfAtMostLength<T>(r: seq<T>, s: set<T>)
    requires forall x :: x in s ==> x in r
    ensures |s| <= |r|
  {
    if r != [] {
      var rest := s - {r[0]};
      forall x | x in rest ensures x in r[1..] {
        var k :| 0 <= k < |r| && r[k] == x;
        assert k != 0;
        assert r[1..][k - 1] == x;
      }
      SetOfAtMostLength(r[1..], rest);
    } else {
      assert s == {} by {
        forall x | x in s ensures false { }
      }
    }
  }
}
