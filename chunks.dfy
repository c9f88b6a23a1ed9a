/** backtest/data/source/factset.py: the list of symbols cut into request
    batches.  The HTTP requests themselves are not modelled. */
module Batches {

  function Max(a: int, b: int): (r: int)
    ensures r >= a && r >= b && (r == a || r == b)
  {
    if a >= b then a else b
  }

  function Min(a: int, b: int): (r: int)
    ensures r <= a && r <= b && (r == a || r == b)
  {
    if a <= b then a else b
  }

  /** The pieces laid end to end. */
  function Flatten<T>(pieces: seq<seq<T>>): seq<T> {
    if pieces == [] then [] else pieces[0] + Flatten(pieces[1..])
  }

  /** chunks(l, n): `l[i:i + n]` for i = 0, n, 2n, ... below len(l), with n
      raised to at least 1.  Laid end to end the chunks give the list back;
      all are full but the last, which is not empty; and there are
      ceil(len(l) / max(1, n)) of them. */
  function Chunks<T>(l: seq<T>, n: int): (r: seq<seq<T>>)
    ensures Flatten(r) == l
    ensures forall i :: 0 <= i < |r| ==> 0 < |r[i]| <= Max(1, n)
    ensures forall i :: 0 <= i < |r| - 1 ==> |r[i]| == Max(1, n)
    ensures |l| <= |r| * Max(1, n) < |l| + Max(1, n)
    decreases |l|
  {
    var m := Max(1, n);
    if |l| == 0 then []
    else if |l| <= m then
      assert Flatten([l]) == l + Flatten([]);
      [l]
    else
      var rest := Chunks(l[m..], n);
      var r := [l[..m]] + rest;
      assert r[1..] == rest;
      assert l == l[..m] + l[m..];
      assert |r| == |rest| + 1;
      OneMore(|rest|, m);
      r
  }

  lemma OneMore(k: int, m: int)
    ensures (k + 1) * m == m + k * m
  {
  }

  /** The chunk count is the ceiling of len(l) / max(1, n). */
  lemma ChunkCount<T>(l: seq<T>, n: int)
    ensures var m := Max(1, n); |Chunks(l, n)| == (|l| + m - 1) / m
  {
    var m := Max(1, n);
    var c := |Chunks(l, n)|;
    assert c * m <= |l| + m - 1 < c * m + m;
    DivUnique(|l| + m - 1, m, c);
  }

  /** x / m is the q with q * m <= x < q * m + m. */
  lemma DivUnique(x: int, m: int, q: int)
    requires m >= 1 && q * m <= x < q * m + m
    ensures x / m == q
  {
    var d := x / m;
    assert d * m <= x < d * m + m;
    if d < q {
      MulMonotone(d + 1, q, m);
      assert false;
    } else if d > q {
      MulMonotone(q + 1, d, m);
      assert false;
    }
  }

  lemma MulMonotone(a: int, b: int, m: int)
    requires a <= b && m >= 0
    ensures a * m <= b * m && (a + 1) * m == a * m + m
  {
    assert b * m - a * m == (b - a) * m;
  }

  /** The empty list gives no chunk, and a non-positive size acts as 1. */
  lemma ChunksEdges<T>(l: seq<T>, n: int)
    ensures |l| == 0 ==> Chunks(l, n) == []
    ensures n <= 0 ==> Chunks(l, n) == Chunks(l, 1)
  {
  }
}
