/** bktest/data/source/delegate.py: a data source that asks a list of other
    sources in turn, each for the symbols the ones before it did not
    price, and combines what they answer. */
module DelegateSources {
  import opened Wrappers
  import opened Calendar
  import opened Sums
  import opened Frames
  import PriceProviders

  /** The symbols still to be priced once `prices` is at hand: all of them
      when there is no table yet, else those without a column. */
  function Remaining(symbols: seq<string>, prices: Option<Frame>): (r: set<string>)
    ensures forall x :: x in r <==> x in symbols && (prices.Some? ==> x !in Names(prices.value.columns))
  {
    if prices.None? then set x | x in symbols
    else (set x | x in symbols) - NameSet(prices.value)
  }

  /** _find_remaining: the list itself when there is no table yet, else
      the remaining symbols in whatever order the set yields them. */
  method FindRemaining(symbols: seq<string>, prices: Option<Frame>) returns (r: seq<string>)
    ensures prices.None? ==> r == symbols
    ensures prices.Some? ==> IsEnumeration(r, Remaining(symbols, prices))
    ensures forall x :: x in r <==> x in Remaining(symbols, prices)
    ensures r == [] <==> Remaining(symbols, prices) == {}
  {
    if prices.None? {
      if symbols != [] {
        assert symbols[0] in Remaining(symbols, prices);
      }
      return symbols;
    }
    r := Enumerate(Remaining(symbols, prices));
    if r == [] {
      assert forall x :: x !in Remaining(symbols, prices);
    }
  }

  /** A request made to a delegate when `prices` had been gathered. */
  ghost predicate Asked(symbols: seq<string>, prices: Option<Frame>, request: seq<string>) {
    (prices.None? ==> request == symbols) &&
    (prices.Some? ==> IsEnumeration(request, Remaining(symbols, prices))) &&
    request != []
  }

  /** One step of the loop: the answer loses its all-NaN columns, and is
      outer-joined onto what was gathered, if anything was. */
  function Accumulate(prices: Option<Frame>, answer: Option<Frame>): (r: Option<Frame>)
    ensures r.None? <==> prices.None? && answer.None?
    ensures prices.Some? ==> (|prices.value.columns| <= |r.value.columns| &&
      r.value.columns[..|prices.value.columns|] == prices.value.columns)
  {
    if answer.None? then prices
    else if prices.None? then Some(DropAllNaN(answer.value))
    else Some(OuterJoin(prices.value, DropAllNaN(answer.value)))
  }

  /** What the loop has gathered after the given answers. */
  function Combined(answers: seq<Option<Frame>>): (r: Option<Frame>)
    ensures r.None? <==> forall i :: 0 <= i < |answers| ==> answers[i].None?
  {
    if answers == [] then None
    else Accumulate(Combined(answers[..|answers| - 1]), answers[|answers| - 1])
  }

  /** A column priced somewhere stays priced on a larger index. */
  lemma PricedOnLarger(s: Series, small: seq<Date>, large: seq<Date>)
    requires forall d :: d in small ==> d in large
    requires !AllNaN(s, small)
    ensures !AllNaN(s, large)
  {
  }

  /** Every column gathered holds at least one price: a delegate's
      all-NaN columns are dropped, and joining only adds dates. */
  lemma {:induction false} CombinedColumnsPriced(answers: seq<Option<Frame>>)
    requires Combined(answers).Some?
    ensures forall s :: s in Combined(answers).value.columns ==> !AllNaN(s, Combined(answers).value.index)
    decreases |answers|
  {
    var before := Combined(answers[..|answers| - 1]);
    var answer := answers[|answers| - 1];
    if answer.Some? && before.Some? {
      CombinedColumnsPriced(answers[..|answers| - 1]);
      var dropped := DropAllNaN(answer.value);
      var joined := OuterJoin(before.value, dropped);
      forall s | s in joined.columns ensures !AllNaN(s, joined.index) {
        if s in before.value.columns {
          PricedOnLarger(s, before.value.index, joined.index);
        } else {
          PricedOnLarger(s, dropped.index, joined.index);
        }
      }
    } else if before.Some? {
      CombinedColumnsPriced(answers[..|answers| - 1]);
    }
  }

  /** The symbols a later delegate is asked for are those no earlier one
      priced: a symbol that came back all NaN is asked for again. */
  lemma UnpricedAskedAgain(symbols: seq<string>, answers: seq<Option<Frame>>, x: string)
    requires x in symbols && Combined(answers).Some?
    requires forall i :: 0 <= i < |answers| && answers[i].Some? ==>
      forall s :: s in answers[i].value.columns && s.name == x ==> AllNaN(s, answers[i].value.index)
    ensures x in Remaining(symbols, Combined(answers))
  {
    NeverGathered(answers, x);
  }

  lemma {:induction false} NeverGathered(answers: seq<Option<Frame>>, x: string)
    requires forall i :: 0 <= i < |answers| && answers[i].Some? ==>
      forall s :: s in answers[i].value.columns && s.name == x ==> AllNaN(s, answers[i].value.index)
    ensures Combined(answers).Some? ==> x !in Names(Combined(answers).value.columns)
    decreases |answers|
  {
    if answers != [] {
      var init := answers[..|answers| - 1];
      assert forall i :: 0 <= i < |init| ==> init[i] == answers[i];
      NeverGathered(init, x);
      var answer := answers[|answers| - 1];
      if answer.Some? {
        var dropped := DropAllNaN(answer.value);
        forall k | 0 <= k < |dropped.columns| ensures dropped.columns[k].name != x {
          assert dropped.columns[k] in answer.value.columns;
        }
      }
    }
  }

  /** The record of requests grows by one request made on what all
      earlier answers gathered. */
  lemma AskedExtends(symbols: seq<string>, answers: seq<Option<Frame>>, asked: seq<seq<string>>,
                     answer: Option<Frame>, request: seq<string>)
    requires |asked| == |answers|
    requires forall j :: 0 <= j < |asked| ==> Asked(symbols, Combined(answers[..j]), asked[j])
    requires Asked(symbols, Combined(answers), request)
    ensures forall j :: 0 <= j < |asked| + 1 ==> Asked(symbols, Combined(answers[..j]), (asked + [request])[j])
    ensures forall j :: 0 <= j < |asked| + 1 ==> Asked(symbols, Combined((answers + [answer])[..j]), (asked + [request])[j])
    ensures Combined(answers + [answer]) == Accumulate(Combined(answers), answer)
  {
    assert answers[..|answers|] == answers;
    assert (answers + [answer])[..|answers|] == answers;
    forall j | 0 <= j < |asked| ensures (answers + [answer])[..j] == answers[..j] {
    }
  }

  /** One more delegate answered. */
  lemma AnsweredExtends(delegates: seq<PriceProviders.Fetch>, asked: seq<seq<string>>, answers: seq<Option<Frame>>,
                        request: seq<string>, answer: Option<Frame>, start: Date, end: Date)
    requires |asked| == |answers| < |delegates|
    requires forall j :: 0 <= j < |answers| ==> delegates[j](asked[j], start, end) == Ok(answers[j])
    requires delegates[|answers|](request, start, end) == Ok(answer)
    ensures forall j :: 0 <= j < |answers| + 1 ==>
      delegates[j]((asked + [request])[j], start, end) == Ok((answers + [answer])[j])
  {
  }

  /** The loop of fetch_prices: the delegates are asked in order, each for
      the symbols still unpriced, until none is left.  `asked` and
      `answers` record the requests and the answers, oldest first; an
      exception raised by a delegate ends the call, and otherwise the
      result is the combined answers. */
  method AskDelegates(delegates: seq<PriceProviders.Fetch>, symbols: seq<string>, start: Date, end: Date)
    returns (r: Result<Option<Frame>>, ghost asked: seq<seq<string>>, ghost answers: seq<Option<Frame>>)
    ensures |answers| <= |asked| <= |answers| + 1 && |asked| <= |delegates|
    ensures forall i :: 0 <= i < |asked| ==> Asked(symbols, Combined(answers[..i]), asked[i])
    ensures forall i :: 0 <= i < |answers| ==> delegates[i](asked[i], start, end) == Ok(answers[i])
    ensures |asked| == |answers| + 1 ==> r.Err? && delegates[|answers|](asked[|answers|], start, end) == Err(r.error)
    ensures |asked| == |answers| && |answers| < |delegates| ==> Remaining(symbols, Combined(answers)) == {}
    ensures |asked| == |answers| <==> r.Ok?
    ensures r.Ok? ==> r.value == Combined(answers)
  {
    var prices: Option<Frame> := None;
    asked := [];
    answers := [];
    var i := 0;
    while i < |delegates|
      invariant 0 <= i <= |delegates| && |asked| == |answers| == i
      invariant prices == Combined(answers)
      invariant forall j :: 0 <= j < i ==> Asked(symbols, Combined(answers[..j]), asked[j])
      invariant forall j :: 0 <= j < i ==> delegates[j](asked[j], start, end) == Ok(answers[j])
    {
      var remaining := FindRemaining(symbols, prices);
      if |remaining| == 0 {
        break;
      }
      var answer := delegates[i](remaining, start, end);
      AskedExtends(symbols, answers, asked, if answer.Ok? then answer.value else None, remaining);
      if answer.Ok? {
        AnsweredExtends(delegates, asked, answers, remaining, answer.value, start, end);
      }
      asked := asked + [remaining];
      if answer.Err? {
        return Err(answer.error), asked, answers;
      }
      answers := answers + [answer.value];
      prices := Accumulate(prices, answer.value);
      i := i + 1;
    }
    return Ok(prices), asked, answers;
  }

  /** What adding a column to no table raises. */
  const NoneAssigned: string := "'NoneType' object does not support item assignment"

  /** The end of fetch_prices: the symbols no delegate priced are added as
      all-NaN columns, which fails when no delegate answered at all. */
  method FillMissing(symbols: seq<string>, prices: Option<Frame>) returns (r: Result<Option<Frame>>)
    ensures prices.None? ==> r == if symbols == [] then Ok(None) else Err(TypeError(NoneAssigned))
    ensures prices.Some? ==>
      r.Ok? && r.value.Some? &&
      r.value.value.index == prices.value.index &&
      |prices.value.columns| <= |r.value.value.columns| &&
      r.value.value.columns[..|prices.value.columns|] == prices.value.columns &&
      forall x :: x in symbols ==> x in Names(r.value.value.columns)
  {
    var remaining := FindRemaining(symbols, prices);
    if |remaining| > 0 {
      if prices.None? {
        return Err(TypeError(NoneAssigned));
      }
      var filled := WithNaNColumns(prices.value, remaining);
      assert forall x :: x in symbols ==> x in Names(filled.columns) by {
        assert forall x :: x in symbols ==> x in Names(prices.value.columns) || x in remaining;
      }
      return Ok(Some(filled));
    }
    if prices.Some? {
      assert forall x :: x in symbols ==> x in Names(prices.value.columns) by {
        assert forall x :: x in symbols ==> x !in Remaining(symbols, prices) ==> x in Names(prices.value.columns);
      }
      assert prices.value.columns[..|prices.value.columns|] == prices.value.columns;
    } else {
      assert symbols == [];
    }
    return Ok(prices);
  }

  /** fetch_prices: the loop over the delegates, then the NaN columns. */
  method FetchPrices(delegates: seq<PriceProviders.Fetch>, symbols: seq<string>, start: Date, end: Date)
    returns (r: Result<Option<Frame>>, ghost asked: seq<seq<string>>, ghost answers: seq<Option<Frame>>)
    ensures |answers| <= |asked| <= |answers| + 1 && |asked| <= |delegates|
    ensures forall i :: 0 <= i < |asked| ==> Asked(symbols, Combined(answers[..i]), asked[i])
    ensures forall i :: 0 <= i < |answers| ==> delegates[i](asked[i], start, end) == Ok(answers[i])
    ensures |asked| == |answers| + 1 ==> r.Err? && delegates[|answers|](asked[|answers|], start, end) == Err(r.error)
    ensures |asked| == |answers| && |answers| < |delegates| ==> Remaining(symbols, Combined(answers)) == {}
    ensures |asked| == |answers| && Combined(answers).None? ==>
      r == if symbols == [] then Ok(None) else Err(TypeError(NoneAssigned))
    ensures |asked| == |answers| && Combined(answers).Some? ==>
      r.Ok? && r.value.Some? &&
      r.value.value.index == Combined(answers).value.index &&
      |Combined(answers).value.columns| <= |r.value.value.columns| &&
      r.value.value.columns[..|Combined(answers).value.columns|] == Combined(answers).value.columns &&
      forall x :: x in symbols ==> x in Names(r.value.value.columns)
  {
    var prices;
    prices, asked, answers := AskDelegates(delegates, symbols, start, end);
    if prices.Err? {
      return prices, asked, answers;
    }
    r := FillMissing(symbols, prices.value);
  }

  /** is_closeable: always. */
  function DelegateIsCloseable(delegates: seq<PriceProviders.Fetch>): (r: bool)
    ensures r
  {
    true
  }
}
