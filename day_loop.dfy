/** bktest/backtest.py, `SimpleBacktester.run`, stated on values: the walk
    from the iterator's start to its end, the skipping of weekends and
    holidays, the postponing of orders given on a day that cannot trade,
    and what is reported to the exporters, each day in turn.  What the
    account answers on a day (whether the revaluation found a trading day,
    whether the order batch produced any result) enters as `Found`. */
module DayLoop {
  import opened Wrappers
  import opened Calendar
  import opened Iterators

  /** The loop's flags: `ordered`, `order_date` (meaningful while
      `ordered`) and `pre_trading`. */
  datatype Cursor = Cursor(ordered: bool, orderDate: Date, preTrading: bool)

  /** Before the first day: nothing ordered, not trading yet. */
  const Initial: Cursor := Cursor(false, 0, true)

  /** What the run reports, without the account's figures: a skip, or a
      snapshot with or without an order result, postponed from an earlier
      order date or not. */
  datatype Mark =
    | Skipped(date: Date, reason: string, ordered: bool)
    | Snapped(date: Date, placed: bool, postponned: Option<Date>)

  /** A snapshot carrying an order result. */
  predicate HasResult(m: Mark) {
    m.Snapped? && m.placed
  }

  /** The cursor after a stretch of days, and what it reported. */
  datatype Turn = Turn(cursor: Cursor, marks: seq<Mark>)

  const NoValue: string := "no trading: no value has been updated"
  const NoOrder: string := "no trading: no order was executed"

  /** The account's answers on a day: whether update_values or update_price
      brought a holding up to date, and whether the order batch returned a
      non-empty collection. */
  datatype Found = Found(traded: bool, executed: bool)

  /** `is_holiday or is_weekend`: the holiday skip wins when both apply. */
  function Skipping(it: DateIterator, date: Date, ordered: bool): (r: Option<Skip>)
    ensures r.Some? <==> ShouldSkipHolidays(it, date, ordered).Some? || ShouldSkipWeekends(it, date, ordered).Some?
    ensures r.Some? ==> r.value.date == date && r.value.ordered == ordered
  {
    var holiday := ShouldSkipHolidays(it, date, ordered);
    if holiday.Some? then holiday else ShouldSkipWeekends(it, date, ordered)
  }

  /** What the loop asks about a day: where the walk starts, whether the
      day is an order date, and the skip for it given the `ordered` flag. */
  datatype Plan = Plan(start: Date, isOrderDate: Date -> bool, skip: (Date, bool) -> Option<Skip>)

  /** The iterator's answers. */
  function PlanOf(it: DateIterator): (p: Plan)
    ensures p.start == it.start
    ensures forall d :: p.isOrderDate(d) <==> d in it.orderDates
    ensures forall d, o :: p.skip(d, o) == Skipping(it, d, o)
  {
    Plan(it.start, d => d in it.orderDates, (d, o) => Skipping(it, d, o))
  }

  /** One turn of the loop.  An order date sets the pending order; a day
      to skip reports it and keeps the order pending; after the first
      trading day the holdings are revalued first, and a day on which
      nothing was revalued is reported as such (with `ordered` False) and
      keeps the order pending; a pending order is placed with the day as
      price date, and one that produces nothing stays pending; the first
      trading day ends with a snapshot. */
  function Day(p: Plan, cur: Cursor, date: Date, found: Found): Turn {
    var ordered := cur.ordered || p.isOrderDate(date);
    var orderDate := if p.isOrderDate(date) then date else cur.orderDate;
    var skip := p.skip(date, ordered);
    if skip.Some? then Turn(Cursor(ordered, orderDate, cur.preTrading), [Skipped(date, skip.value.reason, ordered)])
    else Trading(cur.preTrading, date, ordered, orderDate, found)
  }

  /** A day that is not skipped: after the first trading day the holdings
      are revalued, and a day on which nothing was revalued is reported as
      such and keeps the order pending; otherwise the day goes on to the
      pending order. */
  function Trading(preTrading: bool, date: Date, ordered: bool, orderDate: Date, found: Found): Turn {
    if !preTrading && !found.traded then Turn(Cursor(ordered, orderDate, preTrading), [Skipped(date, NoValue, false)])
    else
      var revalued := if preTrading then [] else [Snapped(date, false, None)];
      var rest := Placing(preTrading, date, ordered, orderDate, found.executed);
      Turn(rest.cursor, revalued + rest.marks)
  }

  /** The pending order is placed with the day as price date, and one that
      produces nothing stays pending; the first trading day ends with a
      snapshot. */
  function Placing(preTrading: bool, date: Date, ordered: bool, orderDate: Date, executed: bool): Turn {
    if ordered && !executed then Turn(Cursor(ordered, orderDate, preTrading), [Skipped(date, NoOrder, true)])
    else
      var placed := if ordered then [Snapped(date, true, if orderDate != date then Some(orderDate) else None)] else [];
      var first := if preTrading then [Snapped(date, false, None)] else [];
      Turn(Cursor(false, orderDate, false), placed + first)
  }

  /** The loop from the iterator's start through `last`: the cursor after
      it and the marks reported, day after day. */
  function Through(p: Plan, found: Date -> Found, last: Date): Turn
    decreases last - p.start
  {
    if last < p.start then Turn(Initial, [])
    else
      var before := Through(p, found, last - 1);
      var today := Day(p, before.cursor, last, found(last));
      Turn(today.cursor, before.marks + today.marks)
  }

  /** The run through `last` depends only on what was found on the days up
      to `last`. */
  lemma {:induction false} ThroughAgrees(p: Plan, found: Date -> Found, found': Date -> Found, last: Date)
    requires forall d :: d <= last ==> found(d) == found'(d)
    ensures Through(p, found, last) == Through(p, found', last)
    decreases last - p.start
  {
    if last >= p.start {
      ThroughAgrees(p, found, found', last - 1);
    }
  }

  /** Every day reports one or two marks, all dated that day. */
  lemma DayMarks(p: Plan, cur: Cursor, date: Date, found: Found)
    ensures var marks := Day(p, cur, date, found).marks;
      1 <= |marks| <= 2 && forall k :: 0 <= k < |marks| ==> marks[k].date == date
  {
  }

  /** A day leaves an order pending exactly when there was one (given
      earlier or on the day) and no order result was reported; at most one
      result is reported, and it says it was postponed exactly when the
      order date is not the day.  The pending order date is the latest
      order date seen. */
  lemma DayPending(p: Plan, cur: Cursor, date: Date, found: Found)
    ensures var t := Day(p, cur, date, found);
      var ordered := cur.ordered || p.isOrderDate(date);
      var orderDate := if p.isOrderDate(date) then date else cur.orderDate;
      t.cursor.orderDate == orderDate &&
      (t.cursor.ordered <==> ordered && forall k :: 0 <= k < |t.marks| ==> !HasResult(t.marks[k])) &&
      (forall j, k :: 0 <= j < |t.marks| && 0 <= k < |t.marks| && HasResult(t.marks[j]) && HasResult(t.marks[k]) ==> j == k) &&
      (forall k :: 0 <= k < |t.marks| && HasResult(t.marks[k]) ==>
         ordered && t.marks[k].postponned == (if orderDate != date then Some(orderDate) else None))
  {
    var t := Day(p, cur, date, found);
    var ordered := cur.ordered || p.isOrderDate(date);
    var orderDate := if p.isOrderDate(date) then date else cur.orderDate;
    if p.skip(date, ordered).None? && (cur.preTrading || found.traded) {
      var revalued: seq<Mark> := if cur.preTrading then [] else [Snapped(date, false, None)];
      if !(ordered && !found.executed) {
        var placed: seq<Mark> := if ordered then [Snapped(date, true, if orderDate != date then Some(orderDate) else None)] else [];
        var first: seq<Mark> := if cur.preTrading then [Snapped(date, false, None)] else [];
        assert t.marks == revalued + placed + first;
        assert forall k :: 0 <= k < |revalued| ==> !HasResult(revalued[k]);
        assert forall k :: 0 <= k < |first| ==> !HasResult(first[k]);
        forall k | 0 <= k < |t.marks| && HasResult(t.marks[k]) ensures k == |revalued| && ordered {
        }
        if ordered {
          assert HasResult(t.marks[|revalued|]);
        }
      }
    }
  }

  /** Every mark is dated from `lo` to `hi`. */
  predicate DatedWithin(marks: seq<Mark>, lo: Date, hi: Date) {
    forall k :: 0 <= k < |marks| ==> lo <= marks[k].date <= hi
  }

  /** The marks come in date order. */
  predicate DatesSorted(marks: seq<Mark>) {
    forall j, k :: 0 <= j < k < |marks| ==> marks[j].date <= marks[k].date
  }

  /** Sorted marks through the day before, followed by marks of the day,
      are sorted marks through the day. */
  lemma AppendDay(before: seq<Mark>, today: seq<Mark>, lo: Date, date: Date)
    requires DatedWithin(before, lo, date - 1) && DatesSorted(before)
    requires lo <= date && DatedWithin(today, date, date)
    ensures DatedWithin(before + today, lo, date) && DatesSorted(before + today)
  {
    var marks := before + today;
    forall k | 0 <= k < |marks| ensures lo <= marks[k].date <= date {
      if k >= |before| {
        assert marks[k] == today[k - |before|];
      }
    }
    forall j, k | 0 <= j < k < |marks| ensures marks[j].date <= marks[k].date {
      if k >= |before| {
        assert marks[k] == today[k - |before|];
        if j >= |before| {
          assert marks[j] == today[j - |before|];
        }
      }
    }
  }

  /** Marks reported through `last` are dated from the start to `last`,
      in order. */
  lemma {:induction false} ThroughOrdered(p: Plan, found: Date -> Found, last: Date)
    ensures DatedWithin(Through(p, found, last).marks, p.start, last)
    ensures DatesSorted(Through(p, found, last).marks)
    decreases last - p.start
  {
    if last >= p.start {
      ThroughOrdered(p, found, last - 1);
      var before := Through(p, found, last - 1);
      var today := Day(p, before.cursor, last, found(last));
      DayMarks(p, before.cursor, last, found(last));
      assert DatedWithin(today.marks, last, last);
      AppendDay(before.marks, today.marks, p.start, last);
    }
  }

  /** Every day from the start through `last` is reported at least once. */
  lemma {:induction false} ThroughCovers(p: Plan, found: Date -> Found, last: Date, date: Date)
    requires p.start <= date <= last
    ensures exists k :: 0 <= k < |Through(p, found, last).marks| && Through(p, found, last).marks[k].date == date
    decreases last - p.start
  {
    var before := Through(p, found, last - 1);
    var today := Day(p, before.cursor, last, found(last));
    DayMarks(p, before.cursor, last, found(last));
    if date == last {
      assert Through(p, found, last).marks[|before.marks|] == today.marks[0];
    } else {
      ThroughCovers(p, found, last - 1, date);
      var k :| 0 <= k < |before.marks| && before.marks[k].date == date;
      assert Through(p, found, last).marks[k] == before.marks[k];
    }
  }

  /** What is reported through an earlier day is a prefix of what is
      reported through a later one. */
  lemma {:induction false} ThroughPrefix(p: Plan, found: Date -> Found, early: Date, late: Date)
    requires early <= late
    ensures |Through(p, found, early).marks| <= |Through(p, found, late).marks|
    ensures Through(p, found, early).marks == Through(p, found, late).marks[..|Through(p, found, early).marks|]
    decreases late - early
  {
    if early < late {
      ThroughPrefix(p, found, early, late - 1);
      if late >= p.start {
        var before := Through(p, found, late - 1).marks;
        assert Through(p, found, late).marks[..|before|] == before;
      }
    }
  }

  /** No order result among the marks from index `from` on. */
  predicate NoResultSince(marks: seq<Mark>, from: nat) {
    forall k :: from <= k < |marks| ==> !HasResult(marks[k])
  }

  /** Every order result from index `from` on says it was postponed from
      `given` exactly when it is reported on another day. */
  predicate PostponedFrom(marks: seq<Mark>, from: nat, given: Date) {
    forall k :: from <= k < |marks| && HasResult(marks[k]) ==>
      marks[k].postponned == (if marks[k].date != given then Some(given) else None)
  }

  /** Both predicates over a concatenation split at its seam. */
  lemma SplitSince(before: seq<Mark>, today: seq<Mark>, from: nat, given: Date)
    requires from <= |before|
    ensures NoResultSince(before + today, from) <==> NoResultSince(before, from) && NoResultSince(today, 0)
    ensures PostponedFrom(before + today, from, given) <==> PostponedFrom(before, from, given) && PostponedFrom(today, 0, given)
  {
    var marks := before + today;
    assert forall k :: from <= k < |before| ==> marks[k] == before[k];
    assert forall k :: 0 <= k < |today| ==> marks[|before| + k] == today[k];
    if NoResultSince(before, from) && NoResultSince(today, 0) {
      forall k | from <= k < |marks| ensures !HasResult(marks[k]) {
        if k >= |before| {
          assert marks[k] == today[k - |before|];
        }
      }
    }
    if PostponedFrom(before, from, given) && PostponedFrom(today, 0, given) {
      forall k | from <= k < |marks| && HasResult(marks[k])
        ensures marks[k].postponned == (if marks[k].date != given then Some(given) else None)
      {
        if k >= |before| {
          assert marks[k] == today[k - |before|];
        }
      }
    }
  }

  /** A day on which the pending order is the one given on `given` (given
      that very day, or earlier with no order date since) keeps it so, and
      leaves it pending exactly when it was and no result was reported. */
  lemma DayKeeps(p: Plan, cur: Cursor, date: Date, found: Found, given: Date)
    requires (p.isOrderDate(date) && date == given) || (!p.isOrderDate(date) && cur.orderDate == given)
    ensures var t := Day(p, cur, date, found);
      t.cursor.orderDate == given &&
      (t.cursor.ordered <==> (cur.ordered || p.isOrderDate(date)) && NoResultSince(t.marks, 0)) &&
      PostponedFrom(t.marks, 0, given)
  {
    DayPending(p, cur, date, found);
    DayMarks(p, cur, date, found);
  }

  /** An order given on `given` is not lost: through any later day, until
      a later order date replaces it, it stays pending exactly as long as
      no order result has been reported since, and a result reported since
      carries `given` as its postponement whenever it comes on a later
      day. */
  lemma {:induction false} OrderPostponed(p: Plan, found: Date -> Found, given: Date, last: Date)
    requires p.start <= given <= last && p.isOrderDate(given)
    requires forall d :: given < d <= last ==> !p.isOrderDate(d)
    ensures var r := Through(p, found, last);
      var since := |Through(p, found, given - 1).marks|;
      r.cursor.orderDate == given && (r.cursor.ordered <==> NoResultSince(r.marks, since)) &&
      PostponedFrom(r.marks, since, given)
    decreases last - given
  {
    var since := |Through(p, found, given - 1).marks|;
    var before := Through(p, found, last - 1);
    var today := Day(p, before.cursor, last, found(last));
    assert Through(p, found, last) == Turn(today.cursor, before.marks + today.marks);
    if last == given {
      DayKeeps(p, before.cursor, last, found(last), given);
      SplitSince(before.marks, today.marks, since, given);
    } else {
      OrderPostponed(p, found, given, last - 1);
      ThroughPrefix(p, found, given - 1, last - 1);
      DayKeeps(p, before.cursor, last, found(last), given);
      SplitSince(before.marks, today.marks, since, given);
    }
  }
}
