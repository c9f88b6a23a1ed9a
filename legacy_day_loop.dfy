/** backtest/backtest.py, `Backtester.run`, stated on values: the walk from
    the start to the end date, the weekend and holiday skips of a closeable
    data source, the order dates postponed over them, and what is reported
    to the exporters, day after day.  The account's figures are left out of
    the marks: they are what `LegacyBacktests` adds. */
module LegacyDayLoop {
  import opened Wrappers
  import opened Calendar

  /** What the loop asks about a day: the first and last day, whether a day
      is an order date, whether the source is closeable, the `weekends` and
      `holidays` flags of run, and the holiday list. */
  datatype Plan = Plan(start: Date, end: Date, isOrderDate: Date -> bool, closeable: bool,
                       weekends: bool, holidays: bool, isHoliday: Date -> bool)

  /** What the run reports of a day: a skip, or a snapshot, marked ordered
      or not, and carrying the order date it executes when postponed. */
  datatype Mark =
    | Skipped(date: Date, reason: string, ordered: bool)
    | Snapped(date: Date, ordered: bool, postponned: Option<Date>)

  /** The postponed order dates after a stretch of days, and its marks. */
  datatype Turn = Turn(postponed: seq<Date>, marks: seq<Mark>)

  const Weekend: string := "weekend"
  const Holiday: string := "holiday"

  /** Why the day is skipped, if it is: only a closeable source skips, a
      weekend day unless weekends are allowed, then a listed holiday unless
      holidays are allowed. */
  function SkipReason(p: Plan, date: Date): (r: Option<string>)
    ensures r == Some(Weekend) <==> p.closeable && !p.weekends && IsWeekend(date)
    ensures r == Some(Holiday) <==> p.closeable && !(!p.weekends && IsWeekend(date)) && !p.holidays && p.isHoliday(date)
    ensures r.None? <==> !p.closeable || ((p.weekends || !IsWeekend(date)) && (p.holidays || !p.isHoliday(date)))
  {
    if !p.closeable then None
    else if !p.weekends && IsWeekend(date) then Some(Weekend)
    else if !p.holidays && p.isHoliday(date) then Some(Holiday)
    else None
  }

  /** The snapshots of the postponed order dates on a trading day: one per
      date, in the order they were postponed. */
  function Replayed(postponed: seq<Date>, date: Date): (r: seq<Mark>)
    ensures |r| == |postponed|
    ensures forall i :: 0 <= i < |r| ==> r[i] == Snapped(date, true, Some(postponed[i]))
    decreases |postponed|
  {
    if postponed == [] then []
    else Replayed(postponed[..|postponed| - 1], date) + [Snapped(date, true, Some(postponed[|postponed| - 1]))]
  }

  /** One turn of the loop.  A skipped day reports the skip and postpones
      its order date; a trading day executes the postponed orders, clears
      the list, and ends with its own snapshot. */
  function Day(p: Plan, postponed: seq<Date>, date: Date): Turn {
    var ordered := p.isOrderDate(date);
    var reason := SkipReason(p, date);
    if reason.Some? then Turn(postponed + (if ordered then [date] else []), [Skipped(date, reason.value, ordered)])
    else Turn([], Replayed(postponed, date) + [Snapped(date, ordered, None)])
  }

  /** The loop from the start through `last`. */
  function Through(p: Plan, last: Date): Turn
    decreases last - p.start
  {
    if last < p.start then Turn([], [])
    else
      var before := Through(p, last - 1);
      var today := Day(p, before.postponed, last);
      Turn(today.postponed, before.marks + today.marks)
  }

  // ---------------------------------------------------------------------
  // Order of the marks

  /** Every mark is dated from `lo` to `hi`. */
  predicate DatedWithin(marks: seq<Mark>, lo: Date, hi: Date) {
    forall k :: 0 <= k < |marks| ==> lo <= marks[k].date <= hi
  }

  /** The marks come in date order. */
  predicate DatesSorted(marks: seq<Mark>) {
    forall j, k :: 0 <= j < k < |marks| ==> marks[j].date <= marks[k].date
  }

  /** A skipped day reports one mark, a trading day one per postponed date
      and one more; all are dated that day. */
  lemma DayMarks(p: Plan, postponed: seq<Date>, date: Date)
    ensures var marks := Day(p, postponed, date).marks;
      |marks| == (if SkipReason(p, date).Some? then 1 else |postponed| + 1) &&
      DatedWithin(marks, date, date)
  {
  }

  lemma AppendDay(before: seq<Mark>, today: seq<Mark>, lo: Date, date: Date)
    requires DatedWithin(before, lo, date - 1) && DatesSorted(before)
    requires lo <= date && DatedWithin(today, date, date)
    ensures DatedWithin(before + today, lo, date) && DatesSorted(before + today)
  {
    var marks := before + today;
    forall k | 0 <= k < |marks| ensures lo <= marks[k].date <= date {
      if k >= |before| {
        assert marks[k] == today[k - |before|];
      }
    }
    forall j, k | 0 <= j < k < |marks| ensures marks[j].date <= marks[k].date {
      if k >= |before| {
        assert marks[k] == today[k - |before|];
        if j >= |before| {
          assert marks[j] == today[j - |before|];
        }
      }
    }
  }

  /** The marks through `last` are dated from the start to `last`, in
      order. */
  lemma {:induction false} ThroughSorted(p: Plan, last: Date)
    ensures DatedWithin(Through(p, last).marks, p.start, last)
    ensures DatesSorted(Through(p, last).marks)
    decreases last - p.start
  {
    if last >= p.start {
      ThroughSorted(p, last - 1);
      var before := Through(p, last - 1);
      DayMarks(p, before.postponed, last);
      AppendDay(before.marks, Day(p, before.postponed, last).marks, p.start, last);
    }
  }

  /** What the marks through an earlier day are a prefix of. */
  lemma {:induction false} ThroughPrefix(p: Plan, early: Date, late: Date)
    requires early <= late
    ensures |Through(p, early).marks| <= |Through(p, late).marks|
    ensures Through(p, early).marks == Through(p, late).marks[..|Through(p, early).marks|]
    decreases late - early
  {
    if early < late {
      ThroughPrefix(p, early, late - 1);
      if late >= p.start {
        var before := Through(p, late - 1).marks;
        assert Through(p, late).marks[..|before|] == before;
      }
    }
  }

  // ---------------------------------------------------------------------
  // What each mark says

  /** A mark agrees with the plan: a skip gives the day's reason and
      whether it is an order date; a regular snapshot is on a trading day
      and is ordered exactly on an order date; a postponed one is ordered,
      on a trading day, for an order date before it from which every day
      up to it was skipped. */
  predicate Faithful(p: Plan, m: Mark) {
    match m
    case Skipped(d, reason, ordered) => SkipReason(p, d) == Some(reason) && ordered == p.isOrderDate(d)
    case Snapped(d, ordered, postponned) =>
      SkipReason(p, d).None? &&
      if postponned.None? then ordered == p.isOrderDate(d)
      else
        ordered && p.isOrderDate(postponned.value) && postponned.value < d &&
        forall e :: postponned.value <= e < d ==> SkipReason(p, e).Some?
  }

  predicate AllFaithful(p: Plan, marks: seq<Mark>) {
    forall k :: 0 <= k < |marks| ==> Faithful(p, marks[k])
  }

  /** The postponed list after `last`: order dates from the start to
      `last`, strictly increasing, and every day from the first of them to
      `last` skipped. */
  predicate Pending(p: Plan, postponed: seq<Date>, last: Date) {
    (forall i :: 0 <= i < |postponed| ==> p.isOrderDate(postponed[i]) && p.start <= postponed[i] <= last) &&
    (forall i, j :: 0 <= i < j < |postponed| ==> postponed[i] < postponed[j]) &&
    (postponed != [] ==> forall e :: postponed[0] <= e <= last ==> SkipReason(p, e).Some?)
  }

  lemma AllFaithfulAppend(p: Plan, a: seq<Mark>, b: seq<Mark>)
    requires AllFaithful(p, a) && AllFaithful(p, b)
    ensures AllFaithful(p, a + b)
  {
    forall k | 0 <= k < |a + b| ensures Faithful(p, (a + b)[k]) {
      if k >= |a| {
        assert (a + b)[k] == b[k - |a|];
      }
    }
  }

  /** One day keeps the postponed list pending and reports faithful marks. */
  lemma DayFaithful(p: Plan, postponed: seq<Date>, date: Date)
    requires p.start <= date && Pending(p, postponed, date - 1)
    ensures var t := Day(p, postponed, date);
      Pending(p, t.postponed, date) && AllFaithful(p, t.marks)
  {
    if SkipReason(p, date).Some? {
      SkipKeepsPending(p, postponed, date);
    } else {
      TradeFaithful(p, postponed, date);
    }
  }

  /** A skipped day appends its order date, the latest so far. */
  lemma SkipKeepsPending(p: Plan, postponed: seq<Date>, date: Date)
    requires p.start <= date && Pending(p, postponed, date - 1) && SkipReason(p, date).Some?
    ensures Pending(p, postponed + (if p.isOrderDate(date) then [date] else []), date)
  {
    if p.isOrderDate(date) {
      var next := postponed + [date];
      forall i | 0 <= i < |next| ensures p.isOrderDate(next[i]) && p.start <= next[i] <= date {
        if i < |postponed| {
          assert next[i] == postponed[i];
        }
      }
      forall i, j | 0 <= i < j < |next| ensures next[i] < next[j] {
        assert next[i] == postponed[i];
        if j < |postponed| {
          assert next[j] == postponed[j];
        }
      }
      if postponed != [] {
        assert next[0] == postponed[0];
      }
    }
  }

  /** The snapshots of a trading day are faithful. */
  lemma TradeFaithful(p: Plan, postponed: seq<Date>, date: Date)
    requires p.start <= date && Pending(p, postponed, date - 1) && SkipReason(p, date).None?
    ensures AllFaithful(p, Day(p, postponed, date).marks)
  {
    var marks := Day(p, postponed, date).marks;
    var replay := Replayed(postponed, date);
    assert marks == replay + [Snapped(date, p.isOrderDate(date), None)];
    forall k | 0 <= k < |marks| ensures Faithful(p, marks[k]) {
      if k < |replay| {
        var given := postponed[k];
        assert marks[k] == Snapped(date, true, Some(given));
        assert postponed[0] <= given;
      }
    }
  }

  /** Every mark through `last` is faithful to the plan, and the list of
      postponed order dates stays pending. */
  lemma {:induction false} ThroughFaithful(p: Plan, last: Date)
    ensures AllFaithful(p, Through(p, last).marks)
    ensures Pending(p, Through(p, last).postponed, last)
    decreases last - p.start
  {
    if last >= p.start {
      ThroughFaithful(p, last - 1);
      var before := Through(p, last - 1);
      DayFaithful(p, before.postponed, last);
      AllFaithfulAppend(p, before.marks, Day(p, before.postponed, last).marks);
    }
  }

  // ---------------------------------------------------------------------
  // No order is lost

  /** The order of `given` was executed: on that day, or postponed from it. */
  predicate Placed(marks: seq<Mark>, given: Date) {
    exists k :: 0 <= k < |marks| && marks[k].Snapped? && marks[k].ordered &&
      (marks[k].postponned == Some(given) || (marks[k].postponned.None? && marks[k].date == given))
  }

  lemma PlacedAppend(a: seq<Mark>, b: seq<Mark>, given: Date)
    requires Placed(a, given) || Placed(b, given)
    ensures Placed(a + b, given)
  {
    if Placed(a, given) {
      var k :| 0 <= k < |a| && a[k].Snapped? && a[k].ordered &&
        (a[k].postponned == Some(given) || (a[k].postponned.None? && a[k].date == given));
      assert (a + b)[k] == a[k];
    } else {
      var k :| 0 <= k < |b| && b[k].Snapped? && b[k].ordered &&
        (b[k].postponned == Some(given) || (b[k].postponned.None? && b[k].date == given));
      assert (a + b)[|a| + k] == b[k];
    }
  }

  /** Every order date from the start through `last` has been executed, on
      its day or on a later trading day, or is still postponed. */
  lemma {:induction false} OrderNotLost(p: Plan, given: Date, last: Date)
    requires p.start <= given <= last && p.isOrderDate(given)
    ensures Placed(Through(p, last).marks, given) || given in Through(p, last).postponed
    decreases last - given
  {
    var before := Through(p, last - 1);
    var today := Day(p, before.postponed, last);
    if given == last {
      if SkipReason(p, last).None? {
        var k := |Replayed(before.postponed, last)|;
        assert today.marks[k] == Snapped(last, true, None);
        PlacedAppend(before.marks, today.marks, given);
      } else {
        assert today.postponed[|before.postponed|] == given;
      }
    } else {
      OrderNotLost(p, given, last - 1);
      if Placed(before.marks, given) {
        PlacedAppend(before.marks, today.marks, given);
      } else if SkipReason(p, last).Some? {
        var i :| 0 <= i < |before.postponed| && before.postponed[i] == given;
        assert today.postponed[i] == given;
      } else {
        var i :| 0 <= i < |before.postponed| && before.postponed[i] == given;
        assert today.marks[i] == Snapped(last, true, Some(given));
        PlacedAppend(before.marks, today.marks, given);
      }
    }
  }

  // ---------------------------------------------------------------------
  // One regular snapshot per trading day

  /** The dates of the regular (not postponed) snapshots, in order. */
  function Regulars(marks: seq<Mark>): seq<Date>
    decreases |marks|
  {
    if marks == [] then []
    else
      var m := marks[|marks| - 1];
      Regulars(marks[..|marks| - 1]) + (if m.Snapped? && m.postponned.None? then [m.date] else [])
  }

  /** The days from the start through `last` that are not skipped. */
  function TradingDays(p: Plan, last: Date): seq<Date>
    decreases last - p.start
  {
    if last < p.start then [] else TradingDays(p, last - 1) + (if SkipReason(p, last).None? then [last] else [])
  }

  lemma {:induction false} RegularsAppend(a: seq<Mark>, b: seq<Mark>)
    ensures Regulars(a + b) == Regulars(a) + Regulars(b)
    decreases |b|
  {
    if b == [] {
      assert a + b == a;
    } else {
      var c := b[..|b| - 1];
      assert (a + b)[..|a + b| - 1] == a + c;
      RegularsAppend(a, c);
    }
  }

  lemma {:induction false} RegularsReplayed(postponed: seq<Date>, date: Date)
    ensures Regulars(Replayed(postponed, date)) == []
    decreases |postponed|
  {
    if postponed != [] {
      var init := postponed[..|postponed| - 1];
      RegularsReplayed(init, date);
      RegularsAppend(Replayed(init, date), [Snapped(date, true, Some(postponed[|postponed| - 1]))]);
      assert Regulars([Snapped(date, true, Some(postponed[|postponed| - 1]))]) == [];
    }
  }

  /** The regular snapshots through `last` are exactly one per trading day,
      in order, and none on a skipped day. */
  lemma {:induction false} ThroughRegulars(p: Plan, last: Date)
    ensures Regulars(Through(p, last).marks) == TradingDays(p, last)
    decreases last - p.start
  {
    if last >= p.start {
      ThroughRegulars(p, last - 1);
      var before := Through(p, last - 1);
      var today := Day(p, before.postponed, last);
      assert Through(p, last).marks == before.marks + today.marks;
      DayRegulars(p, before.postponed, last);
      RegularsAppend(before.marks, today.marks);
      assert TradingDays(p, last) == TradingDays(p, last - 1) + (if SkipReason(p, last).None? then [last] else []);
      assert Regulars(before.marks + today.marks) == TradingDays(p, last - 1) + Regulars(today.marks);
      assert Regulars(Through(p, last).marks) == Regulars(before.marks + today.marks);
    } else {
      assert Regulars(Through(p, last).marks) == [];
    }
  }

  /** A day's regular snapshot: its own, on a trading day. */
  lemma DayRegulars(p: Plan, postponed: seq<Date>, date: Date)
    ensures Regulars(Day(p, postponed, date).marks) == if SkipReason(p, date).None? then [date] else []
  {
    var today := Day(p, postponed, date);
    if SkipReason(p, date).Some? {
      assert Regulars(today.marks) == Regulars([]) + [];
    } else {
      var replay := Replayed(postponed, date);
      RegularsReplayed(postponed, date);
      RegularsAppend(replay, [Snapped(date, p.isOrderDate(date), None)]);
      assert Regulars([Snapped(date, p.isOrderDate(date), None)]) == [date];
    }
  }

  /** A source that is not closeable skips nothing: one regular snapshot
      per day from the start, ordered exactly on order dates, and nothing
      is ever postponed. */
  lemma {:induction false} NoSkipUnlessCloseable(p: Plan, last: Date)
    requires !p.closeable && p.start - 1 <= last
    ensures var t := Through(p, last);
      t.postponed == [] && |t.marks| == last - p.start + 1 &&
      forall k :: 0 <= k < |t.marks| ==> t.marks[k] == Snapped(p.start + k, p.isOrderDate(p.start + k), None)
    decreases last - p.start
  {
    if last >= p.start {
      NoSkipUnlessCloseable(p, last - 1);
      var before := Through(p, last - 1);
      assert Replayed(before.postponed, last) == [];
      var marks := Through(p, last).marks;
      forall k | 0 <= k < |marks| ensures marks[k] == Snapped(p.start + k, p.isOrderDate(p.start + k), None) {
        if k < |before.marks| {
          assert marks[k] == before.marks[k];
        }
      }
    }
  }

  // ---------------------------------------------------------------------
  // A run over the first ten days of 2024

  /** The plan of the run below. */
  function TenDaysPlan(): Plan {
    Plan(738886, 738895, d => d in {738886, 738889, 738892, 738894}, true, false, false, d => d == 738886)
  }

  /** One more day of a run. */
  lemma ThroughNext(p: Plan, last: Date, t: Turn)
    requires p.start <= last && Through(p, last - 1) == t
    ensures Through(p, last) == Turn(Day(p, t.postponed, last).postponed, t.marks + Day(p, t.postponed, last).marks)
  {
  }

  /** A skipped day after `last - 1`: the skip is reported and the order
      date, if it is one, joins the postponed ones. */
  lemma SkipStep(p: Plan, last: Date, postponed: seq<Date>, marks: seq<Mark>)
    requires p.start <= last && Through(p, last - 1) == Turn(postponed, marks)
    requires SkipReason(p, last).Some?
    ensures Through(p, last) == Turn(postponed + (if p.isOrderDate(last) then [last] else []),
                                     marks + [Skipped(last, SkipReason(p, last).value, p.isOrderDate(last))])
  {
  }

  /** A trading day after `last - 1`: the postponed order dates are
      replayed and the day ends with its own snapshot. */
  lemma TradeStep(p: Plan, last: Date, postponed: seq<Date>, marks: seq<Mark>)
    requires p.start <= last && Through(p, last - 1) == Turn(postponed, marks)
    requires SkipReason(p, last).None?
    ensures Through(p, last) == Turn([], marks + Replayed(postponed, last) + [Snapped(last, p.isOrderDate(last), None)])
  {
  }

  /** What the run below needs to know of its plan. */
  predicate TenDaysShape(p: Plan) {
    p.start == 738886 &&
    SkipReason(p, 738886) == Some(Holiday) && SkipReason(p, 738891) == Some(Weekend) &&
    SkipReason(p, 738892) == Some(Weekend) &&
    (forall d :: 738887 <= d <= 738895 && d != 738891 && d != 738892 ==> SkipReason(p, d).None?) &&
    p.isOrderDate(738886) && !p.isOrderDate(738887) && !p.isOrderDate(738888) &&
    p.isOrderDate(738889) && !p.isOrderDate(738890) && !p.isOrderDate(738891) &&
    p.isOrderDate(738892) && !p.isOrderDate(738893) && p.isOrderDate(738894) &&
    !p.isOrderDate(738895)
  }

  /** The plan of the run below has that shape: the 1st a holiday, the 6th
      and 7th a weekend, the others trading days. */
  lemma TenDaysPlanShape()
    ensures TenDaysShape(TenDaysPlan())
  {
    var p := TenDaysPlan();
    forall d | 738887 <= d <= 738895 && d != 738891 && d != 738892 ensures SkipReason(p, d).None? {
      assert !IsWeekend(d);
    }
  }

  /** The first five days of any plan of that shape. */
  lemma FiveDays(p: Plan)
    requires TenDaysShape(p)
    ensures Through(p, 738890) == Turn([], [
        Skipped(738886, Holiday, true),
        Snapped(738887, true, Some(738886)), Snapped(738887, false, None),
        Snapped(738888, false, None),
        Snapped(738889, true, None),
        Snapped(738890, false, None)])
  {
    assert Through(p, 738885) == Turn([], []);
    SkipStep(p, 738886, [], []);
    var m := [Skipped(738886, Holiday, true)];
    assert Replayed([738886], 738887) == [Snapped(738887, true, Some(738886))];
    TradeStep(p, 738887, [738886], m);
    m := m + [Snapped(738887, true, Some(738886)), Snapped(738887, false, None)];
    assert Replayed([], 738888) == [];
    TradeStep(p, 738888, [], m);
    m := m + [Snapped(738888, false, None)];
    TradeStep(p, 738889, [], m);
    m := m + [Snapped(738889, true, None)];
    TradeStep(p, 738890, [], m);
  }

  /** The last five days of any plan of that shape, after the first five. */
  lemma LastFiveDays(p: Plan, marks: seq<Mark>)
    requires TenDaysShape(p) && Through(p, 738890) == Turn([], marks)
    ensures Through(p, 738895).marks == marks + [
        Skipped(738891, Weekend, false),
        Skipped(738892, Weekend, true),
        Snapped(738893, true, Some(738892)), Snapped(738893, false, None),
        Snapped(738894, true, None),
        Snapped(738895, false, None)]
  {
    SkipStep(p, 738891, [], marks);
    var m := marks + [Skipped(738891, Weekend, false)];
    SkipStep(p, 738892, [], m);
    m := m + [Skipped(738892, Weekend, true)];
    assert Replayed([738892], 738893) == [Snapped(738893, true, Some(738892))];
    TradeStep(p, 738893, [738892], m);
    m := m + [Snapped(738893, true, Some(738892)), Snapped(738893, false, None)];
    assert Replayed([], 738894) == [];
    TradeStep(p, 738894, [], m);
    m := m + [Snapped(738894, true, None)];
    TradeStep(p, 738895, [], m);
  }

  /** 2024-01-01 to 2024-01-10 with order dates on the 1st, 4th, 7th and
      9th, a closeable source and the 1st listed as a holiday: the 1st is
      skipped as a holiday and its order executes on the 2nd; the 6th and
      7th are skipped as a weekend and the order of the 7th executes on the
      8th; every other day has its own snapshot. */
  lemma TenDays()
    ensures Through(TenDaysPlan(), 738895).marks == [
        Skipped(738886, Holiday, true),
        Snapped(738887, true, Some(738886)), Snapped(738887, false, None),
        Snapped(738888, false, None),
        Snapped(738889, true, None),
        Snapped(738890, false, None),
        Skipped(738891, Weekend, false),
        Skipped(738892, Weekend, true),
        Snapped(738893, true, Some(738892)), Snapped(738893, false, None),
        Snapped(738894, true, None),
        Snapped(738895, false, None)]
  {
    TenDaysPlanShape();
    FiveDays(TenDaysPlan());
    LastFiveDays(TenDaysPlan(), Through(TenDaysPlan(), 738890).marks);
  }
}
