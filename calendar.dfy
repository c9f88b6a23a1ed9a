/** Dates as Python models them: a `datetime.date` is identified with its
    proleptic Gregorian ordinal (`date.toordinal()`, 0001-01-01 is day 1). */
module Calendar {

  type Date = int

  /** date.max.toordinal(), 9999-12-31. */
  const MaxOrdinal: int := 3652059

  /** date.weekday(): Monday is 0 and Sunday is 6; day 1 was a Monday. */
  function Weekday(d: Date): (r: int)
    ensures 0 <= r < 7
    ensures r == 0 <==> (d - 1) % 7 == 0
  {
    (d + 6) % 7
  }

  /** The week advances by one day per ordinal and repeats every seven. */
  lemma WeekdayNext(d: Date)
    ensures Weekday(d + 1) == (Weekday(d) + 1) % 7
    ensures Weekday(d + 7) == Weekday(d)
  {
  }

  /** Days 5 and 6 of the week are Saturday and Sunday. */
  predicate IsWeekend(d: Date) {
    Weekday(d) > 4
  }

  /** Seven consecutive days hold exactly two weekend days: the day after a
      Friday and the day after that. */
  lemma WeekendFollowsFriday(d: Date)
    requires Weekday(d) == 4
    ensures IsWeekend(d + 1) && IsWeekend(d + 2) && !IsWeekend(d + 3)
  {
  }

  const DaysBeforeMonth: seq<int> := [-1, 0, 31, 59, 90, 120, 151, 181, 212, 243, 273, 304, 334, 365]
  const DaysInMonth: seq<int> := [-1, 31, 28, 31, 30, 31, 30, 31, 31, 30, 31, 30, 31]

  datatype Ymd = Ymd(year: int, month: int, day: int)

  /** CPython's _ord2ymd: the calendar date of an ordinal. The result is a
      day of a month that has that many days (February may have 29). */
  function ToYmd(ordinal: Date): (r: Ymd)
    requires 1 <= ordinal <= MaxOrdinal
    ensures 1 <= r.year <= 9999
    ensures 1 <= r.month <= 12
    ensures 1 <= r.day <= DaysInMonth[r.month] + (if r.month == 2 then 1 else 0)
  {
    var n0 := ordinal - 1;
    var n400 := n0 / 146097;
    var n1 := n0 % 146097;
    var n100 := n1 / 36524;
    var n2 := n1 % 36524;
    var n4 := n2 / 1461;
    var n3 := n2 % 1461;
    var y1 := n3 / 365;
    var n := n3 % 365;
    var year := n400 * 400 + 1 + n100 * 100 + n4 * 4 + y1;
    CyclesBounds(n0);
    if y1 == 4 || n100 == 4 then Ymd(year - 1, 12, 31)
    else
      var leap := y1 == 3 && (n4 != 24 || n100 == 3);
      var md := MonthDay(n, leap);
      MonthDayValid(n, leap);
      Ymd(year, md.0, md.1)
  }

  /** The split of a day count into four-hundred-, hundred-, four- and
      one-year cycles gives a year from 1 to 9999. */
  lemma CyclesBounds(n0: int)
    requires 0 <= n0 < MaxOrdinal
    ensures var n400 := n0 / 146097; var n1 := n0 % 146097;
      var n100 := n1 / 36524; var n2 := n1 % 36524;
      var n4 := n2 / 1461; var n3 := n2 % 1461; var y1 := n3 / 365;
      0 <= n400 <= 24 && 0 <= n100 <= 4 && 0 <= n4 <= 24 && 0 <= y1 <= 4 && 0 <= n3 % 365 < 365 &&
      1 <= n400 * 400 + 1 + n100 * 100 + n4 * 4 + y1 <= 10000 &&
      (y1 == 4 || n100 == 4 ==> 2 <= n400 * 400 + 1 + n100 * 100 + n4 * 4 + y1) &&
      (y1 != 4 && n100 != 4 ==> n400 * 400 + 1 + n100 * 100 + n4 * 4 + y1 <= 9999)
  {
    var n400 := n0 / 146097;
    var n1 := n0 % 146097;
    assert n0 == n400 * 146097 + n1 && 0 <= n1 < 146097;
    assert 0 <= n400 <= 24;
    var n100 := n1 / 36524;
    var n2 := n1 % 36524;
    assert n1 == n100 * 36524 + n2 && 0 <= n2 < 36524;
    assert 0 <= n100 <= 4;
    var n4 := n2 / 1461;
    var n3 := n2 % 1461;
    assert n2 == n4 * 1461 + n3 && 0 <= n3 < 1461;
    assert 0 <= n4 <= 24;
    var y1 := n3 / 365;
    assert n3 == y1 * 365 + n3 % 365;
    assert 0 <= y1 <= 4;
    if n400 == 24 {
      assert n1 <= 145730;
      assert n100 <= 3;
      if n100 == 3 {
        assert n2 <= 36158;
        assert n4 <= 24;
        if n4 == 24 {
          assert n3 <= 1094;
          assert y1 <= 2;
        }
      }
    }
  }

  /** The month and day of day `n` (from 0) of a year: the month is first
      estimated as (n + 50) / 32, and taken back by one when the days before
      it already pass n. */
  function MonthDay(n: int, leap: bool): (int, int)
    requires 0 <= n < 365
  {
    var month := (n + 50) / 32;
    var preceding := DaysBeforeMonth[month] + (if month > 2 && leap then 1 else 0);
    if preceding > n then
      var month' := month - 1;
      var preceding' := preceding - (DaysInMonth[month'] + (if month' == 2 && leap then 1 else 0));
      (month', n - preceding' + 1)
    else
      (month, n - preceding + 1)
  }

  /** The estimate is never more than one month too large, so the day lies
      within its month. */
  lemma MonthDayValid(n: int, leap: bool)
    requires 0 <= n < 365
    ensures var md := MonthDay(n, leap);
      1 <= md.0 <= 12 && 1 <= md.1 <= DaysInMonth[md.0] + (if md.0 == 2 then 1 else 0)
  {
    var month := (n + 50) / 32;
    assert 1 <= month <= 12;
    var d := n + 50 - 32 * month;
    assert 0 <= d < 32;
    if month == 1 {
    } else if month == 2 {
    } else if month == 3 {
    } else if month == 4 {
    } else if month == 5 {
    } else if month == 6 {
    } else if month == 7 {
    } else if month == 8 {
    } else if month == 9 {
    } else if month == 10 {
    } else if month == 11 {
    } else {
    }
  }

  /** Ordinals of 2024, a leap year, up to December 30: day `n` of the year
      (from 0) is 738886 + n, which the four-, hundred- and four-hundred-year
      cycles split as below. */
  lemma In2024(ordinal: Date)
    requires 738886 <= ordinal < 738886 + 365
    ensures var md := MonthDay(ordinal - 738886, true); ToYmd(ordinal) == Ymd(2024, md.0, md.1)
  {
    var n0 := ordinal - 1;
    assert n0 / 146097 == 5 && n0 % 146097 == n0 - 730485;
    var n1 := n0 - 730485;
    assert n1 / 36524 == 0 && n1 % 36524 == n1;
    assert n1 / 1461 == 5 && n1 % 1461 == n1 - 7305;
    var n3 := n1 - 7305;
    assert n3 / 365 == 3 && n3 % 365 == n3 - 1095;
  }

  /** The last day of a month and the first of the next one, across a leap
      February: 2024-01-31, 2024-02-01, 2024-02-29 and 2024-03-01. */
  lemma MonthBoundaries()
    ensures ToYmd(738916) == Ymd(2024, 1, 31)
    ensures ToYmd(738917) == Ymd(2024, 2, 1)
    ensures ToYmd(738945) == Ymd(2024, 2, 29)
    ensures ToYmd(738946) == Ymd(2024, 3, 1)
  {
    In2024(738916);
    assert MonthDay(30, true) == (1, 31);
    In2024(738917);
    assert MonthDay(31, true) == (2, 1);
    In2024(738945);
    assert MonthDay(59, true) == (2, 29);
    In2024(738946);
    assert MonthDay(60, true) == (3, 1);
  }

  function DigitChar(d: int): char
    requires 0 <= d < 10
  {
    "0123456789"[d]
  }

  /** Decimal digits of a natural number, most significant first. */
  function Digits(n: nat): (r: string)
    ensures |r| >= 1
    decreases n
  {
    if n < 10 then [DigitChar(n)] else Digits(n / 10) + [DigitChar(n % 10)]
  }

  /** "%0wd" for a non-negative number. */
  function Pad(n: nat, width: nat): (r: string)
    ensures |r| >= width
  {
    var ds := Digits(n);
    if |ds| >= width then ds else seq(width - |ds|, _ => '0') + ds
  }

  function NatOf(i: int): nat {
    if i < 0 then 0 else i
  }

  /** str(date) of the last day of January 2024. */
  lemma LastOfJanuaryString(d: Date)
    requires d == 738916
    ensures DateString(d) == "2024-01-31"
  {
    In2024(d);
    assert MonthDay(30, true) == (1, 31);
    PaddedParts();
    ghost var parts := ["2024", "-", "01", "-", "31"];
    assert DateString(d) == parts[0] + parts[1] + parts[2] + parts[3] + parts[4];
  }

  lemma PaddedParts()
    ensures Pad(2024, 4) == "2024"
    ensures Pad(1, 2) == "01"
    ensures Pad(31, 2) == "31"
  {
    assert Digits(2024) == "2024";
    assert Digits(1) == "1";
    assert Digits(31) == "31";
  }

  /** str(date): the ISO form "YYYY-MM-DD". */
  function DateString(d: Date): string
    requires 1 <= d <= MaxOrdinal
  {
    var ymd := ToYmd(d);
    Pad(NatOf(ymd.year), 4) + "-" + Pad(NatOf(ymd.month), 2) + "-" + Pad(NatOf(ymd.day), 2)
  }
}
