/** bktest/iterator.py: the two predicates that decide whether a day of the
    backtest is skipped, and the record they return when it is. */
module Iterators {
  import opened Wrappers
  import opened Calendar

  /** Skip(date, reason, ordered) */
  datatype Skip = Skip(date: Date, reason: string, ordered: bool)

  /** The fields DateIterator's constructor stores.  The holiday provider is
      seen only through its `is_holiday` answer. */
  datatype DateIterator = DateIterator(
    start: Date,
    end: Date,
    closable: bool,
    orderDates: seq<Date>,
    isHoliday: Date -> bool,
    allowWeekends: bool,
    allowHolidays: bool)

  /** DateIterator(start, end, closable, order_dates, provider), with both
      `allow_*` flags at their default False. */
  function NewDateIterator(start: Date, end: Date, closable: bool, orderDates: seq<Date>, isHoliday: Date -> bool): (r: DateIterator)
    ensures r.start == start && r.end == end && r.closable == closable && r.orderDates == orderDates
    ensures r.isHoliday == isHoliday && !r.allowWeekends && !r.allowHolidays
  {
    DateIterator(start, end, closable, orderDates, isHoliday, false, false)
  }

  /** should_skip_weekends: `False` (None here) when weekends are allowed or
      the day is Monday to Friday, otherwise a weekend Skip. */
  function ShouldSkipWeekends(it: DateIterator, date: Date, ordered: bool): (r: Option<Skip>)
    ensures r.None? <==> it.allowWeekends || !IsWeekend(date)
    ensures r.Some? ==> r.value == Skip(date, "weekend", ordered)
  {
    if it.allowWeekends || Weekday(date) <= 4 then None
    else Some(Skip(date, "weekend", ordered))
  }

  /** should_skip_holidays: `False` (None here) when holidays are allowed or
      the provider says the day is not a holiday, otherwise a holiday Skip. */
  function ShouldSkipHolidays(it: DateIterator, date: Date, ordered: bool): (r: Option<Skip>)
    ensures r.None? <==> it.allowHolidays || !it.isHoliday(date)
    ensures r.Some? ==> r.value == Skip(date, "holiday", ordered)
  {
    if it.allowHolidays || !it.isHoliday(date) then None
    else Some(Skip(date, "holiday", ordered))
  }

  /** 2023-12-25, 2023-12-27, 2024-01-20 and 2024-01-23 as ordinals. */
  const Christmas2023: Date := 738879
  const December27th2023: Date := 738881
  const January20th2024: Date := 738905
  const January23rd2024: Date := 738908

  /** The weekend cases of tests/test_iterator.py: a Saturday is skipped
      unless weekends are allowed, a Tuesday never is, and the ordered flag
      is carried over as given. */
  lemma WeekendExamples(isHoliday: Date -> bool, ordered: bool)
    ensures ShouldSkipWeekends(NewDateIterator(0, 0, false, [], isHoliday).(allowWeekends := true), January20th2024, ordered).None?
    ensures ShouldSkipWeekends(NewDateIterator(0, 0, false, [], isHoliday), January23rd2024, ordered).None?
    ensures ShouldSkipWeekends(NewDateIterator(0, 0, false, [], isHoliday), January20th2024, ordered)
      == Some(Skip(January20th2024, "weekend", ordered))
  {
    assert Weekday(January20th2024) == 5;
    assert Weekday(January23rd2024) == 1;
  }

  /** The holiday cases of tests/test_iterator.py, with a provider that
      knows Christmas and not the 27th. */
  lemma HolidayExamples(isHoliday: Date -> bool, ordered: bool)
    requires isHoliday(Christmas2023) && !isHoliday(December27th2023)
    ensures ShouldSkipHolidays(NewDateIterator(0, 0, false, [], isHoliday).(allowHolidays := true), Christmas2023, ordered).None?
    ensures ShouldSkipHolidays(NewDateIterator(0, 0, false, [], isHoliday), December27th2023, ordered).None?
    ensures ShouldSkipHolidays(NewDateIterator(0, 0, false, [], isHoliday), Christmas2023, ordered)
      == Some(Skip(Christmas2023, "holiday", ordered))
  {
  }
}
