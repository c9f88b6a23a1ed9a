/** bktest/export/model.py: the record handed to every exporter once per
    reported day. */
module ExportModel {
  import opened Wrappers
  import opened Calendar
  import opened Holdings

  datatype Snapshot = Snapshot(
    date: Date,
    postponned: Option<Date>,
    cash: real,
    equity: real,
    holdings: seq<Position>,
    ordered: bool,
    equityLong: real,
    nav: real,
    totalFees: real,
    successCount: int,
    failedCount: int,
    closedCount: Option<int>,
    closedTotal: Option<int>)

  /** holding_count */
  function HoldingCount(s: Snapshot): (r: nat)
    ensures r == |s.holdings|
  {
    |s.holdings|
  }

  /** real_date: the postponed order date when there is one, else the day of
      the snapshot.  No ordinal is falsy, so only None falls back. */
  function RealDate(s: Snapshot): (r: Date)
    ensures s.postponned.Some? ==> r == s.postponned.value
    ensures s.postponned.None? ==> r == s.date
  {
    if s.postponned.Some? then s.postponned.value else s.date
  }

  /** Snapshot(...) with the eight required fields: no fees, no counts, and
      no auto-close figures. */
  function NewSnapshot(date: Date, postponned: Option<Date>, cash: real, equity: real, holdings: seq<Position>,
                       ordered: bool, equityLong: real, nav: real): (r: Snapshot)
    ensures r.date == date && r.postponned == postponned && r.cash == cash && r.equity == equity
    ensures r.holdings == holdings && r.ordered == ordered && r.equityLong == equityLong && r.nav == nav
    ensures r.totalFees == 0.0 && r.successCount == 0 && r.failedCount == 0
    ensures r.closedCount.None? && r.closedTotal.None?
  {
    Snapshot(date, postponned, cash, equity, holdings, ordered, equityLong, nav, 0.0, 0, 0, None, None)
  }
}
