/**
 * The sales ledger and its ingestion, from src/s3_operations.py: the read-modify-write upsert of
 * one day (`save_to_s3`), the date queries (`date_exists`, `get_all_data_since_date`,
 * `get_missing_dates`, `get_missing_dates_last_30_days`), the zero-filled daily pivot
 * (`process_daily_sales_data`) and the backwards import loop of `update_data`.
 * Storage is in memory: a ledger is `None` while the sales file does not exist.
 */
module SalesLedger {
  import opened Wrappers
  import opened Strings
  import opened SalesData
  import DataProcessor

  type Ledger = Option<seq<SalesRow>>

  // ----- Stamping, purging and sorting -----

  /** `new_data['Date'] = date`: every batch row is stamped with the day being saved. */
  function Stamp(batch: seq<DataProcessor.OrderRow>, date: int): (r: seq<SalesRow>)
    ensures |r| == |batch|
  {
    if |batch| == 0 then []
    else
      var last := batch[|batch| - 1];
      Stamp(batch[..|batch| - 1], date) + [SalesRow(date, last.sku, last.quantity, last.platform)]
  }

  /** Each batch row keeps its SKU, quantity and platform and gets the day. */
  lemma {:induction false} StampRows(batch: seq<DataProcessor.OrderRow>, date: int, i: nat)
    requires i < |batch|
    ensures Stamp(batch, date)[i] == SalesRow(date, batch[i].sku, batch[i].quantity, batch[i].platform)
  {
    if i < |batch| - 1 {
      StampRows(batch[..|batch| - 1], date, i);
    }
  }

  /** `existing_data[existing_data['Date'] != date]`. */
  function WithoutDate(rows: seq<SalesRow>, date: int): seq<SalesRow>
  {
    if |rows| == 0 then []
    else WithoutDate(rows[..|rows| - 1], date) + (if rows[|rows| - 1].date != date then [rows[|rows| - 1]] else [])
  }

  /** `date_exists`: some row carries the date. */
  predicate DateExists(rows: seq<SalesRow>, date: int)
  {
    exists x :: x in rows && x.date == date
  }

  /** The rows of one day, in ledger order. */
  function RowsOn(rows: seq<SalesRow>, date: int): seq<SalesRow>
  {
    Between(rows, date, date)
  }

  ghost predicate SortedByDate(rows: seq<SalesRow>)
  {
    forall i, j :: 0 <= i < j < |rows| ==> rows[i].date <= rows[j].date
  }

  /** Inserts `x` after every row whose date is not later than its own. */
  function InsertByDate(rows: seq<SalesRow>, x: SalesRow): seq<SalesRow>
  {
    if |rows| == 0 then [x]
    else if rows[|rows| - 1].date <= x.date then rows + [x]
    else InsertByDate(rows[..|rows| - 1], x) + [rows[|rows| - 1]]
  }

  /** A stable sort by date (the model's choice for `sort_values('Date')`). */
  function SortByDate(rows: seq<SalesRow>): seq<SalesRow>
  {
    if |rows| == 0 then []
    else InsertByDate(SortByDate(rows[..|rows| - 1]), rows[|rows| - 1])
  }

  lemma {:induction false} InsertByDateMultiset(rows: seq<SalesRow>, x: SalesRow)
    ensures multiset(InsertByDate(rows, x)) == multiset(rows) + multiset{x}
  {
    if |rows| > 0 && rows[|rows| - 1].date > x.date {
      var init := rows[..|rows| - 1];
      assert rows == init + [rows[|rows| - 1]];
      InsertByDateMultiset(init, x);
    }
  }

  /** Every row of the insertion is `x` or a row of the input. */
  lemma InsertByDateMembers(rows: seq<SalesRow>, x: SalesRow, y: SalesRow)
    requires y in InsertByDate(rows, x)
    ensures y == x || y in rows
  {
    InsertByDateMultiset(rows, x);
    assert y in multiset(InsertByDate(rows, x));
  }

  lemma {:induction false} InsertByDateSorted(rows: seq<SalesRow>, x: SalesRow)
    requires SortedByDate(rows)
    ensures SortedByDate(InsertByDate(rows, x))
  {
    if |rows| > 0 && rows[|rows| - 1].date > x.date {
      var init := rows[..|rows| - 1];
      var last := rows[|rows| - 1];
      SortedPrefix(rows);
      InsertByDateSorted(init, x);
      var r' := InsertByDate(init, x);
      forall k | 0 <= k < |r'| ensures r'[k].date <= last.date {
        InsertByDateMembers(init, x, r'[k]);
        if r'[k] != x {
          var m :| 0 <= m < |init| && init[m] == r'[k];
          assert init[m] == rows[m];
        }
      }
    }
  }

  lemma SortedPrefix(rows: seq<SalesRow>)
    requires SortedByDate(rows) && |rows| > 0
    ensures SortedByDate(rows[..|rows| - 1])
  {
    var init := rows[..|rows| - 1];
    forall i, j | 0 <= i < j < |init| ensures init[i].date <= init[j].date {
      assert init[i] == rows[i] && init[j] == rows[j];
    }
  }

  /** The written ledger is ordered by date. */
  lemma {:induction false} SortByDateSorted(rows: seq<SalesRow>)
    ensures SortedByDate(SortByDate(rows))
  {
    if |rows| > 0 {
      SortByDateSorted(rows[..|rows| - 1]);
      InsertByDateSorted(SortByDate(rows[..|rows| - 1]), rows[|rows| - 1]);
    }
  }

  /** Sorting loses and adds no row. */
  lemma {:induction false} SortByDatePermutes(rows: seq<SalesRow>)
    ensures multiset(SortByDate(rows)) == multiset(rows)
  {
    if |rows| > 0 {
      var init := rows[..|rows| - 1];
      assert rows == init + [rows[|rows| - 1]];
      SortByDatePermutes(init);
      InsertByDateMultiset(SortByDate(init), rows[|rows| - 1]);
    }
  }

  // ----- The upsert of one day -----

  /** What `save_to_s3` does: write a new ledger, skip a day that is already present, or fail
      on an empty batch when a ledger exists (`new_data['Date'].iloc[0]` raises, and the error
      is re-raised). */
  datatype SaveResult = Written(rows: seq<SalesRow>) | AlreadyPresent | EmptyBatch

  function Save(ledger: Ledger, batch: seq<DataProcessor.OrderRow>, date: int, overwrite: bool): SaveResult
  {
    match ledger
    case None => Written(SortByDate(Stamp(batch, date)))
    case Some(existing) =>
      if |batch| == 0 then EmptyBatch
      else if overwrite then Written(SortByDate(WithoutDate(existing, date) + Stamp(batch, date)))
      else if DateExists(existing, date) then AlreadyPresent
      else Written(SortByDate(existing + Stamp(batch, date)))
  }

  /** The ledger after a save. */
  function Applied(ledger: Ledger, r: SaveResult): Ledger
  {
    if r.Written? then Some(r.rows) else ledger
  }

  function RowsOf(ledger: Ledger): seq<SalesRow>
  {
    ledger.GetOr([])
  }

  lemma {:induction false} RowsOnInsert(rows: seq<SalesRow>, x: SalesRow, e: int)
    ensures RowsOn(InsertByDate(rows, x), e) == RowsOn(rows, e) + (if x.date == e then [x] else [])
  {
    if |rows| == 0 {
      BetweenSnoc([], x, e, e);
    } else if rows[|rows| - 1].date <= x.date {
      BetweenSnoc(rows, x, e, e);
    } else {
      var init := rows[..|rows| - 1];
      var last := rows[|rows| - 1];
      assert rows == init + [last];
      var ins := InsertByDate(init, x);
      RowsOnInsert(init, x, e);
      BetweenSnoc(ins, last, e, e);
      BetweenSnoc(init, last, e, e);
    }
  }

  /** Sorting keeps each day's rows, in their original order. */
  lemma {:induction false} RowsOnSort(rows: seq<SalesRow>, e: int)
    ensures RowsOn(SortByDate(rows), e) == RowsOn(rows, e)
  {
    if |rows| > 0 {
      var init := rows[..|rows| - 1];
      assert rows == init + [rows[|rows| - 1]];
      RowsOnSort(init, e);
      RowsOnInsert(SortByDate(init), rows[|rows| - 1], e);
      BetweenAppend(init, [rows[|rows| - 1]], e, e);
    }
  }

  lemma {:induction false} RowsOnStamp(batch: seq<DataProcessor.OrderRow>, date: int, e: int)
    ensures RowsOn(Stamp(batch, date), e) == if e == date then Stamp(batch, date) else []
  {
    if |batch| > 0 {
      var init := batch[..|batch| - 1];
      RowsOnStamp(init, date, e);
      var s := Stamp(batch, date);
      assert s[..|s| - 1] == Stamp(init, date);
    }
  }

  lemma {:induction false} RowsOnWithoutDate(rows: seq<SalesRow>, date: int, e: int)
    ensures RowsOn(WithoutDate(rows, date), e) == if e == date then [] else RowsOn(rows, e)
  {
    if |rows| > 0 {
      var init := rows[..|rows| - 1];
      RowsOnWithoutDate(init, date, e);
      var last := rows[|rows| - 1];
      BetweenAppend(WithoutDate(init, date), if last.date != date then [last] else [], e, e);
    }
  }

  lemma {:induction false} RowsOnAbsent(rows: seq<SalesRow>, date: int)
    requires !DateExists(rows, date)
    ensures RowsOn(rows, date) == []
  {
    if |rows| > 0 {
      var init := rows[..|rows| - 1];
      assert forall x :: x in init ==> x in rows;
      RowsOnAbsent(init, date);
      assert rows[|rows| - 1] in rows;
    }
  }

  /** The day-by-day effect of writing `kept` plus a stamped batch, sorted. */
  lemma CombinedPerDay(kept: seq<SalesRow>, batch: seq<DataProcessor.OrderRow>, date: int, e: int)
    ensures RowsOn(SortByDate(kept + Stamp(batch, date)), e) ==
      RowsOn(kept, e) + (if e == date then Stamp(batch, date) else [])
  {
    RowsOnSort(kept + Stamp(batch, date), e);
    BetweenAppend(kept, Stamp(batch, date), e, e);
    RowsOnStamp(batch, date, e);
  }

  /** With `overwrite`, the day afterwards holds exactly the new rows, stamped with the day,
      and every other day keeps its rows; the written ledger is ordered by date. */
  lemma SaveOverwriteReplacesDay(ledger: Ledger, batch: seq<DataProcessor.OrderRow>, date: int, e: int)
    requires ledger.None? || |batch| > 0
    ensures Save(ledger, batch, date, true).Written?
    ensures var rows := Save(ledger, batch, date, true).rows;
      SortedByDate(rows) &&
      RowsOn(rows, e) == if e == date then Stamp(batch, date) else RowsOn(RowsOf(ledger), e)
  {
    if ledger.None? {
      assert [] + Stamp(batch, date) == Stamp(batch, date);
      CombinedPerDay([], batch, date, e);
      SortByDateSorted(Stamp(batch, date));
      assert RowsOn([], e) == [];
    } else {
      CombinedPerDay(WithoutDate(ledger.value, date), batch, date, e);
      SortByDateSorted(WithoutDate(ledger.value, date) + Stamp(batch, date));
      RowsOnWithoutDate(ledger.value, date, e);
    }
  }

  /** Without `overwrite`, a day that is not yet present is added as the stamped batch and the
      other days keep their rows. */
  lemma SaveAddsAbsentDay(ledger: Ledger, batch: seq<DataProcessor.OrderRow>, date: int, e: int)
    requires ledger.None? || (|batch| > 0 && !DateExists(ledger.value, date))
    ensures Save(ledger, batch, date, false).Written?
    ensures var rows := Save(ledger, batch, date, false).rows;
      SortedByDate(rows) &&
      RowsOn(rows, e) == if e == date then Stamp(batch, date) else RowsOn(RowsOf(ledger), e)
  {
    if ledger.None? {
      assert [] + Stamp(batch, date) == Stamp(batch, date);
      CombinedPerDay([], batch, date, e);
      SortByDateSorted(Stamp(batch, date));
      assert RowsOn([], e) == [];
    } else {
      CombinedPerDay(ledger.value, batch, date, e);
      SortByDateSorted(ledger.value + Stamp(batch, date));
      RowsOnAbsent(ledger.value, date);
    }
  }

  /** Without `overwrite`, a day that is already present is skipped and the ledger is unchanged. */
  lemma SaveSkipsPresentDay(ledger: Ledger, batch: seq<DataProcessor.OrderRow>, date: int)
    requires ledger.Some? && |batch| > 0 && DateExists(ledger.value, date)
    ensures Save(ledger, batch, date, false) == AlreadyPresent
    ensures Applied(ledger, Save(ledger, batch, date, false)) == ledger
  {
  }

  /** An existing ledger and an empty batch: the save fails and nothing is written. */
  lemma SaveEmptyBatchFails(ledger: Ledger, date: int, overwrite: bool)
    requires ledger.Some?
    ensures Save(ledger, [], date, overwrite) == EmptyBatch
    ensures Applied(ledger, Save(ledger, [], date, overwrite)) == ledger
  {
  }

  /** Saving the same batch twice without `overwrite` leaves the ledger as after the first save. */
  lemma SaveIdempotent(ledger: Ledger, batch: seq<DataProcessor.OrderRow>, date: int)
    ensures var once := Applied(ledger, Save(ledger, batch, date, false));
      Applied(once, Save(once, batch, date, false)) == once
  {
    var r := Save(ledger, batch, date, false);
    if r.Written? && |batch| > 0 {
      SaveAddsAbsentDay(ledger, batch, date, date);
      DateExistsRowsOn(r.rows, date);
    }
  }

  /** Saving twice with `overwrite` gives each day the same rows as saving once. */
  lemma SaveOverwriteTwice(ledger: Ledger, batch: seq<DataProcessor.OrderRow>, date: int, e: int)
    requires |batch| > 0
    ensures var once := Applied(ledger, Save(ledger, batch, date, true));
      var twice := Applied(once, Save(once, batch, date, true));
      RowsOn(RowsOf(twice), e) == RowsOn(RowsOf(once), e)
  {
    var once := Applied(ledger, Save(ledger, batch, date, true));
    SaveOverwriteReplacesDay(ledger, batch, date, e);
    SaveOverwriteReplacesDay(once, batch, date, e);
  }

  // ----- Reads -----

  /** `get_all_data_since_date`: the rows dated on or after `start`; no file gives no rows. */
  function AllDataSince(ledger: Ledger, start: int): (r: seq<SalesRow>)
    ensures forall x :: x in r <==> ledger.Some? && x in ledger.value && x.date >= start
    ensures forall x :: multiset(r)[x] == if ledger.Some? && x.date >= start then multiset(ledger.value)[x] else 0
  {
    match ledger
    case None => []
    case Some(rows) => SinceMembers(rows, start); SinceMultiset(rows, start); Since(rows, start)
  }

  /** `pd.date_range(start, end)`: the consecutive days from `lo` to `hi`, empty if `lo > hi`. */
  function DateRange(lo: int, hi: int): (r: seq<int>)
    decreases hi - lo
    ensures |r| == if lo <= hi then hi - lo + 1 else 0
    ensures forall i :: 0 <= i < |r| ==> r[i] == lo + i
  {
    if lo > hi then [] else [lo] + DateRange(lo + 1, hi)
  }

  function DatesIn(rows: seq<SalesRow>): set<int>
  {
    set x | x in rows :: x.date
  }

  /** `sorted(all_possible_dates - present)` over `[lo, hi]`. */
  function MissingFrom(present: set<int>, lo: int, hi: int): (r: seq<int>)
    decreases hi - lo
    ensures forall i, j :: 0 <= i < j < |r| ==> r[i] < r[j]
    ensures forall d :: d in r <==> lo <= d <= hi && d !in present
  {
    if lo > hi then []
    else
      var rest := MissingFrom(present, lo + 1, hi);
      assert forall k :: 0 <= k < |rest| ==> rest[k] in rest;
      (if lo in present then [] else [lo]) + rest
  }

  /** `get_missing_dates(start, end)`: the days of `[start, end]` without any row, ascending;
      all of them when there is no sales file. */
  function MissingDates(ledger: Ledger, start: int, end: int): (r: seq<int>)
    ensures forall i, j :: 0 <= i < j < |r| ==> r[i] < r[j]
    ensures forall d :: d in r <==> start <= d <= end && (ledger.None? || !DateExists(ledger.value, d))
  {
    match ledger
    case None => MissingFrom({}, start, end)
    case Some(rows) =>
      assert forall d :: d in DatesIn(rows) <==> DateExists(rows, d) by {
        forall d ensures d in DatesIn(rows) <==> DateExists(rows, d) {
          if DateExists(rows, d) {
            var x :| x in rows && x.date == d;
          }
        }
      }
      MissingFrom(DatesIn(rows), start, end)
  }

  /** With no sales file every day of the range is missing. */
  lemma {:induction false} MissingWithoutLedger(lo: int, hi: int)
    ensures MissingFrom({}, lo, hi) == DateRange(lo, hi)
    decreases hi - lo
  {
    if lo <= hi {
      MissingWithoutLedger(lo + 1, hi);
    }
  }

  /** The least and the greatest missing day, or `None` when nothing is missing. */
  function Ends(days: seq<int>): (Option<int>, Option<int>)
  {
    if |days| == 0 then (None, None) else (Some(days[0]), Some(days[|days| - 1]))
  }

  /** `get_missing_dates_last_30_days` as evidently intended: the first and last day of the 30 days
      ending today that have no row among the rows dated on or after `today - 30`. */
  function MissingDatesLast30(ledger: Ledger, today: int): (Option<int>, Option<int>)
  {
    var existing := set x | x in AllDataSince(ledger, today - 30) :: x.date;
    Ends(MissingFrom(existing, today - 29, today))
  }

  /** The intended result agrees with `get_missing_dates` over the 30 days ending today: the bound
      `today - 30` of the read hides no day of that window. */
  lemma MissingLast30MatchesMissingDates(ledger: Ledger, today: int)
    ensures MissingDatesLast30(ledger, today) == Ends(MissingDates(ledger, today - 29, today))
  {
    var existing := set x | x in AllDataSince(ledger, today - 30) :: x.date;
    var present := if ledger.Some? then DatesIn(ledger.value) else {};
    forall d | today - 29 <= d <= today
      ensures d in existing <==> d in present
    {
      if d in existing {
        var x :| x in AllDataSince(ledger, today - 30) && x.date == d;
      }
      if d in present {
        var x :| x in ledger.value && x.date == d;
        assert x in AllDataSince(ledger, today - 30);
      }
    }
    MissingFromAgree(existing, present, today - 29, today);
  }

  /** Only the range matters to `MissingFrom`. */
  lemma {:induction false} MissingFromAgree(p: set<int>, q: set<int>, lo: int, hi: int)
    requires forall d :: lo <= d <= hi ==> (d in p <==> d in q)
    ensures MissingFrom(p, lo, hi) == MissingFrom(q, lo, hi)
    decreases hi - lo
  {
    if lo <= hi {
      MissingFromAgree(p, q, lo + 1, hi);
    }
  }

  /** The Date column as `get_all_data_since_date` leaves it: `.dt.date` turns the datetime
      column into a column of date objects (and the empty frame's column has no dates at all),
      so the column's type is no longer datetime-like. */
  datatype DateColumn = DatetimeColumn(days: seq<int>) | ObjectColumn(days: seq<int>)

  function SinceDateColumn(ledger: Ledger, start: int): DateColumn
  {
    ObjectColumn(seq(|AllDataSince(ledger, start)|, i requires 0 <= i < |AllDataSince(ledger, start)| =>
      AllDataSince(ledger, start)[i].date))
  }

  /** `.dt.date` succeeds only on a datetime-like column. */
  function DtDate(col: DateColumn): Option<seq<int>>
  {
    match col
    case DatetimeColumn(days) => Some(days)
    case ObjectColumn(_) => None
  }

  /** `get_missing_dates_last_30_days` as written: `None` stands for the exception raised by the
      `.dt` accessor at the `existing_dates` line. */
  function MissingDatesLast30AsWritten(ledger: Ledger, today: int): Option<(Option<int>, Option<int>)>
  {
    match DtDate(SinceDateColumn(ledger, today - 30))
    case None => None
    case Some(days) => Some(Ends(MissingFrom((set d | d in days), today - 29, today)))
  }

  /** As written the function raises for every ledger, the absent one included. */
  lemma MissingLast30AsWrittenAlwaysRaises(ledger: Ledger, today: int)
    ensures MissingDatesLast30AsWritten(ledger, today).None?
  {
  }

  // ----- The daily pivot -----

  /** A per-day, per-SKU quantity matrix: `cells[i][j]` is the quantity of `skus[j]` on `dates[i]`. */
  datatype Pivot = Pivot(dates: seq<int>, skus: seq<string>, cells: seq<seq<int>>)

  function SkusOf(rows: seq<SalesRow>): seq<string>
  {
    if |rows| == 0 then [] else SkusOf(rows[..|rows| - 1]) + [rows[|rows| - 1].sku]
  }

  lemma {:induction false} SkusOfMembers(rows: seq<SalesRow>)
    ensures forall s :: s in SkusOf(rows) <==> exists x :: x in rows && x.sku == s
  {
    if |rows| > 0 {
      var init := rows[..|rows| - 1];
      SkusOfMembers(init);
      assert rows == init + [rows[|rows| - 1]];
      assert forall x :: x in rows <==> x in init || x == rows[|rows| - 1];
    }
  }

  /** One day of the pivot: the day's quantity of each SKU, zero when it sold nothing. */
  function PivotRow(window: seq<SalesRow>, skus: seq<string>, day: int): (r: seq<int>)
    ensures |r| == |skus|
  {
    if |skus| == 0 then []
    else PivotRow(window, skus[..|skus| - 1], day) + [DaySum(OfSku(window, skus[|skus| - 1]), day)]
  }

  /** The days `lo`, ..., `lo + n - 1` of the pivot. */
  function PivotRows(window: seq<SalesRow>, skus: seq<string>, lo: int, n: nat): (r: seq<seq<int>>)
    ensures |r| == n && forall i :: 0 <= i < n ==> |r[i]| == |skus|
  {
    if n == 0 then [] else PivotRows(window, skus, lo, n - 1) + [PivotRow(window, skus, lo + n - 1)]
  }

  lemma {:induction false} PivotRowCells(window: seq<SalesRow>, skus: seq<string>, day: int)
    ensures forall j :: 0 <= j < |skus| ==> PivotRow(window, skus, day)[j] == DaySum(OfSku(window, skus[j]), day)
  {
    if |skus| > 0 {
      PivotRowCells(window, skus[..|skus| - 1], day);
    }
  }

  lemma {:induction false} PivotRowsCells(window: seq<SalesRow>, skus: seq<string>, lo: int, n: nat)
    ensures forall i :: 0 <= i < n ==> PivotRows(window, skus, lo, n)[i] == PivotRow(window, skus, lo + i)
  {
    if n > 0 {
      PivotRowsCells(window, skus, lo, n - 1);
    }
  }

  /** `process_daily_sales_data(all_data, days)` with `today` the current day: the rows of
      `[today - days, today]` summed per day and SKU, every day of the range present and
      zero-filled, SKU columns in increasing order. */
  function ProcessDailySalesData(rows: seq<SalesRow>, today: int, days: nat): (p: Pivot)
    ensures p.dates == DateRange(today - days, today) && |p.dates| == days + 1
    ensures |p.cells| == |p.dates| && forall i :: 0 <= i < |p.cells| ==> |p.cells[i]| == |p.skus|
  {
    var window := Between(rows, today - days, today);
    var skus := SortedDistinct(SkusOf(window));
    Pivot(DateRange(today - days, today), skus, PivotRows(window, skus, today - days, days + 1))
  }

  /** The SKU columns are in strictly increasing order, so each SKU has one column. */
  lemma PivotSkusSorted(rows: seq<SalesRow>, today: int, days: nat)
    ensures StrictlySorted(ProcessDailySalesData(rows, today, days).skus)
  {
    SortedDistinctSorted(SkusOf(Between(rows, today - days, today)));
  }

  /** The columns are exactly the SKUs sold in the window. */
  lemma PivotSkusMembers(rows: seq<SalesRow>, today: int, days: nat, s: string)
    ensures s in ProcessDailySalesData(rows, today, days).skus <==>
      exists x :: x in rows && x.sku == s && today - days <= x.date <= today
  {
    var window := Between(rows, today - days, today);
    assert ProcessDailySalesData(rows, today, days).skus == SortedDistinct(SkusOf(window));
    SortedDistinctMembers(SkusOf(window));
    WindowSkusMembers(rows, today - days, today, s);
  }

  lemma WindowSkusMembers(rows: seq<SalesRow>, lo: int, hi: int, s: string)
    ensures s in SkusOf(Between(rows, lo, hi)) <==> exists x :: x in rows && x.sku == s && lo <= x.date <= hi
  {
    var window := Between(rows, lo, hi);
    SkusOfMembers(window);
    BetweenMembers(rows, lo, hi);
    if s in SkusOf(window) {
      var x :| x in window && x.sku == s;
      assert x in rows && lo <= x.date <= hi;
    }
    if exists x :: x in rows && x.sku == s && lo <= x.date <= hi {
      var x :| x in rows && x.sku == s && lo <= x.date <= hi;
      assert x in window;
    }
  }

  /** A cell is the quantity of that SKU sold that day. */
  lemma PivotCell(rows: seq<SalesRow>, today: int, days: nat, i: nat, j: nat)
    requires i <= days
    requires j < |ProcessDailySalesData(rows, today, days).skus|
    ensures var p := ProcessDailySalesData(rows, today, days);
      p.cells[i][j] == DaySum(OfSku(rows, p.skus[j]), today - days + i)
  {
    var p := ProcessDailySalesData(rows, today, days);
    assert p.cells == PivotRows(Between(rows, today - days, today), p.skus, today - days, days + 1);
    WindowCell(p, rows, today - days, today, days + 1, i, j);
  }

  /** `fillna(0)`: a day on which the SKU sold nothing reads 0. */
  lemma PivotCellNoSale(rows: seq<SalesRow>, today: int, days: nat, i: nat, j: nat)
    requires i <= days
    requires j < |ProcessDailySalesData(rows, today, days).skus|
    requires forall x :: x in rows && x.sku == ProcessDailySalesData(rows, today, days).skus[j] ==>
      x.date != today - days + i
    ensures ProcessDailySalesData(rows, today, days).cells[i][j] == 0
  {
    var p := ProcessDailySalesData(rows, today, days);
    PivotCell(rows, today, days, i, j);
    DaySumNoSale(rows, p.skus[j], today - days + i);
  }

  lemma WindowCell(p: Pivot, rows: seq<SalesRow>, lo: int, hi: int, n: nat, i: nat, j: nat)
    requires n == hi - lo + 1 && i < n && j < |p.skus|
    requires p.cells == PivotRows(Between(rows, lo, hi), p.skus, lo, n)
    ensures p.cells[i][j] == DaySum(OfSku(rows, p.skus[j]), lo + i)
  {
    var window := Between(rows, lo, hi);
    var skus := p.skus;
    PivotRowsCells(window, skus, lo, n);
    PivotRowCells(window, skus, lo + i);
    WindowDaySum(rows, skus[j], lo, hi, lo + i);
  }

  /** A SKU with no sale on a day has a day sum of 0. */
  lemma {:induction false} DaySumNoSale(rows: seq<SalesRow>, sku: string, d: int)
    requires forall x :: x in rows && x.sku == sku ==> x.date != d
    ensures DaySum(OfSku(rows, sku), d) == 0
  {
    if |rows| > 0 {
      var init := rows[..|rows| - 1];
      var last := rows[|rows| - 1];
      assert rows == init + [last];
      assert forall x :: x in init ==> x in rows;
      DaySumNoSale(init, sku, d);
      DaySumSnocSku(init, last, sku, d);
    }
  }

  /** Restricting to a window that contains the day does not change that day's sum. */
  lemma {:induction false} WindowDaySum(rows: seq<SalesRow>, sku: string, lo: int, hi: int, d: int)
    requires lo <= d <= hi
    ensures DaySum(OfSku(Between(rows, lo, hi), sku), d) == DaySum(OfSku(rows, sku), d)
  {
    if |rows| > 0 {
      var init := rows[..|rows| - 1];
      var last := rows[|rows| - 1];
      assert rows == init + [last];
      WindowDaySum(init, sku, lo, hi, d);
      var inner := OfSku(Between(init, lo, hi), sku);
      BetweenSnoc(init, last, lo, hi);
      DaySumSnocSku(init, last, sku, d);
      if lo <= last.date <= hi {
        assert Between(rows, lo, hi) == Between(init, lo, hi) + [last];
        DaySumSnocSku(Between(init, lo, hi), last, sku, d);
      } else {
        assert Between(rows, lo, hi) == Between(init, lo, hi);
        assert last.date != d;
      }
    }
  }

  /** Adding one row to a SKU's day sum. */
  lemma DaySumSnocSku(a: seq<SalesRow>, x: SalesRow, sku: string, d: int)
    ensures DaySum(OfSku(a + [x], sku), d) ==
      DaySum(OfSku(a, sku), d) + (if x.sku == sku && x.date == d then x.quantity else 0)
  {
    assert (a + [x])[..|a + [x]| - 1] == a;
    if x.sku == sku {
      assert OfSku(a + [x], sku) == OfSku(a, sku) + [x];
      assert (OfSku(a, sku) + [x])[..|OfSku(a, sku) + [x]| - 1] == OfSku(a, sku);
    } else {
      assert OfSku(a + [x], sku) == OfSku(a, sku);
    }
  }

  function ColumnSum(cells: seq<seq<int>>, j: nat, n: nat): int
    requires n <= |cells| && forall i :: 0 <= i < |cells| ==> j < |cells[i]|
  {
    if n == 0 then 0 else ColumnSum(cells, j, n - 1) + cells[n - 1][j]
  }

  /** Summed over the whole range, a SKU's column gives that SKU's total in the window: the
      pivot neither loses nor duplicates a sale. */
  lemma PivotColumnTotal(rows: seq<SalesRow>, today: int, days: nat, j: nat)
    requires j < |ProcessDailySalesData(rows, today, days).skus|
    ensures var p := ProcessDailySalesData(rows, today, days);
      ColumnSum(p.cells, j, |p.cells|) ==
      TotalQuantity(OfSku(Between(rows, today - days, today), p.skus[j]))
  {
    var p := ProcessDailySalesData(rows, today, days);
    assert p.cells == PivotRows(Between(rows, today - days, today), p.skus, today - days, days + 1);
    WindowColumnTotal(p, rows, today - days, today, days + 1, j);
  }

  lemma WindowColumnTotal(p: Pivot, rows: seq<SalesRow>, lo: int, hi: int, n: nat, j: nat)
    requires n == hi - lo + 1 && j < |p.skus|
    requires p.cells == PivotRows(Between(rows, lo, hi), p.skus, lo, n)
    ensures ColumnSum(p.cells, j, |p.cells|) == TotalQuantity(OfSku(Between(rows, lo, hi), p.skus[j]))
  {
    var window := Between(rows, lo, hi);
    var skus := p.skus;
    PivotColumnRangeSum(window, skus, lo, n, j);
    WindowSkuDates(rows, lo, hi, skus[j]);
    RangeSumCoversTotal(OfSku(window, skus[j]), lo, n);
  }

  lemma PivotColumnRangeSum(window: seq<SalesRow>, skus: seq<string>, lo: int, n: nat, j: nat)
    requires j < |skus|
    ensures ColumnSum(PivotRows(window, skus, lo, n), j, n) == RangeSum(OfSku(window, skus[j]), lo, n)
  {
    var cells := PivotRows(window, skus, lo, n);
    var ofSku := OfSku(window, skus[j]);
    PivotRowsCells(window, skus, lo, n);
    forall i | 0 <= i < n ensures cells[i][j] == DaySum(ofSku, lo + i) {
      PivotRowCells(window, skus, lo + i);
    }
    ColumnSumIsRangeSum(cells, ofSku, lo, j, n);
  }

  lemma WindowSkuDates(rows: seq<SalesRow>, lo: int, hi: int, sku: string)
    ensures forall x :: x in OfSku(Between(rows, lo, hi), sku) ==> lo <= x.date < hi + 1
  {
    OfSkuMembers(Between(rows, lo, hi), sku);
    BetweenMembers(rows, lo, hi);
  }

  lemma {:induction false} ColumnSumIsRangeSum(cells: seq<seq<int>>, ofSku: seq<SalesRow>, lo: int, j: nat, n: nat)
    requires n <= |cells|
    requires forall i :: 0 <= i < |cells| ==> j < |cells[i]| && cells[i][j] == DaySum(ofSku, lo + i)
    ensures ColumnSum(cells, j, n) == RangeSum(ofSku, lo, n)
  {
    if n > 0 {
      ColumnSumIsRangeSum(cells, ofSku, lo, j, n - 1);
    }
  }

  // ----- The store and the import loop -----

  /** The rows one day of orders contributes: `process_orders(get_orders(day, day + 1))`. */
  function DayBatch(fetch: int -> DataProcessor.OrdersPayload, day: int): seq<DataProcessor.OrderRow>
  {
    DataProcessor.Flatten(fetch(day)).rows
  }

  /** `[start, end]` of an import: a given date imports just that day; otherwise from the stored
      watermark itself (or 30 days before yesterday without one) up to yesterday. */
  function ImportWindow(lastImport: Option<int>, date: Option<int>, today: int): (w: (int, int))
    ensures date.Some? ==> w == (date.value, date.value)
    ensures date.None? ==> w.1 == today - 1 && w.0 == lastImport.GetOr(today - 1 - 30)
  {
    match date
    case Some(d) => (d, d)
    case None => (lastImport.GetOr(today - 1 - 30), today - 1)
  }

  /** Fetches one day of orders and flattens them. */
  method FetchBatch(fetch: int -> DataProcessor.OrdersPayload, day: int) returns (batch: seq<DataProcessor.OrderRow>)
    ensures batch == DayBatch(fetch, day)
  {
    var table := DataProcessor.ProcessOrders(fetch(day));
    batch := table.rows;
  }

  datatype IngestState = Imported(ledger: Ledger) | Failed(ledger: Ledger, day: int)

  /** The ledger after saving the days `end`, `end - 1`, ..., `lo` in that order, stopping at the
      first day whose save fails. */
  function IngestDown(ledger: Ledger, fetch: int -> DataProcessor.OrdersPayload, end: int, lo: int, overwrite: bool): IngestState
    decreases end - lo
  {
    if lo > end then Imported(ledger)
    else
      match IngestDown(ledger, fetch, end, lo + 1, overwrite)
      case Failed(l, d) => Failed(l, d)
      case Imported(l) =>
        var r := Save(l, DayBatch(fetch, lo), lo, overwrite);
        if r.EmptyBatch? then Failed(l, lo) else Imported(Applied(l, r))
  }

  /** One step of the import, from the ledger the later days left behind. */
  lemma IngestStep(ledger: Ledger, fetch: int -> DataProcessor.OrdersPayload, end: int, day: int, overwrite: bool, l: Ledger)
    requires day <= end && IngestDown(ledger, fetch, end, day + 1, overwrite) == Imported(l)
    ensures var r := Save(l, DayBatch(fetch, day), day, overwrite);
      IngestDown(ledger, fetch, end, day, overwrite) == if r.EmptyBatch? then Failed(l, day) else Imported(Applied(l, r))
  {
  }

  /** A failed day ends the import: every lower start fails at the same day with the same ledger. */
  lemma {:induction false} FailurePropagates(ledger: Ledger, fetch: int -> DataProcessor.OrdersPayload, end: int, at: int, lo: int, overwrite: bool)
    requires lo <= at
    requires IngestDown(ledger, fetch, end, at, overwrite).Failed?
    ensures IngestDown(ledger, fetch, end, lo, overwrite) == IngestDown(ledger, fetch, end, at, overwrite)
    decreases at - lo
  {
    if lo < at {
      FailurePropagates(ledger, fetch, end, at, lo + 1, overwrite);
    }
  }

  /** Importing with `overwrite` when every day has orders: each day of `[lo, end]` holds exactly
      its own stamped batch and every other day keeps its rows. */
  lemma {:induction false} IngestOverwriteEachDay(ledger: Ledger, fetch: int -> DataProcessor.OrdersPayload, end: int, lo: int, e: int)
    requires forall d :: lo <= d <= end ==> |DayBatch(fetch, d)| > 0
    ensures IngestDown(ledger, fetch, end, lo, true).Imported?
    ensures RowsOn(RowsOf(IngestDown(ledger, fetch, end, lo, true).ledger), e) ==
      if lo <= e <= end then Stamp(DayBatch(fetch, e), e) else RowsOn(RowsOf(ledger), e)
    decreases end - lo
  {
    if lo <= end {
      IngestOverwriteEachDay(ledger, fetch, end, lo + 1, e);
      var l := IngestDown(ledger, fetch, end, lo + 1, true).ledger;
      SaveOverwriteReplacesDay(l, DayBatch(fetch, lo), lo, e);
    }
  }

  /** Importing without `overwrite` never touches a day that was already present. */
  lemma {:induction false} IngestKeepsPresentDay(ledger: Ledger, fetch: int -> DataProcessor.OrdersPayload, end: int, lo: int, e: int)
    requires ledger.Some? && DateExists(ledger.value, e)
    ensures var l := IngestDown(ledger, fetch, end, lo, false).ledger;
      l.Some? && DateExists(l.value, e) && RowsOn(l.value, e) == RowsOn(ledger.value, e)
    decreases end - lo
  {
    if lo <= end {
      IngestKeepsPresentDay(ledger, fetch, end, lo + 1, e);
      var st := IngestDown(ledger, fetch, end, lo + 1, false);
      if st.Imported? {
        var l := st.ledger;
        var batch := DayBatch(fetch, lo);
        var r := Save(l, batch, lo, false);
        IngestStep(ledger, fetch, end, lo, false, l);
        if r.Written? {
          assert |batch| > 0 && !DateExists(l.value, lo);
          SaveAddsAbsentDay(l, batch, lo, e);
          DateExistsRowsOn(l.value, e);
          DateExistsRowsOn(r.rows, e);
        }
      }
    }
  }

  /** A day is present exactly when it has rows. */
  lemma DateExistsRowsOn(rows: seq<SalesRow>, e: int)
    ensures DateExists(rows, e) <==> RowsOn(rows, e) != []
  {
    BetweenMembers(rows, e, e);
    if DateExists(rows, e) {
      var x :| x in rows && x.date == e;
      assert x in RowsOn(rows, e);
    }
    if RowsOn(rows, e) != [] {
      assert RowsOn(rows, e)[0] in RowsOn(rows, e);
    }
  }

  /** `update_data`'s result: nothing to import, the number of days processed, or the day whose
      save raised (the exception propagates and the watermark is not written). */
  datatype UpdateOutcome = UpToDate | Processed(days: nat) | Aborted(day: int)

  /** The ledger, the watermark and the outcome after `update_data`: an empty window changes
      nothing; otherwise the days are imported from the latest down, the watermark becomes the
      window's last day when all of them were saved, and a failed day leaves the watermark and
      the ledger as the earlier days left them. */
  function Update(ledger: Ledger, lastImport: Option<int>, date: Option<int>, overwrite: bool, today: int,
                  fetch: int -> DataProcessor.OrdersPayload): (Ledger, Option<int>, UpdateOutcome)
  {
    var (start, end) := ImportWindow(lastImport, date, today);
    if start > end then (ledger, lastImport, UpToDate)
    else
      match IngestDown(ledger, fetch, end, start, overwrite)
      case Imported(l) => (l, Some(end), Processed(end - start + 1))
      case Failed(l, d) => (l, lastImport, Aborted(d))
  }

  /** The sales file and the watermark file (`last_import_date.txt`) of the bucket. */
  class SalesStore {
    var ledger: Ledger
    var lastImport: Option<int>

    constructor (ledger0: Ledger, lastImport0: Option<int>)
      ensures ledger == ledger0 && lastImport == lastImport0
    {
      ledger := ledger0;
      lastImport := lastImport0;
    }

    /** `save_to_s3(new_data, date, overwrite)`. */
    method SaveDay(batch: seq<DataProcessor.OrderRow>, date: int, overwrite: bool) returns (r: SaveResult)
      modifies this`ledger
      ensures r == Save(old(ledger), batch, date, overwrite)
      ensures ledger == Applied(old(ledger), r)
    {
      var stamped := Stamp(batch, date);
      if ledger.Some? {
        var existing := ledger.value;
        if |batch| == 0 {
          return EmptyBatch;
        }
        if overwrite {
          existing := WithoutDate(existing, date);
        } else if DateExists(existing, date) {
          return AlreadyPresent;
        }
        var combined := SortByDate(existing + stamped);
        ledger := Some(combined);
        return Written(combined);
      }
      var combined := SortByDate(stamped);
      ledger := Some(combined);
      r := Written(combined);
    }

    /** `update_data(date, overwrite)`, with `today` the current day and `fetch(day)` the order
        API's answer for `[day, day + 1)`. */
    method UpdateData(date: Option<int>, overwrite: bool, today: int, fetch: int -> DataProcessor.OrdersPayload)
      returns (outcome: UpdateOutcome)
      modifies this
      ensures (ledger, lastImport, outcome) == Update(old(ledger), old(lastImport), date, overwrite, today, fetch)
    {
      var (start, end) := ImportWindow(lastImport, date, today);
      if start > end {
        return UpToDate;
      }
      var st := ImportDays(start, end, overwrite, fetch);
      if st.Failed? {
        return Aborted(st.day);
      }
      lastImport := Some(end);
      outcome := Processed(end - start + 1);
    }

    /** The loop of `update_data`: save the days from `end` down to `start`, stopping at the
        first save that raises. */
    method ImportDays(start: int, end: int, overwrite: bool, fetch: int -> DataProcessor.OrdersPayload)
      returns (st: IngestState)
      requires start <= end
      modifies this`ledger
      ensures st == IngestDown(old(ledger), fetch, end, start, overwrite) && ledger == st.ledger
    {
      var current := end;
      while current >= start
        invariant start - 1 <= current <= end
        invariant IngestDown(old(ledger), fetch, end, current + 1, overwrite) == Imported(ledger)
      {
        var batch := FetchBatch(fetch, current);
        ghost var before := ledger;
        var saved := SaveDay(batch, current, overwrite);
        IngestStep(old(ledger), fetch, end, current, overwrite, before);
        if saved.EmptyBatch? {
          FailurePropagates(old(ledger), fetch, end, current, start, overwrite);
          return Failed(ledger, current);
        }
        current := current - 1;
      }
      st := Imported(ledger);
    }
  }
}
