/**
 * The summary engine of src/s3_operations.py (`get_summary_data` and the stages it chains):
 * per SKU the quantity of the last `days` days and its daily average over a fixed 30, the current
 * stock reconciled from the initial snapshot, the delivered supplier quantity and the sales
 * since the snapshot, the days of stock left (infinite without sales), the trend and the
 * platforms, ordered by days of stock. `today` and the two inventory files are parameters.
 */
module Summary {
  import opened Wrappers
  import opened Strings
  import opened SalesData
  import SalesLedger
  import Inventory
  import Trend

  /** `get_summary_data` reads the ledger from 2024-01-01 (day 19723). */
  const SummaryStart: int := 19723

  /** `AvgDailyQuantity` divides by 30 whatever the window. */
  const AverageDivisor: real := 30.0

  const DeliveredStatus: string := "Angeliefert"
  const PlannedStatuses: set<string> := {"Bestellt", "Bestätigt"}

  // ----- calculate_summary_data -----

  /** One row of `calculate_summary_data` (the first and last dates it also carries are not
      used by any later stage). */
  datatype SalesSummary = SalesSummary(sku: string, last30: int, salesRows: nat, avgDaily: real, total: int)

  /** The `groupby('SKU')` keys: every SKU once, in increasing order. */
  function SummarySkus(rows: seq<SalesRow>): seq<string>
  {
    SortedDistinct(SalesLedger.SkusOf(rows))
  }

  /** The rows of one SKU in the window `Date >= start30`. */
  function RecentOf(rows: seq<SalesRow>, sku: string, start30: int): seq<SalesRow>
  {
    OfSku(Since(rows, start30), sku)
  }

  function SkuSummary(rows: seq<SalesRow>, sku: string, start30: int): SalesSummary
  {
    var recent := RecentOf(rows, sku, start30);
    SalesSummary(sku, TotalQuantity(recent), |recent|, TotalQuantity(recent) as real / AverageDivisor,
                 TotalQuantity(OfSku(rows, sku)))
  }

  /** `calculate_summary_data(all_data, start30)`: the outer merge of the windowed and the
      overall per-SKU aggregates, with 0 for a SKU that sold nothing in the window. */
  function CalculateSummaryData(rows: seq<SalesRow>, start30: int): (r: seq<SalesSummary>)
    ensures |r| == |SummarySkus(rows)|
  {
    var skus := SummarySkus(rows);
    seq(|skus|, i requires 0 <= i < |skus| => SkuSummary(rows, skus[i], start30))
  }

  /** The summary keys are the SKUs of the rows, each once, in increasing order. */
  lemma SummarySkusAreSkus(rows: seq<SalesRow>)
    ensures var skus := SummarySkus(rows);
      (forall i, j :: 0 <= i < j < |skus| ==> Less(skus[i], skus[j])) &&
      (forall s :: s in skus <==> exists x :: x in rows && x.sku == s)
  {
    SortedDistinctSorted(SalesLedger.SkusOf(rows));
    SortedDistinctMembers(SalesLedger.SkusOf(rows));
    SalesLedger.SkusOfMembers(rows);
  }

  /** `calculate_summary_data` has one row per summary key, in key order. */
  lemma SummaryKeys(rows: seq<SalesRow>, start30: int)
    ensures var r := CalculateSummaryData(rows, start30);
      |r| == |SummarySkus(rows)| && forall i :: 0 <= i < |r| ==> r[i].sku == SummarySkus(rows)[i]
  {
  }

  /** `Last30DaysQuantity` adds up exactly the SKU's rows dated on or after `start30` (with no
      upper bound), and `AvgDailyQuantity` is a thirtieth of it. */
  lemma SummaryWindow(rows: seq<SalesRow>, start30: int, i: nat)
    requires i < |CalculateSummaryData(rows, start30)|
    ensures var s := CalculateSummaryData(rows, start30)[i];
      var recent := RecentOf(rows, s.sku, start30);
      s.last30 == TotalQuantity(recent) &&
      (forall x :: x in recent <==> x in rows && x.sku == s.sku && x.date >= start30) &&
      s.avgDaily * 30.0 == s.last30 as real &&
      s.total == TotalQuantity(OfSku(rows, s.sku))
  {
    var s := CalculateSummaryData(rows, start30)[i];
    OfSkuMembers(Since(rows, start30), s.sku);
    SinceMembers(rows, start30);
  }

  lemma {:induction false} TotalOfNothing(rows: seq<SalesRow>)
    requires forall x :: x !in rows
    ensures TotalQuantity(rows) == 0
  {
    if |rows| > 0 {
      assert rows[0] in rows;
    }
  }

  /** A SKU without sales in the window gets 0 (`fillna(0)`). */
  lemma SummaryQuietSku(rows: seq<SalesRow>, start30: int, i: nat)
    requires i < |CalculateSummaryData(rows, start30)|
    requires forall x :: x in rows && x.sku == CalculateSummaryData(rows, start30)[i].sku ==> x.date < start30
    ensures CalculateSummaryData(rows, start30)[i].last30 == 0
    ensures CalculateSummaryData(rows, start30)[i].avgDaily == 0.0
  {
    var s := CalculateSummaryData(rows, start30)[i];
    SummaryWindow(rows, start30, i);
    TotalOfNothing(RecentOf(rows, s.sku, start30));
  }

  // ----- add_inventory_data -----

  /** The snapshot rows of one SKU, in table order. */
  function SnapshotsOf(initial: seq<Inventory.InitialRow>, sku: string): seq<Inventory.InitialRow>
  {
    if |initial| == 0 then []
    else
      var last := initial[|initial| - 1];
      SnapshotsOf(initial[..|initial| - 1], sku) + (if last.sku == sku then [last] else [])
  }

  /** `pd.merge(summary, initial, on='SKU', how='left')`: each summary row once per matching
      snapshot row, or once with no snapshot, in summary order. */
  function MergeInitial(summary: seq<SalesSummary>, initial: seq<Inventory.InitialRow>)
    : seq<(SalesSummary, Option<Inventory.InitialRow>)>
  {
    if |summary| == 0 then []
    else
      var s := summary[|summary| - 1];
      var m := SnapshotsOf(initial, s.sku);
      MergeInitial(summary[..|summary| - 1], initial) +
        (if |m| == 0 then [(s, None)] else seq(|m|, k requires 0 <= k < |m| => (s, Some(m[k]))))
  }

  /** The `SupplierDelivery` sum of one SKU over the rows whose status is one of `statuses`. */
  function DeliverySum(deliveries: seq<Inventory.DeliveryRow>, sku: string, statuses: set<string>): int
  {
    if |deliveries| == 0 then 0
    else
      var d := deliveries[|deliveries| - 1];
      DeliverySum(deliveries[..|deliveries| - 1], sku, statuses) +
        (if d.sku == sku && d.status in statuses then d.quantity else 0)
  }

  /** A summary row with its stock: the snapshot quantity and date (0 and none without one), the
      delivered and planned supplier quantities, the sales before the snapshot and the current
      stock. */
  datatype StockRow = StockRow(summary: SalesSummary, initial: int, snapshotDate: Option<int>,
                               delivered: int, planned: int, salesBefore: int, current: int)

  /** The row-wise `apply` of `add_inventory_data` on one merged row. */
  function StockOf(entry: (SalesSummary, Option<Inventory.InitialRow>), rows: seq<SalesRow>,
                   deliveries: seq<Inventory.DeliveryRow>): StockRow
  {
    var (s, snapshot) := entry;
    var initial := if snapshot.Some? then snapshot.value.quantity else 0;
    var salesBefore := if snapshot.Some? then TotalQuantity(Before(OfSku(rows, s.sku), snapshot.value.date)) else s.total;
    var delivered := DeliverySum(deliveries, s.sku, {DeliveredStatus});
    var planned := DeliverySum(deliveries, s.sku, PlannedStatuses);
    StockRow(s, initial, if snapshot.Some? then Some(snapshot.value.date) else None,
             delivered, planned, salesBefore, initial + delivered - (s.total - salesBefore))
  }

  /** `add_inventory_data` as a value: the merged rows with their stock. */
  function StockRows(summary: seq<SalesSummary>, rows: seq<SalesRow>, initial: seq<Inventory.InitialRow>,
                     deliveries: seq<Inventory.DeliveryRow>): (r: seq<StockRow>)
    ensures |r| == |MergeInitial(summary, initial)|
  {
    var merged := MergeInitial(summary, initial);
    seq(|merged|, i requires 0 <= i < |merged| => StockOf(merged[i], rows, deliveries))
  }

  /** `add_inventory_data(summary_data, all_data)`: load both inventory tables, merge the
      snapshot, and compute each row's stock. */
  method AddInventoryData(summary: seq<SalesSummary>, rows: seq<SalesRow>,
                          initialFile: Option<seq<Inventory.InitialRow>>,
                          deliveryFile: Option<seq<Inventory.DeliveryRow>>) returns (stock: seq<StockRow>)
    ensures stock == StockRows(summary, rows, Inventory.LoadInitialInventory(initialFile),
                               Inventory.LoadSupplierDeliveries(deliveryFile))
  {
    var initial := Inventory.LoadInitialInventory(initialFile);
    var deliveries := Inventory.LoadSupplierDeliveries(deliveryFile);
    stock := ApplyStock(MergeInitial(summary, initial), rows, deliveries);
  }

  /** The row-wise `apply` over the merged rows. */
  method ApplyStock(merged: seq<(SalesSummary, Option<Inventory.InitialRow>)>, rows: seq<SalesRow>,
                    deliveries: seq<Inventory.DeliveryRow>) returns (stock: seq<StockRow>)
    ensures |stock| == |merged|
    ensures forall j :: 0 <= j < |merged| ==> stock[j] == StockOf(merged[j], rows, deliveries)
  {
    stock := [];
    for i := 0 to |merged|
      invariant |stock| == i
      invariant forall j :: 0 <= j < i ==> stock[j] == StockOf(merged[j], rows, deliveries)
    {
      stock := stock + [StockOf(merged[i], rows, deliveries)];
    }
  }

  lemma {:induction false} TotalSplits(rows: seq<SalesRow>, day: int)
    ensures TotalQuantity(rows) == TotalQuantity(Before(rows, day)) + TotalQuantity(Since(rows, day))
  {
    if |rows| > 0 {
      TotalSplits(rows[..|rows| - 1], day);
      var x := rows[|rows| - 1];
      TotalAppend(Before(rows[..|rows| - 1], day), if x.date < day then [x] else []);
      TotalAppend(Since(rows[..|rows| - 1], day), if x.date >= day then [x] else []);
    }
  }

  lemma TotalAppend(a: seq<SalesRow>, b: seq<SalesRow>)
    requires |b| <= 1
    ensures TotalQuantity(a + b) == TotalQuantity(a) + TotalQuantity(b)
  {
    if |b| == 1 {
      assert (a + b)[..|a + b| - 1] == a;
      assert b[..0] == [];
    } else {
      assert a + b == a;
    }
  }

  /** With a snapshot, the current stock is the snapshot plus what was delivered minus what
      sold on or after the snapshot date. */
  lemma CurrentAfterSnapshot(entry: (SalesSummary, Option<Inventory.InitialRow>), rows: seq<SalesRow>,
                             deliveries: seq<Inventory.DeliveryRow>)
    requires entry.1.Some? && entry.0.total == TotalQuantity(OfSku(rows, entry.0.sku))
    ensures var st := StockOf(entry, rows, deliveries);
      st.current == entry.1.value.quantity + st.delivered - TotalQuantity(Since(OfSku(rows, entry.0.sku), entry.1.value.date))
  {
    TotalSplits(OfSku(rows, entry.0.sku), entry.1.value.date);
  }

  /** Without a snapshot, every sale counts as before it, so the current stock is exactly the
      delivered quantity. */
  lemma CurrentWithoutSnapshot(entry: (SalesSummary, Option<Inventory.InitialRow>), rows: seq<SalesRow>,
                               deliveries: seq<Inventory.DeliveryRow>)
    requires entry.1.None?
    ensures StockOf(entry, rows, deliveries).current == DeliverySum(deliveries, entry.0.sku, {DeliveredStatus})
    ensures StockOf(entry, rows, deliveries).salesBefore == entry.0.total
  {
  }

  /** A SKU without a supplier row in the given statuses sums to 0 (`fillna(0)` after the left
      merge). */
  lemma {:induction false} DeliverySumOfOthers(deliveries: seq<Inventory.DeliveryRow>, sku: string, statuses: set<string>)
    requires forall i :: 0 <= i < |deliveries| ==> deliveries[i].sku != sku || deliveries[i].status !in statuses
    ensures DeliverySum(deliveries, sku, statuses) == 0
  {
    if |deliveries| > 0 {
      DeliverySumOfOthers(deliveries[..|deliveries| - 1], sku, statuses);
    }
  }

  lemma {:induction false} SnapshotsOfMembers(initial: seq<Inventory.InitialRow>, sku: string)
    ensures forall x :: x in SnapshotsOf(initial, sku) <==> x in initial && x.sku == sku
  {
    if |initial| > 0 {
      SnapshotsOfMembers(initial[..|initial| - 1], sku);
      assert initial == initial[..|initial| - 1] + [initial[|initial| - 1]];
    }
  }

  /** SKUs are unique in the snapshot table. */
  predicate DistinctSnapshotSkus(initial: seq<Inventory.InitialRow>)
  {
    forall i, j :: 0 <= i < j < |initial| ==> initial[i].sku != initial[j].sku
  }

  lemma {:induction false} SnapshotsOfNone(initial: seq<Inventory.InitialRow>, sku: string)
    requires forall i :: 0 <= i < |initial| ==> initial[i].sku != sku
    ensures SnapshotsOf(initial, sku) == []
  {
    if |initial| > 0 {
      SnapshotsOfNone(initial[..|initial| - 1], sku);
    }
  }

  lemma {:induction false} SnapshotsOfUnique(initial: seq<Inventory.InitialRow>, sku: string)
    requires DistinctSnapshotSkus(initial)
    ensures |SnapshotsOf(initial, sku)| <= 1
  {
    if |initial| > 0 {
      var init := initial[..|initial| - 1];
      if initial[|initial| - 1].sku == sku {
        forall i | 0 <= i < |init| ensures init[i].sku != sku {
          assert init[i] == initial[i];
        }
        SnapshotsOfNone(init, sku);
      } else {
        SnapshotsOfUnique(init, sku);
      }
    }
  }

  /** A merged row carries summary row `s`, with a snapshot of its SKU exactly when `initial`
      has one. */
  predicate MergedRowOf(p: (SalesSummary, Option<Inventory.InitialRow>), s: SalesSummary,
                        initial: seq<Inventory.InitialRow>)
  {
    p.0 == s &&
    (p.1.Some? <==> exists x :: x in initial && x.sku == s.sku) &&
    (p.1.Some? ==> p.1.value in initial && p.1.value.sku == s.sku)
  }

  /** With unique snapshot SKUs the left merge keeps every summary row exactly once, in order,
      with its own snapshot if there is one. */
  lemma {:induction false} MergeInitialUnique(summary: seq<SalesSummary>, initial: seq<Inventory.InitialRow>)
    requires DistinctSnapshotSkus(initial)
    ensures var m := MergeInitial(summary, initial);
      |m| == |summary| && forall i :: 0 <= i < |m| ==> MergedRowOf(m[i], summary[i], initial)
  {
    if |summary| > 0 {
      var init := summary[..|summary| - 1];
      var s := summary[|summary| - 1];
      MergeInitialUnique(init, initial);
      var m := SnapshotsOf(initial, s.sku);
      var tail := if |m| == 0 then [(s, None)] else seq(|m|, k requires 0 <= k < |m| => (s, Some(m[k])));
      MergeTailRow(s, initial);
      var head := MergeInitial(init, initial);
      var whole := head + tail;
      assert whole == MergeInitial(summary, initial);
      forall i | 0 <= i < |whole| ensures MergedRowOf(whole[i], summary[i], initial) {
        if i < |head| {
          assert whole[i] == head[i] && summary[i] == init[i];
        }
      }
    }
  }

  /** With unique snapshot SKUs, the left merge gives one summary row exactly one merged row. */
  lemma MergeTailRow(s: SalesSummary, initial: seq<Inventory.InitialRow>)
    requires DistinctSnapshotSkus(initial)
    ensures var m := SnapshotsOf(initial, s.sku);
      var tail := if |m| == 0 then [(s, None)] else seq(|m|, k requires 0 <= k < |m| => (s, Some(m[k])));
      |tail| == 1 && MergedRowOf(tail[0], s, initial)
  {
    SnapshotsOfUnique(initial, s.sku);
    SnapshotsOfMembers(initial, s.sku);
    var m := SnapshotsOf(initial, s.sku);
    if |m| == 1 {
      assert m[0] in m;
    } else {
      assert forall x :: x in initial && x.sku == s.sku ==> x in m;
    }
  }

  /** Entering the initial stock of a SKU as "n.0" twice leaves two snapshot rows for "n" (see
      `Inventory.UnnormalizedEntryLoadsTwice`). The snapshot SKUs are then not distinct, and
      the left merge gives the summary row of "n" twice. */
  lemma UnnormalizedEntryDuplicatesSummaryRow(n: nat, quantity: int, date: int, s: SalesSummary)
    requires s.sku == Inventory.NatToString(n)
    ensures var sku := Inventory.NatToString(n) + ".0";
      var once := Inventory.UpsertInitial(Inventory.LoadInitialInventory(None), sku, quantity, date);
      var twice := Inventory.UpsertInitial(Inventory.LoadInitialInventory(Some(once)), sku, quantity, date);
      var loaded := Inventory.LoadInitialInventory(Some(twice));
      !DistinctSnapshotSkus(loaded) && |MergeInitial([s], loaded)| == 2
  {
    Inventory.UnnormalizedEntryLoadsTwice(n, quantity, date);
    MergeTwoSnapshots(s, Inventory.InitialRow(Inventory.NatToString(n), quantity, date));
  }

  /** Two snapshot rows of a SKU give its summary row twice. */
  lemma MergeTwoSnapshots(s: SalesSummary, row: Inventory.InitialRow)
    requires row.sku == s.sku
    ensures !DistinctSnapshotSkus([row, row]) && |MergeInitial([s], [row, row])| == 2
  {
    var loaded := [row, row];
    assert loaded[0].sku == loaded[1].sku;
    assert SnapshotsOf(loaded, s.sku) == [row, row] by {
      assert loaded[..1] == [row];
      assert [row][..0] == [];
      assert SnapshotsOf([], s.sku) == [];
      assert SnapshotsOf([row], s.sku) == [row];
    }
    var m := SnapshotsOf(loaded, s.sku);
    assert [s][..0] == [];
    assert MergeInitial([s], loaded) == MergeInitial([], loaded) + seq(|m|, k requires 0 <= k < |m| => (s, Some(m[k])));
  }

  // ----- calculate_inventory_days, add_trend_data, add_platform_data, sort_summary_data -----

  /** Days of stock: a finite value, or `np.inf`. */
  datatype Days = Finite(value: real) | Infinite

  /** `np.where(avg > 0, stock / avg, np.inf)`. */
  function Reach(stock: int, avg: real): (d: Days)
    ensures d.Finite? <==> avg > 0.0
    ensures d.Finite? ==> d.value * avg == stock as real
  {
    if avg > 0.0 then Finite(stock as real / avg) else Infinite
  }

  /** `a <= b` on days of stock, `np.inf` above every finite value. */
  predicate DaysLe(a: Days, b: Days)
  {
    match (a, b)
    case (Finite(x), Finite(y)) => x <= y
    case (_, Infinite) => true
    case (Infinite, Finite(_)) => false
  }

  /** A row of the final summary (the `SKU_Name` column is not part of this model). */
  datatype SummaryRow = SummaryRow(sku: string, last30: int, avgDaily: real, current: int, planned: int,
                                   inventoryDays: Days, adjustedDays: Days, adjustedWithDeliveries: Days,
                                   trend: real, platforms: string)

  /** The platform column of one SKU's rows. */
  function PlatformsIn(rows: seq<SalesRow>): seq<string>
  {
    seq(|rows|, i requires 0 <= i < |rows| => rows[i].platform)
  }

  /** `safe_join`: the distinct platforms of the SKU, sorted, joined by `", "`. */
  function PlatformList(rows: seq<SalesRow>, sku: string): string
  {
    Join(SortedDistinct(PlatformsIn(OfSku(rows, sku))), ", ")
  }

  /** The remaining columns of one stock row. */
  function Finish(st: StockRow, rows: seq<SalesRow>): SummaryRow
  {
    var s := st.summary;
    SummaryRow(s.sku, s.last30, s.avgDaily, st.current, st.planned,
               Reach(st.current, s.avgDaily), Reach(st.current, s.avgDaily),
               Reach(st.current + st.planned, s.avgDaily),
               Trend.CalculateTrend(OfSku(rows, s.sku)), PlatformList(rows, s.sku))
  }

  /** The two days-of-stock columns agree, and the one with deliveries adds the planned
      quantity; all are infinite exactly when the SKU sold nothing in the window. */
  lemma FinishColumns(st: StockRow, rows: seq<SalesRow>)
    ensures var r := Finish(st, rows);
      r.inventoryDays == r.adjustedDays &&
      (r.inventoryDays == Infinite <==> st.summary.avgDaily <= 0.0) &&
      (r.adjustedWithDeliveries == Infinite <==> st.summary.avgDaily <= 0.0) &&
      (r.inventoryDays.Finite? ==> r.inventoryDays.value * r.avgDaily == r.current as real) &&
      (r.adjustedWithDeliveries.Finite? ==> r.adjustedWithDeliveries.value * r.avgDaily == (r.current + r.planned) as real)
  {
  }

  /** The platforms of a SKU are listed once each, in increasing order. */
  lemma PlatformsSortedDistinct(rows: seq<SalesRow>, sku: string)
    ensures var names := SortedDistinct(PlatformsIn(OfSku(rows, sku)));
      PlatformList(rows, sku) == Join(names, ", ") &&
      (forall i, j :: 0 <= i < j < |names| ==> Less(names[i], names[j])) &&
      (forall p :: p in names <==> exists x :: x in rows && x.sku == sku && x.platform == p)
  {
    var own := OfSku(rows, sku);
    SortedDistinctSorted(PlatformsIn(own));
    SortedDistinctMembers(PlatformsIn(own));
    OfSkuMembers(rows, sku);
    forall p ensures p in PlatformsIn(own) <==> exists x :: x in rows && x.sku == sku && x.platform == p {
      if exists x :: x in rows && x.sku == sku && x.platform == p {
        var x :| x in rows && x.sku == sku && x.platform == p;
        assert x in own;
        var k :| 0 <= k < |own| && own[k] == x;
        assert PlatformsIn(own)[k] == p;
      }
    }
  }

  ghost predicate SortedByDays(r: seq<SummaryRow>)
  {
    forall i, j :: 0 <= i < j < |r| ==> DaysLe(r[i].inventoryDays, r[j].inventoryDays)
  }

  /** Inserts `x` after every row whose days of stock do not exceed its own. */
  function InsertByDays(r: seq<SummaryRow>, x: SummaryRow): seq<SummaryRow>
  {
    if |r| == 0 then [x]
    else if DaysLe(r[|r| - 1].inventoryDays, x.inventoryDays) then r + [x]
    else InsertByDays(r[..|r| - 1], x) + [r[|r| - 1]]
  }

  /** `sort_values('InventoryDays')`, as a stable sort. */
  function SortByInventoryDays(r: seq<SummaryRow>): seq<SummaryRow>
  {
    if |r| == 0 then []
    else InsertByDays(SortByInventoryDays(r[..|r| - 1]), r[|r| - 1])
  }

  lemma DaysLeTotal(a: Days, b: Days)
    ensures DaysLe(a, b) || DaysLe(b, a)
  {
  }

  lemma DaysLeTransitive(a: Days, b: Days, c: Days)
    requires DaysLe(a, b) && DaysLe(b, c)
    ensures DaysLe(a, c)
  {
  }

  lemma {:induction false} InsertByDaysMultiset(r: seq<SummaryRow>, x: SummaryRow)
    ensures multiset(InsertByDays(r, x)) == multiset(r) + multiset{x}
  {
    if |r| > 0 && !DaysLe(r[|r| - 1].inventoryDays, x.inventoryDays) {
      var init := r[..|r| - 1];
      assert r == init + [r[|r| - 1]];
      InsertByDaysMultiset(init, x);
    }
  }

  lemma SortedByDaysPrefix(r: seq<SummaryRow>)
    requires SortedByDays(r) && |r| > 0
    ensures SortedByDays(r[..|r| - 1])
  {
    var init := r[..|r| - 1];
    forall i, j | 0 <= i < j < |init| ensures DaysLe(init[i].inventoryDays, init[j].inventoryDays) {
      assert init[i] == r[i] && init[j] == r[j];
    }
  }

  lemma {:induction false} InsertByDaysSorted(r: seq<SummaryRow>, x: SummaryRow)
    requires SortedByDays(r)
    ensures SortedByDays(InsertByDays(r, x))
  {
    if |r| > 0 {
      var last := r[|r| - 1];
      if DaysLe(last.inventoryDays, x.inventoryDays) {
        var res := r + [x];
        forall i, j | 0 <= i < j < |res| ensures DaysLe(res[i].inventoryDays, res[j].inventoryDays) {
          if j == |r| && i < |r| - 1 {
            DaysLeTransitive(r[i].inventoryDays, last.inventoryDays, x.inventoryDays);
          }
        }
      } else {
        DaysLeTotal(last.inventoryDays, x.inventoryDays);
        var init := r[..|r| - 1];
        SortedByDaysPrefix(r);
        InsertByDaysSorted(init, x);
        var r' := InsertByDays(init, x);
        InsertByDaysMultiset(init, x);
        forall k | 0 <= k < |r'| ensures DaysLe(r'[k].inventoryDays, last.inventoryDays) {
          assert r'[k] in multiset(r');
          if r'[k] != x {
            assert r'[k] in multiset(init);
            var m :| 0 <= m < |init| && init[m] == r'[k];
            assert init[m] == r[m];
          }
        }
      }
    }
  }

  /** The summary comes out in ascending days of stock, infinities last. */
  lemma {:induction false} SortByInventoryDaysSorted(r: seq<SummaryRow>)
    ensures SortedByDays(SortByInventoryDays(r))
  {
    if |r| > 0 {
      SortByInventoryDaysSorted(r[..|r| - 1]);
      InsertByDaysSorted(SortByInventoryDays(r[..|r| - 1]), r[|r| - 1]);
    }
  }

  /** Sorting loses and adds no row. */
  lemma {:induction false} SortByInventoryDaysPermutes(r: seq<SummaryRow>)
    ensures multiset(SortByInventoryDays(r)) == multiset(r)
  {
    if |r| > 0 {
      var init := r[..|r| - 1];
      assert r == init + [r[|r| - 1]];
      SortByInventoryDaysPermutes(init);
      InsertByDaysMultiset(SortByInventoryDays(init), r[|r| - 1]);
    }
  }

  // ----- get_summary_data -----

  /** The start of the `days`-day window ending yesterday. */
  function SummaryWindowStart(today: int, days: int): int
  {
    (today - 1) - (days - 1)
  }

  /** The rows of the summary before the final sort. */
  function SummaryRows(all: seq<SalesRow>, today: int, days: int, initial: seq<Inventory.InitialRow>,
                       deliveries: seq<Inventory.DeliveryRow>): seq<SummaryRow>
  {
    var stock := StockRows(CalculateSummaryData(all, SummaryWindowStart(today, days)), all, initial, deliveries);
    seq(|stock|, i requires 0 <= i < |stock| => Finish(stock[i], all))
  }

  /** `get_summary_data(days)` on the ledger, with `today` the current day: the sold rows since
      2024-01-01 summarised per SKU, in ascending days of stock; an empty table without rows. */
  function GetSummaryData(ledger: SalesLedger.Ledger, today: int, days: int,
                          initialFile: Option<seq<Inventory.InitialRow>>,
                          deliveryFile: Option<seq<Inventory.DeliveryRow>>): seq<SummaryRow>
  {
    var all := SalesLedger.AllDataSince(ledger, SummaryStart);
    if |all| == 0 then []
    else SortByInventoryDays(SummaryRows(all, today, days, Inventory.LoadInitialInventory(initialFile),
                                         Inventory.LoadSupplierDeliveries(deliveryFile)))
  }

  /** No sales since 2024-01-01, or no ledger at all, gives the empty summary. */
  lemma SummaryWithoutSales(ledger: SalesLedger.Ledger, today: int, days: int,
                            initialFile: Option<seq<Inventory.InitialRow>>,
                            deliveryFile: Option<seq<Inventory.DeliveryRow>>)
    requires ledger.None? || forall x :: x in ledger.value ==> x.date < SummaryStart
    ensures GetSummaryData(ledger, today, days, initialFile, deliveryFile) == []
  {
  }

  /** The summary is the per-SKU rows, ordered by days of stock, none lost or added. */
  lemma SummaryOrdered(ledger: SalesLedger.Ledger, today: int, days: int,
                       initialFile: Option<seq<Inventory.InitialRow>>,
                       deliveryFile: Option<seq<Inventory.DeliveryRow>>)
    ensures var r := GetSummaryData(ledger, today, days, initialFile, deliveryFile);
      var all := SalesLedger.AllDataSince(ledger, SummaryStart);
      SortedByDays(r) &&
      (|all| > 0 ==> multiset(r) == multiset(SummaryRows(all, today, days, Inventory.LoadInitialInventory(initialFile),
                                                         Inventory.LoadSupplierDeliveries(deliveryFile))))
  {
    var all := SalesLedger.AllDataSince(ledger, SummaryStart);
    if |all| > 0 {
      var rows := SummaryRows(all, today, days, Inventory.LoadInitialInventory(initialFile),
                              Inventory.LoadSupplierDeliveries(deliveryFile));
      SortByInventoryDaysSorted(rows);
      SortByInventoryDaysPermutes(rows);
    }
  }

  /** The window has `days` days and ends yesterday. */
  lemma WindowEndsYesterday(today: int, days: int)
    requires days >= 1
    ensures (today - 1) - SummaryWindowStart(today, days) + 1 == days
  {
  }

  /** Every summary row is one of a SKU sold since 2024-01-01; with unique snapshot SKUs each
      such SKU has exactly one row. */
  lemma SummaryRowPerSku(all: seq<SalesRow>, today: int, days: int, initial: seq<Inventory.InitialRow>,
                         deliveries: seq<Inventory.DeliveryRow>)
    requires DistinctSnapshotSkus(initial)
    ensures var r := SummaryRows(all, today, days, initial, deliveries);
      |r| == |SummarySkus(all)| &&
      forall i :: 0 <= i < |r| ==> (r[i].sku == SummarySkus(all)[i] &&
        r[i].trend == Trend.CalculateTrend(OfSku(all, r[i].sku)))
  {
    var summary := CalculateSummaryData(all, SummaryWindowStart(today, days));
    MergeInitialUnique(summary, initial);
  }
}
