/**
 * The trend analysis of src/trend_analysis.py: the weighted long/short least-squares trend of a
 * SKU's sales, the trailing rolling mean, the daily resampling, the 60-day forecast and the
 * per-SKU analysis with its fallback. The statistics library (`seasonal_decompose`, the sample
 * standard deviation) is a parameter.
 */
module Trend {
  import opened Wrappers
  import opened SalesData
  import SalesLedger
  import opened Regression
  import Inventory

  // ----- calculate_trend -----

  /** The `Days` column: each row's date as days after `base`. */
  function DaysSince(rows: seq<SalesRow>, base: int): seq<int>
  {
    seq(|rows|, i requires 0 <= i < |rows| => rows[i].date - base)
  }

  function Quantities(rows: seq<SalesRow>): seq<int>
  {
    seq(|rows|, i requires 0 <= i < |rows| => rows[i].quantity)
  }

  /** At least two rows with different dates. */
  predicate TwoDates(rows: seq<SalesRow>)
  {
    exists x, y :: x in rows && y in rows && x.date != y.date
  }

  /** The rows of the short-term window: on or after 30 days before the latest date. */
  function RecentRows(data: seq<SalesRow>): seq<SalesRow>
    requires |data| > 0
  {
    Since(data, MaxDate(data) - 30)
  }

  /** The slope over the last 30 days, or 0 when that window has one row or one date. */
  function ShortTermSlope(data: seq<SalesRow>): real
    requires |data| > 0
  {
    var recent := RecentRows(data);
    var days := DaysSince(recent, MinDate(data));
    if |recent| > 1 && !AllEqual(days) then Slope(days, Quantities(recent)) else 0.0
  }

  /** The trend of rows already sorted by date. */
  function WeightedTrend(data: seq<SalesRow>): real
  {
    if |data| < 2 then 0.0
    else
      var days := DaysSince(data, MinDate(data));
      if AllEqual(days) then 0.0
      else 0.7 * Slope(days, Quantities(data)) + 0.3 * ShortTermSlope(data)
  }

  /** `calculate_trend`: 0 without two dates, otherwise 0.7 times the slope over all rows
      plus 0.3 times the slope over the last 30 days, the rows taken in date order. */
  function CalculateTrend(rows: seq<SalesRow>): real
  {
    WeightedTrend(SalesLedger.SortByDate(rows))
  }

  /** `!AllEqual` on the `Days` column is exactly "two different dates". */
  lemma TwoDatesDays(rows: seq<SalesRow>, base: int)
    ensures TwoDates(rows) <==> !AllEqual(DaysSince(rows, base))
  {
    var days := DaysSince(rows, base);
    if TwoDates(rows) {
      var x, y :| x in rows && y in rows && x.date != y.date;
      var i :| 0 <= i < |rows| && rows[i] == x;
      var j :| 0 <= j < |rows| && rows[j] == y;
      assert days[i] != days[0] || days[j] != days[0];
    }
    if !AllEqual(days) {
      var i :| 0 <= i < |days| && days[i] != days[0];
      assert rows[i].date != rows[0].date;
      assert rows[i] in rows && rows[0] in rows;
    }
  }

  lemma TwoDatesOfSameMembers(a: seq<SalesRow>, b: seq<SalesRow>)
    requires forall x :: x in a <==> x in b
    ensures TwoDates(a) <==> TwoDates(b)
  {
  }

  lemma SameMembersOfPermutation(a: seq<SalesRow>, b: seq<SalesRow>)
    requires multiset(a) == multiset(b)
    ensures forall x :: x in a <==> x in b
  {
    forall x ensures x in a <==> x in b {
      assert x in a <==> x in multiset(a);
      assert x in b <==> x in multiset(b);
    }
  }

  lemma TwoDatesOfPermutation(a: seq<SalesRow>, b: seq<SalesRow>)
    requires multiset(a) == multiset(b)
    ensures TwoDates(a) <==> TwoDates(b)
  {
    SameMembersOfPermutation(a, b);
    TwoDatesOfSameMembers(a, b);
  }

  lemma SortKeeps(rows: seq<SalesRow>)
    ensures multiset(SalesLedger.SortByDate(rows)) == multiset(rows)
    ensures |SalesLedger.SortByDate(rows)| == |rows|
    ensures forall x :: x in SalesLedger.SortByDate(rows) <==> x in rows
  {
    var data := SalesLedger.SortByDate(rows);
    SalesLedger.SortByDatePermutes(rows);
    assert |multiset(data)| == |multiset(rows)|;
    forall x ensures x in data <==> x in rows {
      assert x in data <==> x in multiset(data);
      assert x in rows <==> x in multiset(rows);
    }
  }

  /** Without two different dates (fewer than two rows, or a single date) the trend is 0. */
  lemma TrendNeedsTwoDates(rows: seq<SalesRow>)
    requires !TwoDates(rows)
    ensures CalculateTrend(rows) == 0.0
  {
    var data := SalesLedger.SortByDate(rows);
    SortKeeps(rows);
    TwoDatesOfPermutation(data, rows);
    if |data| >= 2 {
      TwoDatesDays(data, MinDate(data));
    }
  }

  /** `Days` is never negative and is 0 on the earliest row. */
  lemma DaysStartAtZero(rows: seq<SalesRow>)
    requires |rows| > 0
    ensures forall i :: 0 <= i < |rows| ==> DaysSince(rows, MinDate(rows))[i] >= 0
    ensures exists i :: 0 <= i < |rows| && DaysSince(rows, MinDate(rows))[i] == 0
  {
    var m := MinDate(rows);
    forall i | 0 <= i < |rows| ensures DaysSince(rows, m)[i] >= 0 {
      assert rows[i] in rows;
    }
    var x :| x in rows && x.date == m;
    var i :| 0 <= i < |rows| && rows[i] == x;
    assert DaysSince(rows, m)[i] == 0;
  }

  /** Quantities on the line `a + b * date` are on the line `a + b * base + b * Days`. */
  lemma DaysOnLine(rows: seq<SalesRow>, base: int, a: int, b: int)
    requires forall x :: x in rows ==> x.quantity == a + b * x.date
    ensures OnLine(DaysSince(rows, base), Quantities(rows), a + b * base, b)
  {
    forall i | 0 <= i < |rows| ensures Quantities(rows)[i] == (a + b * base) + b * DaysSince(rows, base)[i] {
      assert rows[i] in rows;
      var d := rows[i].date;
      assert b * d == b * base + b * (d - base);
    }
  }

  /** On a line, the short-term slope is the line's slope when the window holds two dates. */
  lemma ShortSlopeOfLine(data: seq<SalesRow>, a: int, b: int)
    requires |data| > 0 && forall x :: x in data ==> x.quantity == a + b * x.date
    ensures ShortTermSlope(data) == if TwoDates(RecentRows(data)) then b as real else 0.0
  {
    var base := MinDate(data);
    var recent := RecentRows(data);
    SinceMembers(data, MaxDate(data) - 30);
    TwoDatesDays(recent, base);
    if TwoDates(recent) {
      DaysOnLine(recent, base, a, b);
      SlopeOfLine(DaysSince(recent, base), Quantities(recent), a + b * base, b);
    }
  }

  lemma WeightedTrendOfLine(data: seq<SalesRow>, a: int, b: int)
    requires TwoDates(data) && forall x :: x in data ==> x.quantity == a + b * x.date
    ensures |data| > 0
    ensures WeightedTrend(data) == 0.7 * (b as real) + 0.3 * (if TwoDates(RecentRows(data)) then b as real else 0.0)
  {
    var base := MinDate(data);
    TwoDatesDays(data, base);
    DaysOnLine(data, base, a, b);
    SlopeOfLine(DaysSince(data, base), Quantities(data), a + b * base, b);
    ShortSlopeOfLine(data, a, b);
  }

  /** The short-term window of the sorted rows holds two dates exactly when that of the
      unsorted rows does. */
  lemma RecentOfPermutation(rows: seq<SalesRow>, data: seq<SalesRow>)
    requires |rows| > 0 && multiset(rows) == multiset(data)
    ensures |data| > 0
    ensures TwoDates(RecentRows(data)) <==> TwoDates(RecentRows(rows))
  {
    ExtremesOfPermutation(rows, data);
    var cut := MaxDate(rows) - 30;
    SameMembersOfPermutation(rows, data);
    SinceOfSameMembers(rows, data, cut);
    TwoDatesOfSameMembers(RecentRows(rows), RecentRows(data));
  }

  lemma SinceOfSameMembers(a: seq<SalesRow>, b: seq<SalesRow>, cut: int)
    requires forall x :: x in a <==> x in b
    ensures forall x :: x in Since(a, cut) <==> x in Since(b, cut)
  {
    SinceMembers(a, cut);
    SinceMembers(b, cut);
  }

  /** Sales that grow by exactly `b` per day have trend `b` when the last 30 days hold two
      dates, and `0.7 * b` when they do not (the short-term slope is then 0). */
  lemma TrendOfLinear(rows: seq<SalesRow>, a: int, b: int)
    requires forall x :: x in rows ==> x.quantity == a + b * x.date
    requires TwoDates(rows)
    ensures |rows| > 0
    ensures CalculateTrend(rows) ==
      0.7 * (b as real) + 0.3 * (if TwoDates(RecentRows(rows)) then b as real else 0.0)
  {
    var data := SalesLedger.SortByDate(rows);
    SortKeeps(rows);
    TwoDatesOfPermutation(data, rows);
    WeightedTrendOfLine(data, a, b);
    RecentOfPermutation(rows, data);
  }

  /** Sales that do not change over time have no trend. */
  lemma TrendOfConstant(rows: seq<SalesRow>, c: int)
    requires forall x :: x in rows ==> x.quantity == c
    ensures CalculateTrend(rows) == 0.0
  {
    if TwoDates(rows) {
      TrendOfLinear(rows, c, 0);
    } else {
      TrendNeedsTwoDates(rows);
    }
  }

  // ----- smooth_data and the rolling trend -----

  /** The first index of the trailing window of width `w` that ends at `i`. */
  function WindowStart(i: nat, w: nat): nat
  {
    if i + 1 >= w then i + 1 - w else 0
  }

  function MeanOf(s: seq<int>): real
    requires |s| > 0
  {
    (Sum(s, |s|) as real) / (|s| as real)
  }

  /** `rolling(window=w, min_periods=1).mean()`: each value is the mean of the last `w`
      quantities up to and including its own, or of all of them near the start. */
  function RollingMean(qs: seq<int>, w: nat): (r: seq<real>)
    requires w >= 1
    ensures |r| == |qs|
  {
    seq(|qs|, i requires 0 <= i < |qs| => MeanOf(qs[WindowStart(i, w)..i + 1]))
  }

  lemma {:induction false} SumBounds(s: seq<int>, k: nat, lo: int, hi: int)
    requires k <= |s| && forall j :: 0 <= j < k ==> lo <= s[j] <= hi
    ensures k * lo <= Sum(s, k) <= k * hi
  {
    if k > 0 {
      SumBounds(s, k - 1, lo, hi);
    }
  }

  lemma NegativeTimesPositive(x: real, y: real)
    requires x < 0.0 && y > 0.0
    ensures x * y < 0.0
  {
  }

  /** A total of `k` values within `[lo, hi]` has its mean within `[lo, hi]`. */
  lemma MeanBetween(total: int, k: int, lo: int, hi: int)
    requires k > 0 && k * lo <= total <= k * hi
    ensures lo as real <= (total as real) / (k as real) <= hi as real
  {
    var m := (total as real) / (k as real);
    var kr := k as real;
    assert m * kr == total as real;
    assert (m - lo as real) * kr == total as real - (k * lo) as real;
    assert (hi as real - m) * kr == (k * hi) as real - total as real;
    if m < lo as real {
      NegativeTimesPositive(m - lo as real, kr);
    }
    if m > hi as real {
      NegativeTimesPositive(hi as real - m, kr);
    }
  }

  /** Every rolling mean lies between the smallest and the largest quantity. */
  lemma RollingMeanBounds(qs: seq<int>, w: nat, lo: int, hi: int)
    requires w >= 1 && forall j :: 0 <= j < |qs| ==> lo <= qs[j] <= hi
    ensures forall i :: 0 <= i < |qs| ==> lo as real <= RollingMean(qs, w)[i] <= hi as real
  {
    forall i | 0 <= i < |qs| ensures lo as real <= RollingMean(qs, w)[i] <= hi as real {
      var win := qs[WindowStart(i, w)..i + 1];
      forall j | 0 <= j < |win| ensures lo <= win[j] <= hi {
        assert win[j] == qs[WindowStart(i, w) + j];
      }
      SumBounds(win, |win|, lo, hi);
      MeanBetween(Sum(win, |win|), |win|, lo, hi);
    }
  }

  /** A constant series is its own rolling mean. */
  lemma RollingMeanConstant(qs: seq<int>, w: nat, c: int)
    requires w >= 1 && forall j :: 0 <= j < |qs| ==> qs[j] == c
    ensures forall i :: 0 <= i < |qs| ==> RollingMean(qs, w)[i] == c as real
  {
    RollingMeanBounds(qs, w, c, c);
  }

  /** The first rolling mean is the first quantity (`min_periods=1`). */
  lemma RollingMeanFirst(qs: seq<int>, w: nat)
    requires w >= 1 && |qs| > 0
    ensures RollingMean(qs, w)[0] == qs[0] as real
  {
    var win := qs[0..1];
    assert Sum(win, 1) == qs[0];
  }

  /** A window of one is the series itself. */
  lemma RollingMeanOfWidthOne(qs: seq<int>)
    ensures forall i :: 0 <= i < |qs| ==> RollingMean(qs, 1)[i] == qs[i] as real
  {
    forall i | 0 <= i < |qs| ensures RollingMean(qs, 1)[i] == qs[i] as real {
      var win := qs[i..i + 1];
      assert Sum(win, 1) == qs[i];
    }
  }

  /** The window holds `min(w, i + 1)` quantities: all of them until `w` are available. */
  lemma RollingWindowWidth(i: nat, w: nat)
    requires w >= 1
    ensures i + 1 - WindowStart(i, w) == if i + 1 >= w then w else i + 1
  {
  }

  // ----- resample('D').sum() -----

  /** The quantity sold on each of the `n` days from `lo`, zero on days without a sale. */
  function DailyQuantities(rows: seq<SalesRow>, lo: int, n: nat): (q: seq<int>)
    ensures |q| == n
  {
    seq(n, i requires 0 <= i < n => DaySum(rows, lo + i))
  }

  lemma {:induction false} DailySumIsRangeSum(rows: seq<SalesRow>, lo: int, n: nat, k: nat)
    requires k <= n
    ensures Sum(DailyQuantities(rows, lo, n), k) == RangeSum(rows, lo, k)
  {
    if k > 0 {
      DailySumIsRangeSum(rows, lo, n, k - 1);
    }
  }

  /** Resampling over a range that covers every row loses and duplicates no quantity. */
  lemma DailyQuantitiesTotal(rows: seq<SalesRow>, lo: int, n: nat)
    requires forall x :: x in rows ==> lo <= x.date < lo + n
    ensures Sum(DailyQuantities(rows, lo, n), n) == TotalQuantity(rows)
  {
    DailySumIsRangeSum(rows, lo, n, n);
    RangeSumCoversTotal(rows, lo, n);
  }

  /** A day without a sale resamples to 0. */
  lemma DailyQuantitiesGap(rows: seq<SalesRow>, lo: int, n: nat, i: nat)
    requires i < n && forall x :: x in rows ==> x.date != lo + i
    ensures DailyQuantities(rows, lo, n)[i] == 0
  {
    DaySumAbsent(rows, lo + i);
  }

  /** The resampled frame as rows, one per day; the other columns do not enter the trend. */
  function DailyFrame(lo: int, q: seq<int>): seq<SalesRow>
  {
    seq(|q|, i requires 0 <= i < |q| => SalesRow(lo + i, "", q[i], ""))
  }

  // ----- calculate_seasonality and create_forecast -----

  /** What `seasonal_decompose(..., model='additive', period=7)` returns. */
  datatype Decomposition = Decomposition(seasonal: seq<real>, trend: seq<real>)

  /** The library calls the model does not reimplement: the decomposition and the sample
      standard deviation of the quantities. */
  datatype Library = Library(
    decompose: seq<int> -> Decomposition,
    std: seq<int> -> real)

  /** `seasonal_decompose` returns a seasonal and a trend series as long as its input. */
  ghost predicate ValidLibrary(lib: Library)
  {
    forall q :: |lib.decompose(q).seasonal| == |q| && |lib.decompose(q).trend| == |q|
  }

  /** `dayofweek` of a day number: Monday is 0, and day 0 (1970-01-01) was a Thursday. */
  function Weekday(d: int): int
  {
    (d + 3) % 7
  }

  const ForecastDays: nat := 60
  const DecompositionMinimum: nat := 14

  /** `calculate_seasonality` of a daily series: the seasonal component, or seven zeros when the
      series is shorter than two weeks. */
  function Seasonality(q: seq<int>, lib: Library): seq<real>
  {
    if |q| >= DecompositionMinimum then lib.decompose(q).seasonal else [0.0, 0.0, 0.0, 0.0, 0.0, 0.0, 0.0]
  }

  datatype ForecastRow = ForecastRow(date: int, trend: real, seasonality: real, forecast: real,
                                     lowerCI: real, upperCI: real)

  /** The weekday of the `k`-th forecast day after `last`. */
  function ForecastWeekday(last: int, k: int): int
  {
    Weekday(last + 1 + k)
  }

  /** `seasonality.iloc[d.dayofweek]` succeeds on every forecast day. */
  predicate CoversForecast(last: int, seas: seq<real>)
  {
    forall k :: 0 <= k < ForecastDays ==> ForecastWeekday(last, k) < |seas|
  }

  /** The 60 forecast rows after `last`: row `k` is day `k + 1` after it, `k + 1` steps of the
      trend plus the seasonal value at position `dayofweek` (`iloc`), with a band of two
      standard deviations. */
  function ForecastPath(last: int, trend: real, seas: seq<real>, sd: real): seq<ForecastRow>
    requires CoversForecast(last, seas)
  {
    seq(ForecastDays, k requires 0 <= k < ForecastDays =>
      var t := (k + 1) as real * trend;
      var s := seas[ForecastWeekday(last, k)];
      ForecastRow(last + 1 + k, t, s, t + s, t + s - 2.0 * sd, t + s + 2.0 * sd))
  }

  /** Sixty consecutive days starting the day after `last`, the trend growing by one step per
      day, and the band symmetric around the forecast. */
  lemma ForecastPathShape(last: int, trend: real, seas: seq<real>, sd: real)
    requires CoversForecast(last, seas)
    ensures var f := ForecastPath(last, trend, seas, sd);
      |f| == ForecastDays &&
      (forall k :: 0 <= k < |f| ==> f[k].date == last + 1 + k) &&
      (forall k :: 0 <= k < |f| ==> f[k].trend == (k + 1) as real * trend) &&
      (forall k :: 0 <= k < |f| ==> f[k].seasonality == seas[Weekday(f[k].date)]) &&
      (forall k :: 0 <= k < |f| ==> f[k].forecast == f[k].trend + f[k].seasonality) &&
      (forall k :: 0 <= k < |f| ==> f[k].upperCI - f[k].forecast == f[k].forecast - f[k].lowerCI == 2.0 * sd)
  {
  }

  /** `create_forecast` of the daily series starting at `lo`; `None` where it raises: no last
      date, or a weekday beyond the seasonal series. */
  function CreateForecast(lo: int, q: seq<int>, lib: Library): Option<seq<ForecastRow>>
  {
    var last := lo + |q| - 1;
    var seas := Seasonality(q, lib);
    if |q| > 0 && CoversForecast(last, seas) then
      Some(ForecastPath(last, CalculateTrend(DailyFrame(lo, q)), seas, lib.std(q)))
    else
      None
  }

  /** The day `k` days into a run whose first weekday is `Weekday(start)`. */
  lemma WeekdayAhead(start: int, w: int) returns (k: nat)
    requires 0 <= w < 7
    ensures k < 7 && Weekday(start + k) == w
  {
    var r := Weekday(start);
    var q := (start + 3) / 7;
    assert start + 3 == 7 * q + r;
    if w >= r {
      k := w - r;
      assert start + k + 3 == 7 * q + w;
    } else {
      k := w - r + 7;
      assert start + k + 3 == 7 * (q + 1) + w;
    }
  }

  /** The forecast exists exactly when there is data and the seasonal series covers a week;
      with the decomposition's own lengths that is exactly when there is data. */
  lemma ForecastDefinedIff(lo: int, q: seq<int>, lib: Library)
    ensures CreateForecast(lo, q, lib).Some? <==> |q| > 0 && |Seasonality(q, lib)| >= 7
    ensures ValidLibrary(lib) ==> (CreateForecast(lo, q, lib).Some? <==> |q| > 0)
  {
    var last := lo + |q| - 1;
    var seas := Seasonality(q, lib);
    if ValidLibrary(lib) && |q| >= DecompositionMinimum {
      assert |lib.decompose(q).seasonal| == |q|;
    }
    if |q| > 0 && |seas| < 7 {
      var k := WeekdayAhead(last + 1, |seas|);
      assert ForecastWeekday(last, k) >= |seas|;
    }
    if |seas| >= 7 {
      forall k | 0 <= k < ForecastDays ensures ForecastWeekday(last, k) < |seas| {
      }
    }
  }

  /** A forecast that exists is the path from the series' last day, with the series' own
      trend, its seasonality and two standard deviations of its quantities. */
  lemma ForecastIsPath(lo: int, q: seq<int>, lib: Library)
    requires CreateForecast(lo, q, lib).Some?
    ensures |q| > 0 && CoversForecast(lo + |q| - 1, Seasonality(q, lib))
    ensures CreateForecast(lo, q, lib).value ==
      ForecastPath(lo + |q| - 1, CalculateTrend(DailyFrame(lo, q)), Seasonality(q, lib), lib.std(q))
  {
  }

  /** Sixty rows, one per day from `first` on; row `k` holds `k + 1` steps of `trend` plus the
      seasonal value at the position of its weekday, and a band of `2 * sd` on either side. */
  predicate Shaped(f: seq<ForecastRow>, first: int, trend: real, seas: seq<real>, sd: real)
  {
    |f| == ForecastDays &&
    (forall k :: 0 <= k < |f| ==> f[k].date == first + k) &&
    (forall k :: 0 <= k < |f| ==> f[k].trend == (k + 1) as real * trend) &&
    (forall k :: 0 <= k < |f| ==> Weekday(f[k].date) < |seas| && f[k].seasonality == seas[Weekday(f[k].date)]) &&
    (forall k :: 0 <= k < |f| ==> f[k].forecast == f[k].trend + f[k].seasonality) &&
    (forall k :: 0 <= k < |f| ==> f[k].upperCI - f[k].forecast == f[k].forecast - f[k].lowerCI == 2.0 * sd)
  }

  /** A forecast that exists starts the day after the series' last day and is shaped by the
      series' own trend, its seasonality and the standard deviation of its quantities. */
  lemma ForecastShape(lo: int, q: seq<int>, lib: Library)
    requires CreateForecast(lo, q, lib).Some?
    ensures Shaped(CreateForecast(lo, q, lib).value, lo + |q|, CalculateTrend(DailyFrame(lo, q)),
                   Seasonality(q, lib), lib.std(q))
  {
    ForecastIsPath(lo, q, lib);
    PathShapeMoved(lo, |q|, CalculateTrend(DailyFrame(lo, q)), Seasonality(q, lib), lib.std(q),
                   CreateForecast(lo, q, lib).value);
  }

  /** `ForecastPathShape` with the last day written as `lo + n - 1`. */
  lemma PathShapeMoved(lo: int, n: int, trend: real, seas: seq<real>, sd: real, f: seq<ForecastRow>)
    requires CoversForecast(lo + n - 1, seas) && f == ForecastPath(lo + n - 1, trend, seas, sd)
    ensures Shaped(f, lo + n, trend, seas, sd)
  {
    ForecastPathShape(lo + n - 1, trend, seas, sd);
  }

  /** The seasonal value repeats every seven days. */
  lemma ForecastWeekly(lo: int, q: seq<int>, lib: Library, k: nat)
    requires CreateForecast(lo, q, lib).Some? && k + 7 < ForecastDays
    ensures CreateForecast(lo, q, lib).value[k + 7].seasonality == CreateForecast(lo, q, lib).value[k].seasonality
  {
    var last := lo + |q| - 1;
    ForecastIsPath(lo, q, lib);
    assert ForecastWeekday(last, k + 7) == ForecastWeekday(last, k);
  }

  /** Under two weeks of data the seasonal part is 0, so the forecast is the trend alone. */
  lemma ShortSeriesForecast(lo: int, q: seq<int>, lib: Library)
    requires 0 < |q| < DecompositionMinimum
    ensures CreateForecast(lo, q, lib).Some?
    ensures var f := CreateForecast(lo, q, lib).value;
      forall k :: 0 <= k < |f| ==> f[k].seasonality == 0.0 && f[k].forecast == f[k].trend
  {
    ForecastDefinedIff(lo, q, lib);
    ForecastIsPath(lo, q, lib);
    ForecastPathShape(lo + |q| - 1, CalculateTrend(DailyFrame(lo, q)), Seasonality(q, lib), lib.std(q));
  }

  // ----- analyze_sku and analyze_all_skus -----

  datatype SmoothRow = SmoothRow(date: int, quantity: int, smooth: real)

  const SmoothingWindow: nat := 14

  /** `smooth_data` of the daily series: the rows with their 14-day trailing mean. */
  function SmoothData(lo: int, q: seq<int>): (r: seq<SmoothRow>)
    ensures |r| == |q|
  {
    var m := RollingMean(q, SmoothingWindow);
    seq(|q|, i requires 0 <= i < |q| => SmoothRow(lo + i, q[i], m[i]))
  }

  /** Smoothing keeps every day and quantity, and starts at the first quantity. */
  lemma SmoothKeepsRows(lo: int, q: seq<int>)
    ensures forall i :: 0 <= i < |q| ==> SmoothData(lo, q)[i].date == lo + i && SmoothData(lo, q)[i].quantity == q[i]
    ensures |q| > 0 ==> SmoothData(lo, q)[0].smooth == q[0] as real
  {
    if |q| > 0 {
      RollingMeanFirst(q, SmoothingWindow);
    }
  }

  datatype Analysis = Analysis(seasonality: seq<real>, trend: seq<real>, overallTrend: real,
                               smoothed: seq<SmoothRow>, forecast: seq<ForecastRow>)

  /** What `analyze_sku` returns after an exception. */
  const Fallback := Analysis([], [], 0.0, [], [])

  function Zeros(n: nat): (z: seq<real>)
    ensures |z| == n && forall i :: 0 <= i < n ==> z[i] == 0.0
  {
    seq(n, i requires 0 <= i < n => 0.0)
  }

  /** The analysis of a daily series of `n` days from `lo`: the decomposition (zeros and a
      rolling mean of up to 7 days under two weeks), the trend, the smoothed series and the
      forecast; the fallback when a step raises: an empty series (a rolling window of 0) or a forecast
      whose `iloc` fails. */
  function AnalyzeSeries(lo: int, q: seq<int>, lib: Library): Analysis
  {
    var n := |q|;
    if n == 0 then Fallback
    else
      var seasonality := if n >= DecompositionMinimum then lib.decompose(q).seasonal else Zeros(n);
      var trend := if n >= DecompositionMinimum then lib.decompose(q).trend
                   else RollingMean(q, if n < 7 then n else 7);
      match CreateForecast(lo, q, lib)
      case None => Fallback
      case Some(f) => Analysis(seasonality, trend, CalculateTrend(DailyFrame(lo, q)), SmoothData(lo, q), f)
  }

  /** The number of days from the first to the last sale. */
  function SpanDays(rows: seq<SalesRow>): (n: nat)
    requires |rows| > 0
    ensures n >= 1
  {
    MaxDate(rows) - MinDate(rows) + 1
  }

  // ----- the float64 cast of the resampled frame -----

  /** The cleaned `SKU` cell: the text before the first `-`. */
  function SkuPrefix(sku: string): (p: string)
    ensures p <= sku && '-' !in p
  {
    sku[..Inventory.IndexOf(sku, '-')]
  }

  /** The `Platform` cell of day `d` after `resample('D').sum()`: the platforms of that day's
      rows joined in frame order, as the sum of a text column joins them. */
  function PlatformText(rows: seq<SalesRow>, d: int): string
  {
    if |rows| == 0 then ""
    else
      var last := rows[|rows| - 1];
      PlatformText(rows[..|rows| - 1], d) + (if last.date == d then last.platform else "")
  }

  /** The `SKU` cell of day `d`: the cleaned SKUs of that day's rows joined in frame order. */
  function SkuText(rows: seq<SalesRow>, d: int): string
  {
    if |rows| == 0 then ""
    else
      var last := rows[|rows| - 1];
      SkuText(rows[..|rows| - 1], d) + (if last.date == d then SkuPrefix(last.sku) else "")
  }

  /** `astype('float64')` of the resampled frame succeeds: on every day with a sale the joined
      SKU text and the joined platform text are decimal literals (a day without a sale sums
      to 0, which casts). */
  predicate ResampleCasts(rows: seq<SalesRow>)
  {
    forall x :: x in rows ==>
      Inventory.TruncatedValue(SkuText(rows, x.date)).Some? &&
      Inventory.TruncatedValue(PlatformText(rows, x.date)).Some?
  }

  /** Every character of a day's platform is in that day's joined platform text. */
  lemma {:induction false} PlatformTextHolds(rows: seq<SalesRow>, x: SalesRow, c: char)
    requires x in rows && c in x.platform
    ensures c in PlatformText(rows, x.date)
  {
    var init := rows[..|rows| - 1];
    var last := rows[|rows| - 1];
    var head := PlatformText(init, x.date);
    var tail := if last.date == x.date then last.platform else "";
    assert PlatformText(rows, x.date) == head + tail;
    if x == last {
      var i :| 0 <= i < |x.platform| && x.platform[i] == c;
      assert (head + tail)[|head| + i] == c;
    } else {
      assert rows == init + [last];
      assert x in init;
      PlatformTextHolds(init, x, c);
      var i :| 0 <= i < |head| && head[i] == c;
      assert (head + tail)[i] == c;
    }
  }

  /** `analyze_sku` as written: the analysis of the SKU's sales resampled to one value per
      day, every column cast to float64; the fallback when a step raises: no rows (a rolling
      window of 0), a frame that does not cast, or a forecast whose `iloc` fails. */
  function AnalyzeSkuAsWritten(rows: seq<SalesRow>, lib: Library): Analysis
  {
    if |rows| == 0 || !ResampleCasts(rows) then Fallback
    else AnalyzeSeries(MinDate(rows), DailyQuantities(rows, MinDate(rows), SpanDays(rows)), lib)
  }

  /** A platform name with a letter in it (a shop name, or `Unknown`) makes the cast of the
      resampled frame raise, so the SKU's analysis is the fallback. */
  lemma TextPlatformFallsBack(rows: seq<SalesRow>, lib: Library, x: SalesRow, c: char)
    requires x in rows && c in x.platform && !Inventory.NumeralChar(c)
    ensures AnalyzeSkuAsWritten(rows, lib) == Fallback
  {
    var t := PlatformText(rows, x.date);
    PlatformTextHolds(rows, x, c);
    if Inventory.TruncatedValue(t).Some? {
      Inventory.TruncatedValueAlphabet(t);
      assert false;
    }
  }

  /** A single sale on the default platform `Unknown` already gives the fallback. */
  lemma UnknownPlatformFallsBack(lib: Library)
    ensures AnalyzeSkuAsWritten([SalesRow(19723, "80534", 1, "Unknown")], lib) == Fallback
  {
    var x := SalesRow(19723, "80534", 1, "Unknown");
    assert x.platform[0] == 'U';
    TextPlatformFallsBack([x], lib, x, 'U');
  }

  /** `analyze_sku` resampling the quantities alone, the cast the analysis relies on: the
      analysis of the SKU's sales resampled to one value per day, or the fallback for no rows
      or a forecast whose `iloc` fails. */
  function AnalyzeSku(rows: seq<SalesRow>, lib: Library): Analysis
  {
    if |rows| == 0 then Fallback
    else AnalyzeSeries(MinDate(rows), DailyQuantities(rows, MinDate(rows), SpanDays(rows)), lib)
  }

  /** Where the full frame does cast, the code as written gives the same analysis. */
  lemma AnalyzeSkuAgrees(rows: seq<SalesRow>, lib: Library)
    requires ResampleCasts(rows)
    ensures AnalyzeSkuAsWritten(rows, lib) == AnalyzeSku(rows, lib)
  {
  }

  /** The daily series spans every day from the first to the last sale and holds all of the
      SKU's sales. */
  lemma DailySeriesTotal(rows: seq<SalesRow>)
    requires |rows| > 0
    ensures Sum(DailyQuantities(rows, MinDate(rows), SpanDays(rows)), SpanDays(rows)) == TotalQuantity(rows)
  {
    DailyQuantitiesTotal(rows, MinDate(rows), SpanDays(rows));
  }

  /** Without rows, or with a frame that does not cast as written, the analysis is the
      fallback. */
  lemma AnalyzeSkuFallback(rows: seq<SalesRow>, lib: Library)
    requires |rows| == 0 || !ResampleCasts(rows)
    ensures AnalyzeSkuAsWritten(rows, lib) == Fallback
    ensures AnalyzeSkuAsWritten(rows, lib).overallTrend == 0.0 && AnalyzeSkuAsWritten(rows, lib).forecast == []
    ensures |rows| == 0 ==> AnalyzeSku(rows, lib) == Fallback
  {
  }

  /** With a real decomposition, every SKU with sales is analysed in full: its smoothed daily
      series, its trend and a forecast of sixty days after its last sale. */
  lemma AnalyzeSkuComplete(rows: seq<SalesRow>, lib: Library)
    requires |rows| > 0 && ValidLibrary(lib)
    ensures var q := DailyQuantities(rows, MinDate(rows), SpanDays(rows));
      var a := AnalyzeSku(rows, lib);
      a.smoothed == SmoothData(MinDate(rows), q) &&
      a.overallTrend == CalculateTrend(DailyFrame(MinDate(rows), q)) &&
      |a.forecast| == ForecastDays &&
      (forall k :: 0 <= k < |a.forecast| ==> a.forecast[k].date == MaxDate(rows) + 1 + k)
  {
    var lo := MinDate(rows);
    var q := DailyQuantities(rows, lo, SpanDays(rows));
    ForecastDefinedIff(lo, q, lib);
    AnalyzeSeriesForecast(lo, q, lib);
    ForecastShape(lo, q, lib);
  }

  /** A series that yields a forecast is analysed in full: its smoothed rows, its trend and a
      forecast of sixty days. */
  lemma AnalyzeSeriesForecast(lo: int, q: seq<int>, lib: Library)
    requires CreateForecast(lo, q, lib).Some?
    ensures var a := AnalyzeSeries(lo, q, lib);
      a.smoothed == SmoothData(lo, q) && a.overallTrend == CalculateTrend(DailyFrame(lo, q)) &&
      a.forecast == CreateForecast(lo, q, lib).value && |a.forecast| == ForecastDays
  {
    ForecastIsPath(lo, q, lib);
    ForecastPathShape(lo + |q| - 1, CalculateTrend(DailyFrame(lo, q)), Seasonality(q, lib), lib.std(q));
  }

  /** With under two weeks of data the analysis never falls back: the seasonality is all zeros
      and the trend series is the rolling mean of up to seven days. */
  lemma AnalyzeShortSeries(lo: int, q: seq<int>, lib: Library)
    requires 0 < |q| < DecompositionMinimum
    ensures var a := AnalyzeSeries(lo, q, lib);
      a.seasonality == Zeros(|q|) && a.trend == RollingMean(q, if |q| < 7 then |q| else 7) &&
      |a.forecast| == ForecastDays
  {
    ShortSeriesForecast(lo, q, lib);
    ForecastIsPath(lo, q, lib);
    ForecastPathShape(lo + |q| - 1, CalculateTrend(DailyFrame(lo, q)), Seasonality(q, lib), lib.std(q));
  }

  /** With two weeks of data or more the seasonality and the trend series are those of the
      decomposition, one value per day, and the forecast takes each day's seasonal value at
      the position of its weekday. */
  lemma AnalyzeLongSeries(lo: int, q: seq<int>, lib: Library)
    requires |q| >= DecompositionMinimum && ValidLibrary(lib)
    ensures var a := AnalyzeSeries(lo, q, lib);
      a.seasonality == lib.decompose(q).seasonal && a.trend == lib.decompose(q).trend &&
      |a.seasonality| == |q| && |a.trend| == |q| && |a.forecast| == ForecastDays &&
      (forall k :: 0 <= k < |a.forecast| ==>
        a.forecast[k].seasonality == lib.decompose(q).seasonal[Weekday(lo + |q| + k)])
  {
    ForecastDefinedIff(lo, q, lib);
    AnalyzeSeriesForecast(lo, q, lib);
    ForecastShape(lo, q, lib);
  }

  /** `all_data['SKU'].unique()`: each SKU once, in order of first appearance. */
  function UniqueSkus(rows: seq<SalesRow>): seq<string>
  {
    if |rows| == 0 then []
    else
      var rest := UniqueSkus(rows[..|rows| - 1]);
      if rows[|rows| - 1].sku in rest then rest else rest + [rows[|rows| - 1].sku]
  }

  /** The SKUs of the rows, each exactly once. */
  lemma {:induction false} UniqueSkusMembers(rows: seq<SalesRow>)
    ensures forall s :: s in UniqueSkus(rows) <==> exists x :: x in rows && x.sku == s
    ensures forall i, j :: 0 <= i < j < |UniqueSkus(rows)| ==> UniqueSkus(rows)[i] != UniqueSkus(rows)[j]
  {
    if |rows| > 0 {
      var init := rows[..|rows| - 1];
      UniqueSkusMembers(init);
      assert rows == init + [rows[|rows| - 1]];
      forall s ensures s in UniqueSkus(rows) <==> exists x :: x in rows && x.sku == s {
        if s in UniqueSkus(rows) && s != rows[|rows| - 1].sku {
          var x :| x in init && x.sku == s;
          assert x in rows;
        }
        if exists x :: x in rows && x.sku == s {
          var x :| x in rows && x.sku == s;
          if x != rows[|rows| - 1] {
            assert x in init;
          }
        }
      }
    }
  }

  function SkusIn(rows: seq<SalesRow>): set<string>
  {
    set x | x in rows :: x.sku
  }

  /** Every SKU of `unique()` has rows of its own. */
  lemma UniqueSkuHasRows(rows: seq<SalesRow>, sku: string)
    requires sku in UniqueSkus(rows)
    ensures |OfSku(rows, sku)| > 0
  {
    UniqueSkusMembers(rows);
    OfSkuMembers(rows, sku);
    var x :| x in rows && x.sku == sku;
    assert x in OfSku(rows, sku);
  }

  lemma UniqueSkusAreSkusIn(rows: seq<SalesRow>)
    ensures forall s :: s in UniqueSkus(rows) <==> s in SkusIn(rows)
  {
    UniqueSkusMembers(rows);
  }

  /** `analyze_all_skus`: the analysis of every SKU's rows, keyed by SKU. The loop uses the
      corrected `AnalyzeSku`, which resamples the quantities alone; the code as written gives
      the same analysis wherever the SKU's full frame casts, and the fallback otherwise. */
  method AnalyzeAllSkus(rows: seq<SalesRow>, lib: Library) returns (results: map<string, Analysis>)
    ensures results.Keys == SkusIn(rows)
    ensures forall s :: s in results ==> results[s] == AnalyzeSku(OfSku(rows, s), lib)
    ensures forall s :: s in results && ResampleCasts(OfSku(rows, s)) ==>
      results[s] == AnalyzeSkuAsWritten(OfSku(rows, s), lib)
  {
    var skus := UniqueSkus(rows);
    results := map[];
    for i := 0 to |skus|
      invariant forall s :: s in results <==> s in skus[..i]
      invariant forall s :: s in results ==> results[s] == AnalyzeSku(OfSku(rows, s), lib)
    {
      var sku := skus[i];
      var skuRows := OfSku(rows, sku);
      UniqueSkuHasRows(rows, sku);
      assert skus[..i + 1] == skus[..i] + [sku];
      if |skuRows| > 0 {
        results := results[sku := AnalyzeSku(skuRows, lib)];
      }
    }
    assert skus[..|skus|] == skus;
    UniqueSkusAreSkusIn(rows);
    forall s | s in results && ResampleCasts(OfSku(rows, s))
      ensures results[s] == AnalyzeSkuAsWritten(OfSku(rows, s), lib)
    {
      AnalyzeSkuAgrees(OfSku(rows, s), lib);
    }
  }
}
