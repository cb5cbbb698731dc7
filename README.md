# sku_sales in Dafny

A model of the sales-and-inventory back end of *sku_sales*, a dashboard that imports daily
orders from an order API into a sales ledger, keeps an initial-stock table and a supplier
delivery table, and computes per-SKU summaries, daily pivots and trend forecasts.

The model has these modules:

- `SkuMappings` (sku_mappings.dfy): the SKU rewrite rules of `apply_sku_mapping`, for the
  shipped table and for any table.
- `DataProcessor` (data_processor.dfy): `process_orders`. It flattens an order payload into
  one (SKU, quantity, platform) row per item with a truthy SKU.
- `SalesData` (sales_data.dfy): ledger rows, and the filters and sums the other modules use.
- `SalesLedger` (sales_ledger.dfy): the upsert of one day (`save_to_s3`) and the date queries.
  It also holds the zero-filled daily pivot (`process_daily_sales_data`) and the import loop of
  `update_data`. The class `SalesStore` holds the sales file and the watermark file.
- `Regression` (regression.dfy): the least-squares slope of integer samples, computed exactly
  in rationals.
- `Trend` (trend.dfy): `calculate_trend`, daily resampling, `calculate_seasonality`,
  `smooth_data`, `create_forecast`, `analyze_sku` and the loop of `analyze_all_skus`.
- `Inventory` (inventory.dfy): the two inventory tables, their loaders with the empty
  defaults, SKU normalisation (`str(int(float(x)))`), and the upserts. The class
  `InventoryStore` holds the two files.
- `Summary` (summary.dfy): `get_summary_data` and each of its stages.

Dates are day numbers, with day 0 being 1970-01-01. Storage is in memory: a file that does not
exist is `None`. External inputs are parameters:

- the current day;
- the order API, as a function from a day to a payload;
- the library routines `seasonal_decompose` and `Series.std`, as the record `Trend.Library`.
  `Trend.ValidLibrary` states what `seasonal_decompose` promises: a seasonal and a trend
  series as long as its input. Lemmas that rely on it say so.

The code does the following, which is easy to misread; the model follows it:

- The 14-day smoothing window is trailing (the pandas default), not centred.
- `process_orders` neither aggregates rows nor applies the SKU mapping.
- `apply_sku_mapping` does not strip hyphen suffixes. Only exact table keys are rewritten.
- For a SKU without an initial-stock snapshot, the sales "before the snapshot" are all of its
  sales. Its current stock is therefore just the delivered quantity, not deliveries minus sales.
- A SKU that has stock or deliveries but no sales since 2024-01-01 does not appear in the
  summary, because the stock is merged onto the sales summary with a left merge.
- `update_data` re-imports the watermark day itself. The window starts at the stored date,
  not the day after it.

## Model

| member | source | states |
|---|---|---|
| SkuMappings.Resolve | src/sku_mappings.py:9-29 | the rule order of `apply_sku_mapping` for any table: the bundle SKU, then the ignored SKUs, then the table entry (one target, or weighted targets), else pass-through; the lemmas below state each outcome |
| SkuMappings.ApplySkuMapping | src/sku_mappings.py:9-29 | `Resolve` with the shipped table; `order_date` plays no part |
| SkuMappings.BundleFirst | src/sku_mappings.py:13-15 | SKU 8000 yields 80534 and 80536, each with the full quantity, whatever the mapping table holds |
| SkuMappings.IgnoredBeforeTable | src/sku_mappings.py:17-19 | SKUs 8001 to 8004 are dropped before the table is consulted |
| SkuMappings.SingleTargetPassesQuantity | src/sku_mappings.py:22-25 | a single-target entry yields its target with the quantity unchanged |
| SkuMappings.WeightedScalesEachTarget | src/sku_mappings.py:26-27 | a list entry yields each target, in order, with its multiplier times the quantity |
| SkuMappings.UnmatchedPassesThrough | src/sku_mappings.py:29 | a SKU that matches no rule passes through unchanged |
| SkuMappings.ShippedTableOutcomes | src/sku_mappings.py:3-29 | the outcome of every rule of the shipped table, and pass-through for every other SKU |
| SkuMappings.ShippedTableKeepsQuantity | src/sku_mappings.py:3-29 | under the shipped table an outcome has at most two pairs, each carrying the input quantity |
| DataProcessor.Flatten | src/data_processor.py:4-24 | the table `process_orders` returns: one row per item with a truthy SKU, in order, or the empty frame with the three fixed columns; the lemmas below state its properties |
| DataProcessor.TruncateToInt | src/data_processor.py:16 | `int()` of a number truncates toward zero: the result is within 1 of the input and no farther from 0 than it |
| DataProcessor.ProcessOrders | src/data_processor.py:4-24 | the loop builds exactly the flattened table; a missing or empty `Data` gives the empty frame with the three fixed columns |
| DataProcessor.OrderRowsAreKeptItems | src/data_processor.py:11-22 | the k-th row of an order is its k-th item with a truthy SKU, carrying that SKU, the truncated quantity and the order's platform |
| DataProcessor.FlattenConservesQuantity | src/data_processor.py:11-22 | at most one row per item; the quantity total equals that of the kept items |
| DataProcessor.FlattenRowsCarryPlatform | src/data_processor.py:13-22 | every row has a non-empty SKU and the platform of one of the orders |
| SalesData.RangeSumCoversTotal | src/s3_operations.py:272-277 | summing day buckets over a range that covers every date gives the total quantity |
| SalesData.MinDate | src/trend_analysis.py:12 | the earliest date is at most every row's date and is the date of some row |
| SalesData.MaxDate | src/trend_analysis.py:26 | the latest date is at least every row's date and is the date of some row |
| SalesData.ExtremesOfPermutation | src/trend_analysis.py:11-12 | reordering the rows changes neither extreme date |
| SalesLedger.Save | src/s3_operations.py:22-50 | the decision of `save_to_s3`: write sorted (first file, new day, or overwrite), skip a present day, or raise on an empty batch; the lemmas below state each case |
| SalesLedger.StampRows | src/s3_operations.py:28 | each batch row keeps its SKU, quantity and platform and is stamped with the saved day |
| SalesLedger.SortByDateSorted | src/s3_operations.py:43 | the written ledger is ordered by date |
| SalesLedger.SortByDatePermutes | src/s3_operations.py:43 | sorting neither loses nor adds a row |
| SalesLedger.RowsOnSort | src/s3_operations.py:43 | sorting keeps the rows of each day in their original order |
| SalesLedger.CombinedPerDay | src/s3_operations.py:38-43 | after concatenation and sorting, each day holds its kept rows plus, on the saved day, the stamped batch |
| SalesLedger.SaveOverwriteReplacesDay | src/s3_operations.py:30-47 | with overwrite, the saved day holds exactly the new batch, every other day is unchanged, and the ledger is sorted |
| SalesLedger.SaveAddsAbsentDay | src/s3_operations.py:30-47 | without overwrite, an absent day is added as the stamped batch and the other days are unchanged |
| SalesLedger.SaveSkipsPresentDay | src/s3_operations.py:35-37 | without overwrite, a day already present is skipped and the ledger is untouched |
| SalesLedger.SaveEmptyBatchFails | src/s3_operations.py:34-50 | an empty batch against an existing ledger raises and nothing is written |
| SalesLedger.SaveIdempotent | src/s3_operations.py:22-47 | saving the same batch twice without overwrite leaves the ledger as after the first save |
| SalesLedger.SaveOverwriteTwice | src/s3_operations.py:22-47 | saving twice with overwrite leaves every day as after the first save |
| SalesLedger.DateExistsRowsOn | src/s3_operations.py:60-61 | a date exists exactly when some row is dated that day |
| SalesData.SinceMultiset | src/s3_operations.py:79 | the date filter keeps every copy of a row dated on or after the start, and no copy of any other row |
| SalesData.SinceAppend | src/s3_operations.py:79 | the date filter keeps the ledger's order: filtering two parts and joining them is filtering the whole |
| SalesLedger.AllDataSince | src/s3_operations.py:67-85 | the result has exactly the rows dated on or after the start, each as often as the ledger holds it; no file gives no rows |
| SalesLedger.DateRange | src/s3_operations.py:292 | the consecutive days from start to end, empty when start is after end |
| SalesLedger.MissingFrom | src/s3_operations.py:292-294 | ascending, and holds exactly the days of the range not present |
| SalesLedger.MissingDates | src/s3_operations.py:281-298 | ascending, and holds exactly the days of the range without a row (every day when there is no file) |
| SalesLedger.MissingWithoutLedger | src/s3_operations.py:297-298 | with no sales file, the missing days are the whole range |
| SalesLedger.MissingLast30MatchesMissingDates | src/s3_operations.py:300-304 | the intended first and last missing day of the 30 days ending today are the ends of `get_missing_dates` over those days |
| SalesLedger.MissingDatesLast30AsWritten | src/s3_operations.py:300-304 | `get_missing_dates_last_30_days` as written: the `.dt` accessor on the date-object column raises (`None`), else the first and last day missing from the 30 days ending today |
| SalesLedger.MissingLast30AsWrittenAlwaysRaises | src/s3_operations.py:302 | as written, the `.dt` accessor on the date-object column raises for every ledger |
| SalesLedger.SkusOfMembers | src/s3_operations.py:263 | the SKU column holds exactly the SKUs of the rows |
| SalesLedger.ProcessDailySalesData | src/s3_operations.py:260-279 | the pivot has a row for every day of [today - days, today] and a cell for every SKU column |
| SalesLedger.PivotSkusSorted | src/s3_operations.py:272-277 | the SKU columns are strictly increasing, so each SKU has one column |
| SalesLedger.PivotSkusMembers | src/s3_operations.py:268-277 | the columns are exactly the SKUs sold within the window |
| SalesLedger.PivotCell | src/s3_operations.py:272-277 | a cell is the quantity of that SKU summed over that day's rows |
| SalesLedger.PivotCellNoSale | src/s3_operations.py:277 | a day on which the SKU sold nothing reads 0 |
| SalesLedger.PivotColumnTotal | src/s3_operations.py:268-277 | a column's sum is the SKU's total in the window: the pivot neither drops nor duplicates a sale |
| SalesLedger.MissingDatesLast30 | src/s3_operations.py:300-304 | the first and last missing day of the 30 days ending today, as the code evidently intends (see Findings) |
| SalesLedger.ImportWindow | src/s3_operations.py:315-327 | a given date imports that day only; otherwise the window runs from the watermark (or 30 days before yesterday) to yesterday |
| SalesLedger.FetchBatch | src/s3_operations.py:338-339 | the batch of one day is the flattening of the API's answer for that day |
| SalesLedger.IngestDown | src/s3_operations.py:333-343 | the import loop from the end day down to the start, each day saving its batch and a raising save ending it |
| SalesLedger.Update | src/s3_operations.py:306-348 | `update_data`: the window, the import, and the watermark written only after every day was saved |
| SalesLedger.IngestStep | src/s3_operations.py:337-343 | each step saves the current day on the ledger the later days left, and stops at a save that raises |
| SalesLedger.FailurePropagates | src/s3_operations.py:337-343 | a failed day ends the import: no earlier day is saved |
| SalesLedger.IngestOverwriteEachDay | src/s3_operations.py:337-343 | with overwrite and orders on every day, each imported day holds exactly its own batch and every other day is untouched |
| SalesLedger.IngestKeepsPresentDay | src/s3_operations.py:337-343 | without overwrite, a day already in the ledger keeps exactly its rows |
| SalesLedger.SalesStore.SaveDay | src/s3_operations.py:22-50 | the result is the save decision, and the stored ledger is the ledger after it |
| SalesLedger.SalesStore.ImportDays | src/s3_operations.py:333-343 | the loop leaves the ledger the day-by-day import from the end day down to the start gives |
| SalesLedger.SalesStore.UpdateData | src/s3_operations.py:306-348 | ledger, watermark and outcome as `update_data` gives them: nothing happens for an empty window; the watermark becomes the last day only when every day was saved |
| Regression.SpreadPositive | src/trend_analysis.py:18 | two distinct x values make the slope's denominator strictly positive |
| Regression.Slope | src/trend_analysis.py:22 | the slope times the spread of x is the covariation of x and y |
| Regression.SlopeOfLine | src/trend_analysis.py:22 | points on a line y = a + b x have slope exactly b |
| Regression.SlopeOfConstant | src/trend_analysis.py:22 | a constant series has slope 0 |
| Regression.CovariationIsRawSums | src/trend_analysis.py:22 | the pairwise form equals n Σxy − Σx Σy |
| Trend.CalculateTrend | src/trend_analysis.py:10-37 | `calculate_trend`: 0 without two dates, else 0.7 times the slope over all rows plus 0.3 times the slope over the last 30 days; the lemmas below state it on constant and linear sales |
| Trend.TwoDatesDays | src/trend_analysis.py:18 | the day offsets take two values exactly when the rows span two dates |
| Trend.TrendNeedsTwoDates | src/trend_analysis.py:17-19 | rows on fewer than two dates have trend 0 |
| Trend.DaysStartAtZero | src/trend_analysis.py:12 | the day offsets are non-negative and the earliest row has offset 0 |
| Trend.ShortSlopeOfLine | src/trend_analysis.py:26-33 | on linear sales the short-term slope is b if the last 30 days span two dates, else 0 |
| Trend.WeightedTrendOfLine | src/trend_analysis.py:35 | on linear sales over two dates the trend is 0.7 b plus 0.3 times the short-term slope |
| Trend.RecentOfPermutation | src/trend_analysis.py:26-27 | whether the last 30 days span two dates does not depend on the row order |
| Trend.TrendOfLinear | src/trend_analysis.py:10-37 | on sales linear in the date, spanning two dates, the trend is 0.7 b + 0.3 b, or 0.7 b when the last 30 days hold a single date |
| Trend.TrendOfConstant | src/trend_analysis.py:10-37 | constant sales have trend 0 |
| Trend.RollingMean | src/trend_analysis.py:94 | one mean per input value |
| Trend.RollingMeanBounds | src/trend_analysis.py:94 | every rolling mean lies between the least and the greatest value |
| Trend.RollingMeanConstant | src/trend_analysis.py:94 | the rolling mean of a constant series is that constant |
| Trend.RollingMeanFirst | src/trend_analysis.py:57 | with `min_periods=1` the first mean is the first value |
| Trend.RollingMeanOfWidthOne | src/trend_analysis.py:94 | a window of one gives back the series |
| Trend.RollingWindowWidth | src/trend_analysis.py:57 | the window has min(i + 1, w) values: trailing and truncated at the start |
| Trend.DailyQuantities | src/trend_analysis.py:86 | the resampled series has one value per day |
| Trend.DailyQuantitiesTotal | src/trend_analysis.py:86 | resampling over a range covering every date keeps the total quantity |
| Trend.DailyQuantitiesGap | src/trend_analysis.py:86 | a day without rows reads 0 |
| Trend.DailySeriesTotal | src/trend_analysis.py:80-86 | the daily series from the first to the last date of a SKU sums to its total |
| Trend.Seasonality | src/trend_analysis.py:39-53 | the decomposition's seasonal series from two weeks of data on, seven zeros below |
| Trend.ForecastPathShape | src/trend_analysis.py:62-74 | sixty rows on the days after the last date; trend k·slope; seasonality picked by weekday; forecast = trend + seasonality; bounds at ±2 std |
| Trend.WeekdayAhead | src/trend_analysis.py:70 | every weekday occurs within seven days |
| Trend.CreateForecast | src/trend_analysis.py:60-76 | `create_forecast` of a daily series, `None` where it raises |
| Trend.ForecastDefinedIff | src/trend_analysis.py:60-76 | the forecast exists exactly when there is data and the seasonality covers all seven weekday positions; with a decomposition as long as its input, exactly when there is data |
| Trend.ForecastShape | src/trend_analysis.py:60-76 | an existing forecast has sixty rows on the days after the series' last day, row k holding k + 1 steps of the series' trend plus the seasonal value of its weekday, with a band of two standard deviations of the quantities on either side |
| Trend.ForecastWeekly | src/trend_analysis.py:70 | the seasonal component of the forecast repeats every seven days |
| Trend.ShortSeriesForecast | src/trend_analysis.py:47-71 | under two weeks of data the seasonality is zero and the forecast equals the trend line |
| Trend.SmoothData | src/trend_analysis.py:55-58 | one smoothed row per day of the series |
| Trend.SmoothKeepsRows | src/trend_analysis.py:55-58 | smoothing keeps each day and quantity and adds the rolling mean; the first mean is the first quantity |
| Trend.ResampleCasts | src/trend_analysis.py:84-86 | `astype('float64')` of the resampled frame succeeds: on every day with a sale the joined SKU prefixes and the joined platforms are decimal literals |
| Trend.AnalyzeSeries | src/trend_analysis.py:88-110 | the analysis of a daily series: the decomposition from 14 days on, or zero seasonality and a rolling mean below that; the trend, the smoothed rows and the forecast; the fallback when the series is empty or has no forecast. `AnalyzeSeriesForecast`, `AnalyzeShortSeries` and `AnalyzeLongSeries` state its properties |
| Trend.AnalyzeSkuAsWritten | src/trend_analysis.py:78-119 | `analyze_sku` as written: the fallback without rows or when the resampled frame does not cast, else the analysis of the daily series. `TextPlatformFallsBack` and `AnalyzeSkuAgrees` state its behaviour |
| Trend.AnalyzeSku | src/trend_analysis.py:78-119 | `analyze_sku` with the quantities alone resampled (see Findings): the fallback without rows, else the analysis of the daily series from the first to the last sale |
| Trend.TextPlatformFallsBack | src/trend_analysis.py:84-86 | as written, a platform name with a character outside digits, signs and points makes the cast of the resampled frame raise, so the analysis is the fallback |
| Trend.UnknownPlatformFallsBack | src/trend_analysis.py:84-86 | as written, a single sale on the default platform `Unknown` already gives the fallback |
| Trend.AnalyzeSkuAgrees | src/trend_analysis.py:86 | where the whole frame does cast, the code as written computes the same analysis |
| Trend.AnalyzeSkuFallback | src/trend_analysis.py:111-119 | no rows, or as written a resample that does not cast, gives the empty fallback with trend 0 |
| Trend.AnalyzeSkuComplete | src/trend_analysis.py:78-110 | with a decomposition as long as its input, every SKU with sales gets its smoothed series, its trend and sixty forecast days after its last sale |
| Trend.AnalyzeSeriesForecast | src/trend_analysis.py:96-110 | with a forecast, the analysis holds the smoothed rows, the trend and sixty forecast days |
| Trend.AnalyzeShortSeries | src/trend_analysis.py:92-94 | under two weeks: seasonality zero and trend the rolling mean over min(7, n) values, with a full forecast |
| Trend.AnalyzeLongSeries | src/trend_analysis.py:88-102 | from two weeks of data on, with a decomposition as long as its input: seasonality and trend series are the decomposition's, one value per day, and each forecast day takes the seasonal value at its weekday's position |
| Trend.UniqueSkusMembers | src/trend_analysis.py:123 | `unique()` lists each SKU of the rows exactly once |
| Trend.AnalyzeAllSkus | src/trend_analysis.py:121-132 | the result has exactly the SKUs of the rows, each mapped to the corrected analysis of its own rows (see the Findings row for trend_analysis.py:86); wherever a SKU's resampled frame casts, that is the analysis the code as written computes |
| Inventory.NormalizeSku | src/inventory_management.py:30 | `str(int(float(x)))`, or `None` where `float` raises |
| Inventory.TruncatedValueAlphabet | src/inventory_management.py:30 | a text `float` accepts holds only digits, signs and points |
| Inventory.NatToString | src/inventory_management.py:30 | `str` of a natural number is a non-empty digit string without a leading zero |
| Inventory.DigitsOfNat | src/inventory_management.py:30 | the digits read back as the number |
| Inventory.TruncatedValueOfString | src/inventory_management.py:30 | `int(float(str(n)))` is n |
| Inventory.NormalizeCanonical | src/inventory_management.py:30 | a canonical integer text normalises to itself |
| Inventory.NormalizeIdempotent | src/inventory_management.py:30 | normalising twice is normalising once |
| Inventory.NormalizeDropsFraction | src/inventory_management.py:30 | "n.0" normalises to "n" |
| Inventory.NormalizeRejectsLetters | src/inventory_management.py:30-36 | a SKU starting with a letter does not parse, so the load falls back to the empty table |
| Inventory.LoadInitialInventory | src/inventory_management.py:19-36 | `load_initial_inventory`: empty without a file, else the rows with normalised SKUs, or empty when a SKU does not parse |
| Inventory.LoadSupplierDeliveries | src/inventory_management.py:59-76 | `load_supplier_deliveries`: the empty table without a file, else the stored rows with their SKU text as written |
| Inventory.LoadDefaults | src/inventory_management.py:19-76 | a missing file loads as the empty table, for both tables |
| Inventory.LoadInitialNormalizes | src/inventory_management.py:19-36 | a load keeps every row with its SKU normalised, or gives the empty table when some SKU does not parse |
| Inventory.ReloadNormalized | src/inventory_management.py:19-36 | a table of normalised SKUs loads back unchanged |
| Inventory.UpsertInitial | src/inventory_management.py:38-48 | afterwards the SKU has a row; the table keeps its length for a known SKU and grows by one for a new one |
| Inventory.UpsertInitialKnown | src/inventory_management.py:41-42 | a known SKU has every one of its rows overwritten in place; the other rows are unchanged |
| Inventory.UpsertInitialNew | src/inventory_management.py:43-45 | a new SKU is appended as one row after the unchanged table |
| Inventory.UpsertInitialLookup | src/inventory_management.py:41-45 | afterwards the SKU has a row with the given quantity and date |
| Inventory.UpsertInitialIdempotent | src/inventory_management.py:38-48 | repeating the upsert changes nothing |
| Inventory.UpsertDelivery | src/inventory_management.py:78-90 | afterwards the (SKU, date) pair has a row; the table keeps its length for a known pair and grows by one for a new one |
| Inventory.UpsertDeliveryKnown | src/inventory_management.py:81-84 | each row with the same SKU and date gets the new quantity and status; the others are unchanged |
| Inventory.UpsertDeliveryNew | src/inventory_management.py:85-87 | a new (SKU, date) is appended after the unchanged table |
| Inventory.UpsertDeliveryIdempotent | src/inventory_management.py:78-90 | repeating the delivery upsert changes nothing |
| Inventory.FormDeliveryAsWritten | src/inventory_management.py:78-90 | `update_supplier_delivery` as the deliveries form calls it with a whole-number SKU: the number matches no text SKU, so the row is always appended, and it reads back as `str(n)` |
| Inventory.FormDeliveryDuplicates | src/inventory_management.py:81-87 | as the deliveries form calls it with a whole-number SKU, a delivery the table already holds gets a second row for the same SKU and date |
| Inventory.FormDeliveryTwice | src/inventory_management.py:81-87 | as written, submitting the same form twice changes the table twice |
| Inventory.FormDelivery | src/inventory_management.py:78-90 | with the SKU compared as text, a known (SKU, date) keeps the table's length and a new one appends exactly its row |
| Inventory.FormDeliveryIdempotent | src/inventory_management.py:78-90 | with the SKU compared as text, submitting the same form twice is submitting it once |
| Inventory.InventoryStore.UpdateInitialInventory | src/inventory_management.py:38-48 | the returned and stored table is the upsert applied to the loaded table |
| Inventory.InventoryStore.UpdateSupplierDelivery | src/inventory_management.py:78-90 | the returned and stored table is the delivery upsert applied to the loaded table |
| Inventory.UpdateInitialTwice | src/inventory_management.py:30-48 | with a normalised SKU, the saved table loads back as saved and a repeated call leaves it unchanged |
| Inventory.UpdateInitialUnnormalizedAppendsAgain | src/inventory_management.py:30-45 | a SKU written "n.0" is reloaded as "n", so repeating the call appends a second row |
| Inventory.UnnormalizedEntryReloaded | src/inventory_management.py:30-45 | "n.0" entered into the empty table reloads as the row for "n", and entering "n.0" again appends a second row |
| Inventory.UnnormalizedEntryLoadsTwice | src/inventory_management.py:30-45 | entering "n.0" twice and loading the table gives two identical rows for "n" |
| Summary.GetSummaryData | src/s3_operations.py:87-116 | `get_summary_data`: the empty summary without sales since 2024-01-01, else the stages in order and the sort; the lemmas at the end state its properties |
| Summary.CalculateSummaryData | src/s3_operations.py:118-150 | one summary row per distinct SKU |
| Summary.SummarySkusAreSkus | src/s3_operations.py:127-144 | the summary keys are strictly increasing and are exactly the SKUs of the rows |
| Summary.SummaryWindow | src/s3_operations.py:124-141 | the 30-day quantity sums exactly the SKU's rows dated from the window start on; the average is a thirtieth of it; the total covers all the SKU's rows |
| Summary.SummaryQuietSku | src/s3_operations.py:144-148 | a SKU with no sale in the window reads 0 quantity and 0 average |
| Summary.MergeInitial | src/s3_operations.py:165 | the left merge with the snapshot table: each summary row once per snapshot row of its SKU, or once without one |
| Summary.StockOf | src/s3_operations.py:166-196 | one merged row's stock: delivered and planned sums, the sales before the snapshot, and the current quantity |
| Summary.StockRows | src/s3_operations.py:165-197 | one stock row per merged row |
| Summary.AddInventoryData | src/s3_operations.py:152-210 | the loop computes exactly the stock rows of the merge with the loaded snapshot and delivery tables |
| Summary.ApplyStock | src/s3_operations.py:166-196 | the row-wise `apply`: one stock row per merged row, each the stock of that merged row |
| Summary.TotalSplits | src/s3_operations.py:185-191 | the sales before a day plus the sales from it on are the total |
| Summary.CurrentAfterSnapshot | src/s3_operations.py:183-196 | with a snapshot, current stock = snapshot + delivered − sales on or after the snapshot date |
| Summary.CurrentWithoutSnapshot | src/s3_operations.py:183-196 | without a snapshot, all sales count as before it and current stock is the delivered quantity |
| Summary.DeliverySumOfOthers | src/s3_operations.py:168-176 | a SKU with no delivery row in the given statuses sums to 0 |
| Summary.SnapshotsOfMembers | src/s3_operations.py:165 | the snapshot rows of a SKU are exactly the table's rows for it |
| Summary.SnapshotsOfUnique | src/s3_operations.py:165 | with unique snapshot SKUs, a SKU has at most one snapshot row |
| Summary.MergeTwoSnapshots | src/s3_operations.py:165 | two snapshot rows of a SKU make the snapshot SKUs not distinct and give its summary row twice in the left merge |
| Summary.UnnormalizedEntryDuplicatesSummaryRow | src/s3_operations.py:165 | after the initial stock of "n" is entered twice as "n.0", the loaded snapshot SKUs are not distinct and the summary row of "n" appears twice |
| Summary.MergeInitialUnique | src/s3_operations.py:165 | with unique snapshot SKUs, the left merge keeps each summary row once, in order, with its own snapshot exactly when one exists |
| Summary.Reach | src/s3_operations.py:200-216 | days of stock are finite exactly when the average is positive, and then days × average = stock |
| Summary.Finish | src/s3_operations.py:197-237 | the final columns of one SKU: the three days-of-stock figures, the trend of its rows and its platform list |
| Summary.FinishColumns | src/s3_operations.py:197-217 | InventoryDays equals AdjustedInventoryDays; with deliveries adds the planned quantity; all are infinite exactly when the average is not positive |
| Summary.PlatformList | src/s3_operations.py:230-237 | the distinct platforms of the SKU's rows, in increasing order, joined with ", " |
| Summary.PlatformsSortedDistinct | src/s3_operations.py:230-237 | the platform list joins, with ", ", the distinct platforms of the SKU in increasing order |
| Summary.SortByInventoryDays | src/s3_operations.py:239-243 | the sort by InventoryDays, an insertion sort; the lemmas below state that it orders and permutes |
| Summary.InsertByDaysSorted | src/s3_operations.py:243 | inserting into a list ordered by days of stock keeps it ordered |
| Summary.SortByInventoryDaysSorted | src/s3_operations.py:243 | the summary comes out in ascending days of stock, infinities last |
| Summary.SortByInventoryDaysPermutes | src/s3_operations.py:243 | sorting neither loses nor adds a row |
| Summary.SummaryWithoutSales | src/s3_operations.py:91-96 | no file, or no sale since 2024-01-01, gives the empty summary |
| Summary.SummaryOrdered | src/s3_operations.py:239-243 | the summary is ordered by days of stock and is a permutation of the per-SKU rows |
| Summary.WindowEndsYesterday | src/s3_operations.py:100-101 | the window has `days` days and ends yesterday |
| Summary.SummaryRowPerSku | src/s3_operations.py:219-223 | with unique snapshot SKUs, each SKU has exactly one row, in key order, carrying the trend of its own rows |

## Left out

- The storage layer, the order API, secrets and logging are not modelled. The files are fields
  or parameters, and the current day is a parameter.
- The library routines are parameters, in the record `Trend.Library`:
  - `seasonal_decompose`, passed as `decompose`, is not modelled beyond the lengths that
    `Trend.ValidLibrary` states;
  - `Series.std`, passed as `std`, is not modelled.
- Trend.ResampleCasts: the text `float64` accepts is approximated by the decimal literals of
  `Inventory.TruncatedValue`, as for SKU normalisation below; exponents, `inf`/`nan`,
  whitespace and underscores are not modelled. A day without a sale sums to 0, which casts.
- Quantities are integers. Means, slopes and days of stock are exact rationals, not floats.
  `linregress` is modelled as the exact least-squares slope, so rounding is not captured.
- Inventory.NormalizeSku: reads only `[+-]digits[.digits]`. Exponents, surrounding whitespace,
  underscores, `inf`/`nan` and float precision limits of `float()` are not modelled.
- The column types `read_csv` infers are not modelled. SKUs and platforms are text throughout.
  NaN cells are not modelled.
- Summary.SummaryRowPerSku: holds only for unique snapshot SKUs. With duplicate SKUs in the
  snapshot table, the left merge duplicates summary rows.
  `Summary.UnnormalizedEntryDuplicatesSummaryRow` gives an input that leads there: the
  initial stock of "80534" entered twice as "80534.0".
- The `SKU_Name` column (`add_sku_names`) is not part of this model, because the name table it
  reads is not part of the repository files modelled. The `FirstDate`/`LastDate` columns used
  by no later stage are dropped.
- `sort_values` uses an unstable quicksort. The model sorts stably, so the order among equal
  keys is a model choice; sortedness and permutation are proved.
- The raising paths of `process_orders` are not modelled; the model reads every item as
  well-formed. `int(item.get('Quantity', 0))` raises on a null or non-numeric quantity, and it
  runs before the SKU test, so an item without a SKU raises too. A null `Seller` or `Product`
  raises at the `.get` on it, and a null `OrderItems` raises when iterated. `update_data` does
  not catch any of these, so the import stops before the watermark is written.
- SalesLedger.Save: the very first save of a batch that is `pd.DataFrame([])` (orders present,
  but none with a truthy SKU) writes a file with only a `Date` column. After that,
  `load_existing_data` raises a KeyError on `Date` for every later save, and `save_to_s3`
  re-raises it. The model has no column labels, so it stores an empty ledger and lets later
  saves succeed.
- The exception path of `add_inventory_data`, and the catch-all of `get_summary_data` that
  turns it into an empty frame, are not modelled. The modelled pipeline is total.
- The Streamlit tabs, `get_daily_sales_data` (a file read around `process_daily_sales_data`)
  and `main.py` are outside the modelled core.

## Findings

| source | as written | input that shows it | evidently intended | confidence | as-written member | corrected member |
|---|---|---|---|---|---|---|
| src/trend_analysis.py:86 | `resample('D').sum().astype('float64')` casts every column, and the daily sum joins the text of the `SKU` and `Platform` columns | one sale of SKU 80534 on 2024-01-01 on platform `Unknown` | resample the quantities alone, so that every SKU with sales is analysed | not executed | Trend.TextPlatformFallsBack | Trend.AnalyzeSkuComplete |
| src/inventory_management.py:81 | the mask compares the text `SKU` column with the whole-number SKU of the deliveries form (src/deliveries_tab.py:50-59), so it matches no row and every delivery is appended | a second submission of SKU 80534 for a date that already has an 80534 delivery | update the existing (SKU, date) row | not executed | Inventory.FormDeliveryDuplicates | Inventory.FormDeliveryIdempotent |
| src/s3_operations.py:302 | `get_all_data_since_date(...)['Date'].dt.date` on a column that line 77 already turned into Python date objects | any ledger, and also no ledger (the empty frame's object column) | the set of dates present since today − 30 | not executed | SalesLedger.MissingLast30AsWrittenAlwaysRaises | SalesLedger.MissingLast30MatchesMissingDates |
