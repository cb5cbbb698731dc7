/**
 * The rows of the sales ledger (the `Date`, `SKU`, `Quantity`, `Platform` columns of the sales
 * file) and the per-day sums that the pivot of src/s3_operations.py and the daily resampling of
 * src/trend_analysis.py are built on. Dates are day numbers (day 0 is 1970-01-01).
 */
module SalesData {

  datatype SalesRow = SalesRow(date: int, sku: string, quantity: int, platform: string)

  /** The sum of the `Quantity` column. */
  function TotalQuantity(rows: seq<SalesRow>): int
  {
    if |rows| == 0 then 0 else TotalQuantity(rows[..|rows| - 1]) + rows[|rows| - 1].quantity
  }

  /** The rows of one SKU, in ledger order (`all_data[all_data['SKU'] == sku]`). */
  function OfSku(rows: seq<SalesRow>, sku: string): seq<SalesRow>
  {
    if |rows| == 0 then []
    else OfSku(rows[..|rows| - 1], sku) + (if rows[|rows| - 1].sku == sku then [rows[|rows| - 1]] else [])
  }

  /** The rows dated on or after `start`, in ledger order (`data[data['Date'] >= start]`). */
  function Since(rows: seq<SalesRow>, start: int): seq<SalesRow>
  {
    if |rows| == 0 then []
    else Since(rows[..|rows| - 1], start) + (if rows[|rows| - 1].date >= start then [rows[|rows| - 1]] else [])
  }

  /** The rows dated strictly before `day`. */
  function Before(rows: seq<SalesRow>, day: int): seq<SalesRow>
  {
    if |rows| == 0 then []
    else Before(rows[..|rows| - 1], day) + (if rows[|rows| - 1].date < day then [rows[|rows| - 1]] else [])
  }

  /** The rows dated within `[lo, hi]`. */
  function Between(rows: seq<SalesRow>, lo: int, hi: int): seq<SalesRow>
  {
    if |rows| == 0 then []
    else Between(rows[..|rows| - 1], lo, hi) + (if lo <= rows[|rows| - 1].date <= hi then [rows[|rows| - 1]] else [])
  }

  /** The quantity sold on one day. */
  function DaySum(rows: seq<SalesRow>, day: int): int
  {
    if |rows| == 0 then 0
    else DaySum(rows[..|rows| - 1], day) + (if rows[|rows| - 1].date == day then rows[|rows| - 1].quantity else 0)
  }

  /** `DaySum` added up over the `n` consecutive days starting at `lo`. */
  function RangeSum(rows: seq<SalesRow>, lo: int, n: nat): int
  {
    if n == 0 then 0 else RangeSum(rows, lo, n - 1) + DaySum(rows, lo + n - 1)
  }

  lemma {:induction false} DaySumAbsent(rows: seq<SalesRow>, day: int)
    requires forall x :: x in rows ==> x.date != day
    ensures DaySum(rows, day) == 0
  {
    if |rows| > 0 {
      assert forall x :: x in rows[..|rows| - 1] ==> x in rows;
      DaySumAbsent(rows[..|rows| - 1], day);
    }
  }

  lemma {:induction false} RangeSumSnoc(rows: seq<SalesRow>, x: SalesRow, lo: int, n: nat)
    ensures RangeSum(rows + [x], lo, n) ==
      RangeSum(rows, lo, n) + (if lo <= x.date < lo + n then x.quantity else 0)
  {
    assert (rows + [x])[..|rows + [x]| - 1] == rows;
    if n > 0 {
      RangeSumSnoc(rows, x, lo, n - 1);
    }
  }

  /** Summing the days of a range that covers every row's date gives back the total quantity:
      bucketing by day loses and duplicates nothing. */
  lemma {:induction false} RangeSumCoversTotal(rows: seq<SalesRow>, lo: int, n: nat)
    requires forall x :: x in rows ==> lo <= x.date < lo + n
    ensures RangeSum(rows, lo, n) == TotalQuantity(rows)
  {
    if |rows| == 0 {
      RangeSumEmpty(rows, lo, n);
    } else {
      var init := rows[..|rows| - 1];
      assert forall x :: x in init ==> x in rows;
      RangeSumCoversTotal(init, lo, n);
      assert rows == init + [rows[|rows| - 1]];
      RangeSumSnoc(init, rows[|rows| - 1], lo, n);
    }
  }

  lemma {:induction false} RangeSumEmpty(rows: seq<SalesRow>, lo: int, n: nat)
    requires |rows| == 0
    ensures RangeSum(rows, lo, n) == 0
  {
    if n > 0 {
      RangeSumEmpty(rows, lo, n - 1);
    }
  }

  lemma {:induction false} OfSkuMembers(rows: seq<SalesRow>, sku: string)
    ensures forall x :: x in OfSku(rows, sku) <==> x in rows && x.sku == sku
  {
    if |rows| > 0 {
      OfSkuMembers(rows[..|rows| - 1], sku);
      assert rows == rows[..|rows| - 1] + [rows[|rows| - 1]];
    }
  }

  lemma {:induction false} SinceMembers(rows: seq<SalesRow>, start: int)
    ensures forall x :: x in Since(rows, start) <==> x in rows && x.date >= start
  {
    if |rows| > 0 {
      SinceMembers(rows[..|rows| - 1], start);
      assert rows == rows[..|rows| - 1] + [rows[|rows| - 1]];
    }
  }

  /** The filter keeps each row as often as the ledger holds it when it is dated on or after
      `start`, and drops every copy otherwise. */
  lemma {:induction false} SinceMultiset(rows: seq<SalesRow>, start: int)
    ensures forall x :: multiset(Since(rows, start))[x] == if x.date >= start then multiset(rows)[x] else 0
  {
    if |rows| > 0 {
      var init := rows[..|rows| - 1];
      SinceMultiset(init, start);
      assert rows == init + [rows[|rows| - 1]];
    }
  }

  /** The filter keeps the ledger's order: filtering two parts and joining them is filtering
      the joined ledger. */
  lemma {:induction false} SinceAppend(a: seq<SalesRow>, b: seq<SalesRow>, start: int)
    ensures Since(a + b, start) == Since(a, start) + Since(b, start)
  {
    if |b| > 0 {
      var init := b[..|b| - 1];
      SinceAppend(a, init, start);
      assert (a + b)[..|a + b| - 1] == a + init;
    } else {
      assert a + b == a;
    }
  }

  lemma {:induction false} BeforeMembers(rows: seq<SalesRow>, day: int)
    ensures forall x :: x in Before(rows, day) <==> x in rows && x.date < day
  {
    if |rows| > 0 {
      BeforeMembers(rows[..|rows| - 1], day);
      assert rows == rows[..|rows| - 1] + [rows[|rows| - 1]];
    }
  }

  lemma {:induction false} BetweenMembers(rows: seq<SalesRow>, lo: int, hi: int)
    ensures forall x :: x in Between(rows, lo, hi) <==> x in rows && lo <= x.date <= hi
  {
    if |rows| > 0 {
      BetweenMembers(rows[..|rows| - 1], lo, hi);
      assert rows == rows[..|rows| - 1] + [rows[|rows| - 1]];
    }
  }

  lemma {:induction false} BetweenAppend(a: seq<SalesRow>, b: seq<SalesRow>, lo: int, hi: int)
    ensures Between(a + b, lo, hi) == Between(a, lo, hi) + Between(b, lo, hi)
    decreases |b|
  {
    if |b| == 0 {
      assert a + b == a;
    } else {
      var init := b[..|b| - 1];
      assert (a + b)[..|a + b| - 1] == a + init && (a + b)[|a + b| - 1] == b[|b| - 1];
      BetweenAppend(a, init, lo, hi);
    }
  }

  lemma BetweenSnoc(a: seq<SalesRow>, x: SalesRow, lo: int, hi: int)
    ensures Between(a + [x], lo, hi) == Between(a, lo, hi) + (if lo <= x.date <= hi then [x] else [])
  {
    assert (a + [x])[..|a + [x]| - 1] == a;
  }

  lemma {:induction false} OfSkuAppend(a: seq<SalesRow>, b: seq<SalesRow>, sku: string)
    ensures OfSku(a + b, sku) == OfSku(a, sku) + OfSku(b, sku)
    decreases |b|
  {
    if |b| == 0 {
      assert a + b == a;
    } else {
      var init := b[..|b| - 1];
      assert (a + b)[..|a + b| - 1] == a + init && (a + b)[|a + b| - 1] == b[|b| - 1];
      OfSkuAppend(a, init, sku);
    }
  }

  lemma {:induction false} DaySumAppend(a: seq<SalesRow>, b: seq<SalesRow>, day: int)
    ensures DaySum(a + b, day) == DaySum(a, day) + DaySum(b, day)
    decreases |b|
  {
    if |b| == 0 {
      assert a + b == a;
    } else {
      var init := b[..|b| - 1];
      assert (a + b)[..|a + b| - 1] == a + init && (a + b)[|a + b| - 1] == b[|b| - 1];
      DaySumAppend(a, init, day);
    }
  }

  /** The earliest date of a non-empty set of rows (`data['Date'].min()`). */
  function MinDate(rows: seq<SalesRow>): (m: int)
    requires |rows| > 0
    ensures forall x :: x in rows ==> m <= x.date
    ensures exists x :: x in rows && x.date == m
  {
    if |rows| == 1 then rows[0].date
    else
      var init := rows[..|rows| - 1];
      var last := rows[|rows| - 1];
      assert rows == init + [last];
      var m0 := MinDate(init);
      if last.date < m0 then last.date else m0
  }

  /** The latest date of a non-empty set of rows (`data['Date'].max()`). */
  function MaxDate(rows: seq<SalesRow>): (m: int)
    requires |rows| > 0
    ensures forall x :: x in rows ==> x.date <= m
    ensures exists x :: x in rows && x.date == m
  {
    if |rows| == 1 then rows[0].date
    else
      var init := rows[..|rows| - 1];
      var last := rows[|rows| - 1];
      assert rows == init + [last];
      var m0 := MaxDate(init);
      if last.date > m0 then last.date else m0
  }

  /** The extreme dates depend only on which rows there are, not on their order. */
  lemma ExtremesOfPermutation(a: seq<SalesRow>, b: seq<SalesRow>)
    requires |a| > 0 && multiset(a) == multiset(b)
    ensures |b| > 0 && MinDate(a) == MinDate(b) && MaxDate(a) == MaxDate(b)
  {
    assert |multiset(b)| == |a|;
    forall x | x in a ensures x in b {
      assert x in multiset(a);
    }
    forall x | x in b ensures x in a {
      assert x in multiset(b);
    }
  }
}
