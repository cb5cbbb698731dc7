/**
 * The two inventory tables of src/inventory_management.py: the initial stock snapshot per SKU
 * and the supplier deliveries per (SKU, date), with their loaders (an absent file is an empty
 * table; initial-stock SKUs are normalised through `str(int(float(x)))`) and their
 * replace-or-append updates. The stored CSV files are fields of `InventoryStore`.
 */
module Inventory {
  import opened Wrappers

  /** A row of the initial stock snapshot: `SKU`, `InitialQuantity`, `Date`. */
  datatype InitialRow = InitialRow(sku: string, quantity: int, date: int)

  /** A row of the supplier deliveries: `SKU`, `SupplierDelivery`, `Date`, `Status`. */
  datatype DeliveryRow = DeliveryRow(sku: string, quantity: int, date: int, status: string)

  // ----- str(int(float(x))) -----

  predicate IsDigit(c: char)
  {
    '0' <= c <= '9'
  }

  predicate AllDigits(s: string)
  {
    forall i :: 0 <= i < |s| ==> IsDigit(s[i])
  }

  /** The value of a string of decimal digits (0 for the empty string). */
  function DigitsValue(s: string): nat
    requires AllDigits(s)
  {
    if |s| == 0 then 0
    else
      assert AllDigits(s[..|s| - 1]);
      DigitsValue(s[..|s| - 1]) * 10 + (s[|s| - 1] as int - '0' as int)
  }

  function DigitChar(d: nat): (c: char)
    requires d < 10
    ensures IsDigit(c) && c as int - '0' as int == d
  {
    ('0' as int + d) as char
  }

  /** `str(n)` of a natural number: its decimal digits without leading zeros. */
  function NatToString(n: nat): (s: string)
    ensures |s| >= 1 && AllDigits(s)
    ensures |s| > 1 ==> s[0] != '0'
  {
    if n < 10 then [DigitChar(n)]
    else
      var init := NatToString(n / 10);
      var s := init + [DigitChar(n % 10)];
      assert forall i :: 0 <= i < |init| ==> s[i] == init[i];
      s
  }

  /** `str(n)` of a Python `int`. */
  function IntToString(n: int): string
  {
    if n < 0 then "-" + NatToString(-n) else NatToString(n)
  }

  /** The first position of `c` in `s`, or `|s|` when there is none. */
  function IndexOf(s: string, c: char): (i: nat)
    ensures i <= |s|
    ensures forall j :: 0 <= j < i ==> s[j] != c
    ensures i < |s| ==> s[i] == c
  {
    if |s| == 0 then 0
    else if s[0] == c then 0
    else 1 + IndexOf(s[1..], c)
  }

  /** `int(float(s))` for a decimal literal `[+-]digits[.digits]`: the value truncated toward
      zero, or `None` where `float` raises. */
  function TruncatedValue(s: string): Option<int>
  {
    var signed := |s| > 0 && (s[0] == '-' || s[0] == '+');
    var body := if signed then s[1..] else s;
    var dot := IndexOf(body, '.');
    var whole := body[..dot];
    var fraction := if dot < |body| then body[dot + 1..] else "";
    if AllDigits(whole) && AllDigits(fraction) && |whole| + |fraction| > 0 then
      var v: int := DigitsValue(whole);
      Some(if signed && s[0] == '-' then -v else v)
    else
      None
  }

  /** The SKU normalisation of the initial stock loader: `str(int(float(x)))`. */
  function NormalizeSku(s: string): Option<string>
  {
    match TruncatedValue(s)
    case None => None
    case Some(v) => Some(IntToString(v))
  }

  /** The characters of a decimal literal. */
  predicate NumeralChar(c: char)
  {
    IsDigit(c) || c == '+' || c == '-' || c == '.'
  }

  /** A text that `float` accepts is made of digits, signs and points only, so a letter
      anywhere makes it raise. */
  lemma TruncatedValueAlphabet(s: string)
    requires TruncatedValue(s).Some?
    ensures forall i :: 0 <= i < |s| ==> NumeralChar(s[i])
  {
    var signed := |s| > 0 && (s[0] == '-' || s[0] == '+');
    var off := if signed then 1 else 0;
    var body := if signed then s[1..] else s;
    var dot := IndexOf(body, '.');
    var fraction := if dot < |body| then body[dot + 1..] else "";
    forall i | 0 <= i < |s| ensures NumeralChar(s[i]) {
      if i >= off {
        var j := i - off;
        assert body[j] == s[i];
        if j < dot {
          assert body[..dot][j] == s[i];
        } else if j > dot {
          assert fraction[j - dot - 1] == s[i];
        }
      }
    }
  }

  lemma {:induction false} DigitsOfNat(n: nat)
    ensures DigitsValue(NatToString(n)) == n
  {
    var s := NatToString(n);
    if n >= 10 {
      DigitsOfNat(n / 10);
      assert s[..|s| - 1] == NatToString(n / 10);
    }
  }

  lemma NoDotInDigits(s: string)
    requires AllDigits(s)
    ensures IndexOf(s, '.') == |s|
  {
    var i := IndexOf(s, '.');
    assert i < |s| ==> IsDigit(s[i]);
  }

  /** Past a run of digits, the search for a non-digit continues in what follows. */
  lemma {:induction false} IndexOfAfterDigits(d: string, rest: string, c: char)
    requires AllDigits(d) && !IsDigit(c)
    ensures IndexOf(d + rest, c) == |d| + IndexOf(rest, c)
  {
    if |d| > 0 {
      assert (d + rest)[0] == d[0];
      assert (d + rest)[1..] == d[1..] + rest;
      IndexOfAfterDigits(d[1..], rest, c);
    } else {
      assert d + rest == rest;
    }
  }

  /** Reading back what `str` writes gives the number again. */
  lemma TruncatedValueOfString(n: int)
    ensures TruncatedValue(IntToString(n)) == Some(n)
  {
    var s := IntToString(n);
    var m: nat := if n < 0 then -n else n;
    var digits := NatToString(m);
    DigitsOfNat(m);
    NoDotInDigits(digits);
    assert digits[..|digits|] == digits;
    if n < 0 {
      assert s[0] == '-' && s[1..] == digits;
    } else {
      assert IsDigit(s[0]);
    }
  }

  /** A SKU that is already `str` of an integer normalises to itself. */
  lemma NormalizeCanonical(n: int)
    ensures NormalizeSku(IntToString(n)) == Some(IntToString(n))
  {
    TruncatedValueOfString(n);
  }

  /** Normalising twice is normalising once. */
  lemma NormalizeIdempotent(s: string)
    requires NormalizeSku(s).Some?
    ensures NormalizeSku(NormalizeSku(s).value) == NormalizeSku(s)
  {
    NormalizeCanonical(TruncatedValue(s).value);
  }

  /** A float-formatted SKU (as `read_csv` gives for a column with gaps) loses its `.0`. */
  lemma NormalizeDropsFraction(n: nat)
    ensures NormalizeSku(NatToString(n) + ".0") == Some(NatToString(n))
  {
    var digits := NatToString(n);
    var s := digits + ".0";
    IndexOfAfterDigits(digits, ".0", '.');
    assert IndexOf(".0", '.') == 0;
    assert s[0] == digits[0] && IsDigit(digits[0]);
    var dot := IndexOf(s, '.');
    assert dot == |digits| && dot < |s|;
    assert s[..dot] == digits;
    assert s[dot + 1..] == "0" && AllDigits("0");
    DigitsOfNat(n);
    assert TruncatedValue(s) == Some(n);
    assert IntToString(n) == digits;
  }

  /** A SKU that is not a number makes `float` raise. */
  lemma NormalizeRejectsLetters(s: string)
    requires |s| > 0 && 'a' <= s[0] <= 'z'
    ensures NormalizeSku(s).None?
  {
    var dot := IndexOf(s, '.');
    assert dot > 0;
    assert s[..dot][0] == s[0];
  }

  // ----- the loaders -----

  /** `load_initial_inventory` of the stored file: no file is an empty table, and a SKU that does
      not normalise raises inside the `try`, which also returns the empty table. */
  function LoadInitialInventory(file: Option<seq<InitialRow>>): seq<InitialRow>
  {
    match file
    case None => []
    case Some(rows) =>
      if forall i :: 0 <= i < |rows| ==> NormalizeSku(rows[i].sku).Some? then
        seq(|rows|, i requires 0 <= i < |rows| => rows[i].(sku := NormalizeSku(rows[i].sku).value))
      else []
  }

  /** `load_supplier_deliveries` of the stored file: no file is an empty table; `astype(str)`
      keeps the SKU text as it was written. */
  function LoadSupplierDeliveries(file: Option<seq<DeliveryRow>>): seq<DeliveryRow>
  {
    file.GetOr([])
  }

  /** No file gives empty tables. */
  lemma LoadDefaults()
    ensures LoadInitialInventory(None) == [] && LoadSupplierDeliveries(None) == []
  {
  }

  /** The loaded snapshot is the file row by row with its SKUs normalised, or empty when a SKU
      fails; every loaded SKU is in normal form. */
  lemma LoadInitialNormalizes(file: Option<seq<InitialRow>>)
    requires file.Some?
    ensures var t := LoadInitialInventory(file);
      (t == [] || |t| == |file.value|) &&
      (forall i :: 0 <= i < |t| ==>
        t[i].quantity == file.value[i].quantity && t[i].date == file.value[i].date &&
        NormalizeSku(file.value[i].sku) == Some(t[i].sku) && NormalizeSku(t[i].sku) == Some(t[i].sku))
    ensures (exists i :: 0 <= i < |file.value| && NormalizeSku(file.value[i].sku).None?) ==> LoadInitialInventory(file) == []
  {
    var t := LoadInitialInventory(file);
    forall i | 0 <= i < |t| ensures NormalizeSku(t[i].sku) == Some(t[i].sku) {
      NormalizeIdempotent(file.value[i].sku);
    }
  }

  /** A table whose SKUs are all normalised loads back unchanged. */
  lemma ReloadNormalized(t: seq<InitialRow>)
    requires forall i :: 0 <= i < |t| ==> NormalizeSku(t[i].sku) == Some(t[i].sku)
    ensures LoadInitialInventory(Some(t)) == t
  {
  }

  // ----- update_initial_inventory -----

  predicate HasSku(t: seq<InitialRow>, sku: string)
  {
    exists i :: 0 <= i < |t| && t[i].sku == sku
  }

  /** A row-wise update that keeps the SKU of the SKU's rows keeps the SKU. */
  lemma HasSkuKept(t: seq<InitialRow>, r: seq<InitialRow>, sku: string)
    requires |r| == |t| && HasSku(t, sku)
    requires forall i :: 0 <= i < |t| && t[i].sku == sku ==> r[i].sku == sku
    ensures HasSku(r, sku)
  {
    var i :| 0 <= i < |t| && t[i].sku == sku;
    assert r[i].sku == sku;
  }

  /** The table after `update_initial_inventory`: every row of the SKU gets the new quantity and
      date, or one row is appended when the SKU is new. */
  function UpsertInitial(t: seq<InitialRow>, sku: string, quantity: int, date: int): (r: seq<InitialRow>)
    ensures HasSku(r, sku)
    ensures |r| == if HasSku(t, sku) then |t| else |t| + 1
  {
    var row := InitialRow(sku, quantity, date);
    if HasSku(t, sku) then
      var r := seq(|t|, i requires 0 <= i < |t| => if t[i].sku == sku then row else t[i]);
      HasSkuKept(t, r, sku);
      r
    else
      var r := t + [row];
      assert r[|t|] == row;
      r
  }

  /** A known SKU keeps the row count and overwrites exactly its own rows. */
  lemma UpsertInitialKnown(t: seq<InitialRow>, sku: string, quantity: int, date: int)
    requires HasSku(t, sku)
    ensures var r := UpsertInitial(t, sku, quantity, date);
      |r| == |t| &&
      (forall i :: 0 <= i < |t| && t[i].sku == sku ==> r[i] == InitialRow(sku, quantity, date)) &&
      (forall i :: 0 <= i < |t| && t[i].sku != sku ==> r[i] == t[i])
  {
  }

  /** A new SKU appends exactly one row at the end. */
  lemma UpsertInitialNew(t: seq<InitialRow>, sku: string, quantity: int, date: int)
    requires !HasSku(t, sku)
    ensures var r := UpsertInitial(t, sku, quantity, date);
      |r| == |t| + 1 && r[..|t|] == t && r[|t|] == InitialRow(sku, quantity, date)
  {
  }

  /** Afterwards the SKU is present, and every row of it carries the new values. */
  lemma UpsertInitialLookup(t: seq<InitialRow>, sku: string, quantity: int, date: int)
    ensures var r := UpsertInitial(t, sku, quantity, date);
      HasSku(r, sku) && forall i :: 0 <= i < |r| && r[i].sku == sku ==> r[i] == InitialRow(sku, quantity, date)
  {
    var r := UpsertInitial(t, sku, quantity, date);
    if HasSku(t, sku) {
      var i :| 0 <= i < |t| && t[i].sku == sku;
      assert r[i].sku == sku;
    } else {
      assert r[|t|].sku == sku;
    }
  }

  /** Repeating the update changes nothing more. */
  lemma UpsertInitialIdempotent(t: seq<InitialRow>, sku: string, quantity: int, date: int)
    ensures UpsertInitial(UpsertInitial(t, sku, quantity, date), sku, quantity, date) == UpsertInitial(t, sku, quantity, date)
  {
    var r := UpsertInitial(t, sku, quantity, date);
    UpsertInitialLookup(t, sku, quantity, date);
    var rr := UpsertInitial(r, sku, quantity, date);
    assert |rr| == |r|;
    forall i | 0 <= i < |r| ensures rr[i] == r[i] {
    }
  }

  // ----- update_supplier_delivery -----

  predicate HasDelivery(t: seq<DeliveryRow>, sku: string, date: int)
  {
    exists i :: 0 <= i < |t| && t[i].sku == sku && t[i].date == date
  }

  /** A row-wise update that keeps every row's SKU and date keeps the (SKU, date) pairs. */
  lemma HasDeliveryKept(t: seq<DeliveryRow>, r: seq<DeliveryRow>, sku: string, date: int)
    requires |r| == |t| && HasDelivery(t, sku, date)
    requires forall i :: 0 <= i < |t| ==> r[i].sku == t[i].sku && r[i].date == t[i].date
    ensures HasDelivery(r, sku, date)
  {
    var i :| 0 <= i < |t| && t[i].sku == sku && t[i].date == date;
    assert r[i].sku == sku && r[i].date == date;
  }

  /** The table after `update_supplier_delivery`: the rows of the (SKU, date) pair get the new
      quantity and status, or one row is appended when there is none. */
  function UpsertDelivery(t: seq<DeliveryRow>, sku: string, quantity: int, date: int, status: string): (r: seq<DeliveryRow>)
    ensures HasDelivery(r, sku, date)
    ensures |r| == if HasDelivery(t, sku, date) then |t| else |t| + 1
  {
    if HasDelivery(t, sku, date) then
      var r := seq(|t|, i requires 0 <= i < |t| =>
        if t[i].sku == sku && t[i].date == date then t[i].(quantity := quantity, status := status) else t[i]);
      HasDeliveryKept(t, r, sku, date);
      r
    else
      var r := t + [DeliveryRow(sku, quantity, date, status)];
      assert r[|t|].sku == sku && r[|t|].date == date;
      r
  }

  /** A known (SKU, date) keeps the row count, updates quantity and status of exactly its rows,
      and leaves their SKU and date, and every other row, as they were. */
  lemma UpsertDeliveryKnown(t: seq<DeliveryRow>, sku: string, quantity: int, date: int, status: string)
    requires HasDelivery(t, sku, date)
    ensures var r := UpsertDelivery(t, sku, quantity, date, status);
      |r| == |t| &&
      (forall i :: 0 <= i < |t| && t[i].sku == sku && t[i].date == date ==>
        r[i] == DeliveryRow(sku, quantity, date, status)) &&
      (forall i :: 0 <= i < |t| && (t[i].sku != sku || t[i].date != date) ==> r[i] == t[i])
  {
  }

  /** A new (SKU, date) appends exactly one row at the end. */
  lemma UpsertDeliveryNew(t: seq<DeliveryRow>, sku: string, quantity: int, date: int, status: string)
    requires !HasDelivery(t, sku, date)
    ensures var r := UpsertDelivery(t, sku, quantity, date, status);
      |r| == |t| + 1 && r[..|t|] == t && r[|t|] == DeliveryRow(sku, quantity, date, status)
  {
  }

  /** Repeating the update changes nothing more. */
  lemma UpsertDeliveryIdempotent(t: seq<DeliveryRow>, sku: string, quantity: int, date: int, status: string)
    ensures UpsertDelivery(UpsertDelivery(t, sku, quantity, date, status), sku, quantity, date, status)
         == UpsertDelivery(t, sku, quantity, date, status)
  {
    var r := UpsertDelivery(t, sku, quantity, date, status);
    if HasDelivery(t, sku, date) {
      var i :| 0 <= i < |t| && t[i].sku == sku && t[i].date == date;
      assert r[i].sku == sku && r[i].date == date;
    } else {
      assert r[|t|].sku == sku && r[|t|].date == date;
    }
    var rr := UpsertDelivery(r, sku, quantity, date, status);
    assert |rr| == |r|;
    forall i | 0 <= i < |r| ensures rr[i] == r[i] {
    }
  }

  /** `update_supplier_delivery` as the deliveries form calls it, with the whole-number SKU
      `n`: the loaded SKU column is text, so comparing it with a number matches no row and
      the row is always appended; once saved and reloaded, its SKU reads as `str(n)`. */
  function FormDeliveryAsWritten(t: seq<DeliveryRow>, n: nat, quantity: int, date: int, status: string): seq<DeliveryRow>
  {
    t + [DeliveryRow(NatToString(n), quantity, date, status)]
  }

  /** Entering a delivery the table already holds adds a second row for the same SKU and
      date instead of updating the first. */
  lemma FormDeliveryDuplicates(t: seq<DeliveryRow>, n: nat, quantity: int, date: int, status: string)
    requires HasDelivery(t, NatToString(n), date)
    ensures var r := FormDeliveryAsWritten(t, n, quantity, date, status);
      |r| == |t| + 1 && r[..|t|] == t &&
      exists i :: 0 <= i < |t| && r[i].sku == r[|t|].sku && r[i].date == r[|t|].date
  {
    var r := FormDeliveryAsWritten(t, n, quantity, date, status);
    var i :| 0 <= i < |t| && t[i].sku == NatToString(n) && t[i].date == date;
    assert r[i] == t[i];
  }

  /** Submitting the same form twice leaves two rows where one was meant. */
  lemma FormDeliveryTwice(t: seq<DeliveryRow>, n: nat, quantity: int, date: int, status: string)
    ensures var once := FormDeliveryAsWritten(t, n, quantity, date, status);
      FormDeliveryAsWritten(once, n, quantity, date, status) != once
  {
    var once := FormDeliveryAsWritten(t, n, quantity, date, status);
    assert |FormDeliveryAsWritten(once, n, quantity, date, status)| == |once| + 1;
  }

  /** The form's delivery with the SKU compared as the text the table holds: it updates the
      (SKU, date) rows when there are any, and a repeated submission changes nothing. */
  function FormDelivery(t: seq<DeliveryRow>, n: nat, quantity: int, date: int, status: string): (r: seq<DeliveryRow>)
    ensures HasDelivery(t, NatToString(n), date) ==> |r| == |t|
    ensures !HasDelivery(t, NatToString(n), date) ==> r == t + [DeliveryRow(NatToString(n), quantity, date, status)]
  {
    UpsertDelivery(t, NatToString(n), quantity, date, status)
  }

  lemma FormDeliveryIdempotent(t: seq<DeliveryRow>, n: nat, quantity: int, date: int, status: string)
    ensures var once := FormDelivery(t, n, quantity, date, status);
      FormDelivery(once, n, quantity, date, status) == once
  {
    UpsertDeliveryIdempotent(t, NatToString(n), quantity, date, status);
  }

  // ----- the stored tables -----

  /** The two CSV files, `None` while a file does not exist. */
  class InventoryStore {
    var initialFile: Option<seq<InitialRow>>
    var deliveryFile: Option<seq<DeliveryRow>>

    constructor (initial0: Option<seq<InitialRow>>, deliveries0: Option<seq<DeliveryRow>>)
      ensures initialFile == initial0 && deliveryFile == deliveries0
    {
      initialFile := initial0;
      deliveryFile := deliveries0;
    }

    /** `update_initial_inventory(sku, quantity, date)`: load, overwrite the SKU's rows in place
        or append one, save, and return the table. */
    method UpdateInitialInventory(sku: string, quantity: int, date: int) returns (table: seq<InitialRow>)
      modifies this`initialFile
      ensures table == UpsertInitial(LoadInitialInventory(old(initialFile)), sku, quantity, date)
      ensures initialFile == Some(table)
    {
      table := LoadInitialInventory(initialFile);
      ghost var loaded := table;
      var row := InitialRow(sku, quantity, date);
      if HasSku(table, sku) {
        for i := 0 to |table|
          invariant |table| == |loaded|
          invariant forall j :: 0 <= j < |table| ==>
            table[j] == if j < i && loaded[j].sku == sku then row else loaded[j]
        {
          if table[i].sku == sku {
            table := table[i := row];
          }
        }
      } else {
        table := table + [row];
      }
      assert table == UpsertInitial(loaded, sku, quantity, date);
      initialFile := Some(table);
    }

    /** `update_supplier_delivery(sku, quantity, date, status)`: load, overwrite quantity and
        status of the (SKU, date) rows in place or append one, save, and return the table. */
    method UpdateSupplierDelivery(sku: string, quantity: int, date: int, status: string)
      returns (table: seq<DeliveryRow>)
      modifies this`deliveryFile
      ensures table == UpsertDelivery(LoadSupplierDeliveries(old(deliveryFile)), sku, quantity, date, status)
      ensures deliveryFile == Some(table)
    {
      table := LoadSupplierDeliveries(deliveryFile);
      if HasDelivery(table, sku, date) {
        ghost var loaded := table;
        for i := 0 to |table|
          invariant |table| == |loaded|
          invariant forall j :: 0 <= j < |table| ==>
            table[j] == if j < i && loaded[j].sku == sku && loaded[j].date == date
                        then loaded[j].(quantity := quantity, status := status) else loaded[j]
        {
          if table[i].sku == sku && table[i].date == date {
            table := table[i := table[i].(quantity := quantity, status := status)];
          }
        }
      } else {
        table := table + [DeliveryRow(sku, quantity, date, status)];
      }
      deliveryFile := Some(table);
    }
  }

  /** With a SKU in normal form, the saved snapshot loads back as saved, so a second identical
      `update_initial_inventory` call leaves the file as the first one did. */
  lemma UpdateInitialTwice(file: Option<seq<InitialRow>>, sku: string, quantity: int, date: int)
    requires NormalizeSku(sku) == Some(sku)
    ensures var once := UpsertInitial(LoadInitialInventory(file), sku, quantity, date);
      LoadInitialInventory(Some(once)) == once &&
      UpsertInitial(LoadInitialInventory(Some(once)), sku, quantity, date) == once
  {
    var loaded := LoadInitialInventory(file);
    var once := UpsertInitial(loaded, sku, quantity, date);
    if file.Some? {
      LoadInitialNormalizes(file);
    }
    forall i | 0 <= i < |once| ensures NormalizeSku(once[i].sku) == Some(once[i].sku) {
      if i < |loaded| && once[i] == loaded[i] {
      } else {
        UpsertInitialLookup(loaded, sku, quantity, date);
        assert once[i].sku == sku;
      }
    }
    ReloadNormalized(once);
    UpsertInitialIdempotent(loaded, sku, quantity, date);
  }

  /** A SKU written with a trailing `.0` (say `"80534.0"`) is stored as given but reloaded as
      `"80534"`, so repeating the call appends a second row instead of overwriting the first. */
  lemma UpdateInitialUnnormalizedAppendsAgain(n: nat, quantity: int, date: int)
    ensures var sku := NatToString(n) + ".0";
      var once := UpsertInitial(LoadInitialInventory(None), sku, quantity, date);
      |UpsertInitial(LoadInitialInventory(Some(once)), sku, quantity, date)| == 2
  {
    UnnormalizedEntryReloaded(n, quantity, date);
  }

  /** Entering "n.0" into the empty table and reloading gives the row for "n", which the
      next upsert of "n.0" extends by a second row. */
  lemma UnnormalizedEntryReloaded(n: nat, quantity: int, date: int)
    ensures var sku := NatToString(n) + ".0";
      var row := InitialRow(NatToString(n), quantity, date);
      var once := UpsertInitial(LoadInitialInventory(None), sku, quantity, date);
      LoadInitialInventory(Some(once)) == [row] &&
      UpsertInitial([row], sku, quantity, date) == [row, InitialRow(sku, quantity, date)]
  {
    var canonical := NatToString(n);
    var sku := canonical + ".0";
    var row := InitialRow(canonical, quantity, date);
    NormalizeDropsFraction(n);
    assert UpsertInitial([], sku, quantity, date) == [InitialRow(sku, quantity, date)];
    ReloadSingle(sku, canonical, quantity, date);
    assert canonical != sku by {
      assert |sku| == |canonical| + 2;
    }
    assert !HasSku([row], sku);
  }

  /** Entering "n.0" twice and loading the table gives two rows for "n". */
  lemma UnnormalizedEntryLoadsTwice(n: nat, quantity: int, date: int)
    ensures var sku := NatToString(n) + ".0";
      var once := UpsertInitial(LoadInitialInventory(None), sku, quantity, date);
      var twice := UpsertInitial(LoadInitialInventory(Some(once)), sku, quantity, date);
      var row := InitialRow(NatToString(n), quantity, date);
      LoadInitialInventory(Some(twice)) == [row, row]
  {
    var canonical := NatToString(n);
    UnnormalizedEntryReloaded(n, quantity, date);
    NormalizeDropsFraction(n);
    NormalizeCanonical(n);
    ReloadPair(InitialRow(canonical, quantity, date), InitialRow(canonical + ".0", quantity, date), canonical);
  }

  /** Two rows whose SKUs both normalise to `canonical` load as two rows with that SKU. */
  lemma ReloadPair(a: InitialRow, b: InitialRow, canonical: string)
    requires NormalizeSku(a.sku) == Some(canonical) && NormalizeSku(b.sku) == Some(canonical)
    requires a.sku == canonical
    ensures LoadInitialInventory(Some([a, b])) == [a, b.(sku := canonical)]
  {
  }

  lemma ReloadSingle(sku: string, canonical: string, quantity: int, date: int)
    requires NormalizeSku(sku) == Some(canonical)
    ensures LoadInitialInventory(Some([InitialRow(sku, quantity, date)])) == [InitialRow(canonical, quantity, date)]
  {
  }
}
