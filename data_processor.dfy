/**
 * Order flattening, `process_orders` of src/data_processor.py: one (SKU, Quantity, Platform) row
 * per order item with a truthy SKU. Nothing is aggregated and no SKU mapping is applied.
 */
module DataProcessor {
  import opened Wrappers

  /** An order item: `Product.SKU` (absent when `Product` or `SKU` is missing) and `Quantity`. */
  datatype Item = Item(sku: Option<string>, quantity: Option<real>)

  /** An order: its `OrderItems` (absent key: None) and its `Seller.BillbeeShopName`. */
  datatype Order = Order(items: Option<seq<Item>>, shopName: Option<string>)

  /** The response of the order API: its `Data` field, absent when the key is missing. */
  datatype OrdersPayload = OrdersPayload(data: Option<seq<Order>>)

  datatype OrderRow = OrderRow(sku: string, quantity: int, platform: string)

  /** A data frame of order rows together with its column labels. */
  datatype OrderTable = OrderTable(columns: seq<string>, rows: seq<OrderRow>)

  const OrderColumns: seq<string> := ["SKU", "Quantity", "Platform"]
  const UnknownPlatform: string := "Unknown"

  /** Python's `int(x)` on a number: truncation toward zero. */
  function TruncateToInt(x: real): (r: int)
    ensures -1.0 < x - r as real < 1.0
    ensures x >= 0.0 ==> 0 <= r && r as real <= x
    ensures x < 0.0 ==> r <= 0 && x <= r as real
  {
    if x >= 0.0 then x.Floor else -((-x).Floor)
  }

  /** A SKU value is truthy when it is present and not the empty string. */
  predicate Truthy(sku: Option<string>)
  {
    sku.Some? && sku.value != ""
  }

  function ItemsOf(o: Order): seq<Item>
  {
    o.items.GetOr([])
  }

  function PlatformOf(o: Order): string
  {
    o.shopName.GetOr(UnknownPlatform)
  }

  function QuantityOf(it: Item): int
  {
    TruncateToInt(it.quantity.GetOr(0.0))
  }

  /** The rows one order contributes, specified from the first item on. */
  function OrderRows(items: seq<Item>, platform: string): seq<OrderRow>
  {
    if |items| == 0 then []
    else
      (if Truthy(items[0].sku) then [OrderRow(items[0].sku.value, QuantityOf(items[0]), platform)] else [])
      + OrderRows(items[1..], platform)
  }

  /** The rows of all orders, in order-then-item order. */
  function FlattenOrders(orders: seq<Order>): seq<OrderRow>
  {
    if |orders| == 0 then []
    else OrderRows(ItemsOf(orders[0]), PlatformOf(orders[0])) + FlattenOrders(orders[1..])
  }

  /** The data frame `process_orders` returns: the fixed columns when `Data` is missing or empty;
      otherwise the flattened rows, whose column labels exist only if there is at least one row
      (`pd.DataFrame([])` has no columns). */
  function Flatten(payload: OrdersPayload): OrderTable
  {
    var orders := payload.data.GetOr([]);
    if |orders| == 0 then OrderTable(OrderColumns, [])
    else
      var rows := FlattenOrders(orders);
      OrderTable(if |rows| == 0 then [] else OrderColumns, rows)
  }

  method ProcessOrders(payload: OrdersPayload) returns (t: OrderTable)
    ensures t == Flatten(payload)
    ensures payload.data.None? || payload.data == Some([]) ==> t == OrderTable(["SKU", "Quantity", "Platform"], [])
  {
    var orders := payload.data.GetOr([]);
    if |orders| == 0 {
      return OrderTable(OrderColumns, []);
    }
    var processed: seq<OrderRow> := [];
    for i := 0 to |orders|
      invariant processed + FlattenOrders(orders[i..]) == FlattenOrders(orders)
    {
      var items := ItemsOf(orders[i]);
      var platform := PlatformOf(orders[i]);
      ghost var before := processed;
      for j := 0 to |items|
        invariant processed + OrderRows(items[j..], platform) == before + OrderRows(items, platform)
      {
        var sku := items[j].sku;
        var quantity := QuantityOf(items[j]);
        assert OrderRows(items[j..], platform) ==
          (if Truthy(sku) then [OrderRow(sku.value, quantity, platform)] else []) + OrderRows(items[j + 1..], platform);
        if Truthy(sku) {
          processed := processed + [OrderRow(sku.value, quantity, platform)];
        }
      }
      assert items[|items|..] == [];
      assert processed == before + OrderRows(items, platform);
      assert orders[i..][0] == orders[i] && orders[i..][1..] == orders[i + 1..];
      assert FlattenOrders(orders[i..]) == OrderRows(items, platform) + FlattenOrders(orders[i + 1..]);
    }
    t := OrderTable(if |processed| == 0 then [] else OrderColumns, processed);
  }

  // Properties of the flattening.

  function TotalItems(orders: seq<Order>): nat
  {
    if |orders| == 0 then 0 else |ItemsOf(orders[0])| + TotalItems(orders[1..])
  }

  function KeptQuantity(items: seq<Item>): int
  {
    if |items| == 0 then 0
    else (if Truthy(items[0].sku) then QuantityOf(items[0]) else 0) + KeptQuantity(items[1..])
  }

  function TotalKeptQuantity(orders: seq<Order>): int
  {
    if |orders| == 0 then 0 else KeptQuantity(ItemsOf(orders[0])) + TotalKeptQuantity(orders[1..])
  }

  function SumQuantity(rows: seq<OrderRow>): int
  {
    if |rows| == 0 then 0 else rows[0].quantity + SumQuantity(rows[1..])
  }

  lemma {:induction false} SumQuantityAppend(a: seq<OrderRow>, b: seq<OrderRow>)
    ensures SumQuantity(a + b) == SumQuantity(a) + SumQuantity(b)
  {
    if |a| > 0 {
      assert (a + b)[0] == a[0] && (a + b)[1..] == a[1..] + b;
      SumQuantityAppend(a[1..], b);
    } else {
      assert a + b == b;
    }
  }

  lemma {:induction false} OrderRowsFacts(items: seq<Item>, platform: string)
    ensures |OrderRows(items, platform)| <= |items|
    ensures SumQuantity(OrderRows(items, platform)) == KeptQuantity(items)
    ensures forall r :: r in OrderRows(items, platform) ==> r.platform == platform && r.sku != ""
  {
    if |items| > 0 {
      OrderRowsFacts(items[1..], platform);
      var head := if Truthy(items[0].sku) then [OrderRow(items[0].sku.value, QuantityOf(items[0]), platform)] else [];
      SumQuantityAppend(head, OrderRows(items[1..], platform));
    }
  }

  /** At most one row per item, and the quantity sum is that of the kept items: nothing is
      aggregated, split or remapped. */
  lemma {:induction false} FlattenConservesQuantity(orders: seq<Order>)
    ensures |FlattenOrders(orders)| <= TotalItems(orders)
    ensures SumQuantity(FlattenOrders(orders)) == TotalKeptQuantity(orders)
  {
    if |orders| > 0 {
      OrderRowsFacts(ItemsOf(orders[0]), PlatformOf(orders[0]));
      FlattenConservesQuantity(orders[1..]);
      SumQuantityAppend(OrderRows(ItemsOf(orders[0]), PlatformOf(orders[0])), FlattenOrders(orders[1..]));
    }
  }

  /** The rows of an order are exactly its items with a truthy SKU, in item order: the k-th row
      comes from the k-th such item and carries the order's platform. */
  lemma {:induction false} OrderRowsAreKeptItems(items: seq<Item>, platform: string)
    ensures var kept := KeptItems(items);
      var rows := OrderRows(items, platform);
      |rows| == |kept| &&
      forall k :: 0 <= k < |kept| ==>
        rows[k] == OrderRow(kept[k].sku.value, QuantityOf(kept[k]), platform)
  {
    if |items| > 0 {
      OrderRowsAreKeptItems(items[1..], platform);
    }
  }

  /** The items whose SKU is truthy, in their original order. */
  function KeptItems(items: seq<Item>): (r: seq<Item>)
    ensures forall it :: it in r ==> it in items && Truthy(it.sku)
  {
    if |items| == 0 then []
    else (if Truthy(items[0].sku) then [items[0]] else []) + KeptItems(items[1..])
  }

  /** Every output row carries the platform label of some order and a non-empty SKU. */
  lemma {:induction false} FlattenRowsCarryPlatform(orders: seq<Order>)
    ensures forall r :: r in FlattenOrders(orders) ==>
      r.sku != "" && exists o :: o in orders && r.platform == PlatformOf(o)
  {
    if |orders| > 0 {
      OrderRowsFacts(ItemsOf(orders[0]), PlatformOf(orders[0]));
      FlattenRowsCarryPlatform(orders[1..]);
      forall r | r in FlattenOrders(orders)
        ensures r.sku != "" && exists o :: o in orders && r.platform == PlatformOf(o)
      {
        if r in OrderRows(ItemsOf(orders[0]), PlatformOf(orders[0])) {
          assert orders[0] in orders;
        } else {
          var o :| o in orders[1..] && r.platform == PlatformOf(o);
          assert o in orders;
        }
      }
    }
  }
}
