/**
 * The SKU mapping resolver of src/sku_mappings.py: a first-match rule table that rewrites one
 * order-line SKU and quantity into zero or more (SKU, quantity) pairs.
 */
module SkuMappings {

  /** A value of the static mapping table: one target SKU, or a list of (target, multiplier). */
  datatype MappingValue = Target(sku: string) | Weighted(targets: seq<(string, int)>)

  type MappingTable = map<string, MappingValue>

  /** The bundle SKU whose quantity goes, undivided, to both of its components. */
  const BundleSku: string := "8000"
  const BundleTargets: seq<string> := ["80534", "80536"]

  /** Order lines with these SKUs are dropped. */
  const IgnoredSkus: seq<string> := ["8001", "8002", "8003", "8004"]

  /** `SKU_MAPPINGS`. */
  const SkuTable: MappingTable := map["80524-44" := Target("80534"), "80523-20" := Target("80536")]

  /** The rules in the order the source checks them, for an arbitrary mapping table. */
  function Resolve(table: MappingTable, sku: string, quantity: int): (r: seq<(string, int)>)
  {
    if sku == BundleSku then [(BundleTargets[0], quantity), (BundleTargets[1], quantity)]
    else if sku in IgnoredSkus then []
    else if sku in table then
      match table[sku]
      case Target(t) => [(t, quantity)]
      case Weighted(ts) => seq(|ts|, i requires 0 <= i < |ts| => (ts[i].0, ts[i].1 * quantity))
    else [(sku, quantity)]
  }

  /** `apply_sku_mapping(sku, quantity)`. */
  function ApplySkuMapping(sku: string, quantity: int): seq<(string, int)>
  {
    Resolve(SkuTable, sku, quantity)
  }

  /** The bundle rule is checked first, so no table entry can shadow it. */
  lemma BundleFirst(table: MappingTable, quantity: int)
    ensures Resolve(table, "8000", quantity) == [("80534", quantity), ("80536", quantity)]
  {
  }

  /** The ignore rule precedes the table. */
  lemma IgnoredBeforeTable(table: MappingTable, sku: string, quantity: int)
    requires sku in ["8001", "8002", "8003", "8004"]
    ensures Resolve(table, sku, quantity) == []
  {
  }

  /** A single-target entry passes the quantity through to its target. */
  lemma SingleTargetPassesQuantity(table: MappingTable, sku: string, target: string, quantity: int)
    requires sku != "8000" && sku !in ["8001", "8002", "8003", "8004"]
    requires sku in table && table[sku] == Target(target)
    ensures Resolve(table, sku, quantity) == [(target, quantity)]
  {
  }

  /** A list entry scales each multiplier by the quantity and keeps the list's order. */
  lemma WeightedScalesEachTarget(table: MappingTable, sku: string, quantity: int)
    requires sku != "8000" && sku !in ["8001", "8002", "8003", "8004"]
    requires sku in table && table[sku].Weighted?
    ensures var ts := table[sku].targets;
      var r := Resolve(table, sku, quantity);
      |r| == |ts| && forall i :: 0 <= i < |ts| ==> r[i] == (ts[i].0, ts[i].1 * quantity)
  {
  }

  /** Any SKU that no earlier rule matches passes through unchanged. */
  lemma UnmatchedPassesThrough(table: MappingTable, sku: string, quantity: int)
    requires sku != "8000" && sku !in ["8001", "8002", "8003", "8004"] && sku !in table
    ensures Resolve(table, sku, quantity) == [(sku, quantity)]
  {
  }

  /** The concrete outcomes of `apply_sku_mapping` for every rule of the shipped table. */
  lemma ShippedTableOutcomes(sku: string, quantity: int)
    ensures ApplySkuMapping("8000", quantity) == [("80534", quantity), ("80536", quantity)]
    ensures ApplySkuMapping("8001", quantity) == [] && ApplySkuMapping("8002", quantity) == []
    ensures ApplySkuMapping("8003", quantity) == [] && ApplySkuMapping("8004", quantity) == []
    ensures ApplySkuMapping("80524-44", quantity) == [("80534", quantity)]
    ensures ApplySkuMapping("80523-20", quantity) == [("80536", quantity)]
    ensures sku !in {"8000", "8001", "8002", "8003", "8004", "80524-44", "80523-20"} ==>
      ApplySkuMapping(sku, quantity) == [(sku, quantity)]
  {
  }

  /** Every outcome has at most two pairs under the shipped table, and no pair loses quantity:
      each output quantity equals the input quantity. */
  lemma ShippedTableKeepsQuantity(sku: string, quantity: int)
    ensures var r := ApplySkuMapping(sku, quantity);
      |r| <= 2 && forall i :: 0 <= i < |r| ==> r[i].1 == quantity
  {
  }
}
