/**
 * The inventory list page: the three-way stock status, the shop and status
 * filters and the empty-state text.
 */
module Inventory {
  import opened Wrappers
  import opened Seqs
  import opened Domain

  /** The three stock labels, spelled as the page shows and filters them. */
  const OUT_OF_STOCK: string := "Out of Stock"
  const LOW_STOCK: string := "Low Stock"
  const IN_STOCK: string := "In Stock"

  /** `getStatus`: 0 is out of stock, anything else below 10 (negatives too) is low, the rest in stock. */
  function GetStatus(quantity: int): (s: string)
    ensures s == OUT_OF_STOCK || s == LOW_STOCK || s == IN_STOCK
    ensures s == OUT_OF_STOCK <==> quantity == 0
    ensures s == LOW_STOCK <==> quantity != 0 && quantity < 10
    ensures s == IN_STOCK <==> quantity >= 10
  {
    if quantity == 0 then OUT_OF_STOCK
    else if quantity < 10 then LOW_STOCK
    else IN_STOCK
  }

  /** The two filter fields; `""` means the filter is not set. */
  datatype Filters = Filters(shop: string, status: string)

  /** The Clear Filters button. */
  function ClearFilters(f: Filters): (r: Filters)
    ensures r.shop == "" && r.status == ""
  {
    Filters("", "")
  }

  predicate Matches(f: Filters, r: InventoryRecord)
  {
    (f.shop == "" || r.shopId == f.shop) && (f.status == "" || GetStatus(r.quantity) == f.status)
  }

  function MatchesFilters(f: Filters): InventoryRecord -> bool
  {
    (r: InventoryRecord) => Matches(f, r)
  }

  /** `filteredInventories`: the records both filters let through, in list order. */
  function FilteredInventories(inventories: seq<InventoryRecord>, f: Filters): (r: seq<InventoryRecord>)
    ensures IsSubsequence(r, inventories)
    ensures f.shop != "" ==> forall x :: x in r ==> x.shopId == f.shop
    ensures f.status != "" ==> forall x :: x in r ==> GetStatus(x.quantity) == f.status
    ensures forall x :: x in inventories ==>
      (x in r <==> (f.shop == "" || x.shopId == f.shop) && (f.status == "" || GetStatus(x.quantity) == f.status))
    ensures forall x :: multiset(r)[x] == if Matches(f, x) then multiset(inventories)[x] else 0
    ensures f.shop == "" && f.status == "" ==> r == inventories
  {
    FilterIsSubsequence(MatchesFilters(f), inventories);
    UnsetFiltersKeepAll(inventories, f);
    Filter(MatchesFilters(f), inventories)
  }

  lemma UnsetFiltersKeepAll(inventories: seq<InventoryRecord>, f: Filters)
    ensures f.shop == "" && f.status == "" ==> Filter(MatchesFilters(f), inventories) == inventories
  {
    if f.shop == "" && f.status == "" {
      FilterAll(MatchesFilters(f), inventories);
    }
  }

  /** A status filter other than the three labels hides every record. */
  lemma UnknownStatusHidesAll(inventories: seq<InventoryRecord>, f: Filters)
    requires f.status != "" && f.status != OUT_OF_STOCK && f.status != LOW_STOCK && f.status != IN_STOCK
    ensures FilteredInventories(inventories, f) == []
  {
  }

  /**
   * The three status filters partition any shop's list: every record passes
   * exactly one of them, so their lengths add up to the unfiltered length.
   */
  lemma StatusFiltersPartition(inventories: seq<InventoryRecord>, shop: string)
    ensures |FilteredInventories(inventories, Filters(shop, OUT_OF_STOCK))|
          + |FilteredInventories(inventories, Filters(shop, LOW_STOCK))|
          + |FilteredInventories(inventories, Filters(shop, IN_STOCK))|
         == |FilteredInventories(inventories, Filters(shop, ""))|
  {
    var out := MatchesFilters(Filters(shop, OUT_OF_STOCK));
    var low := MatchesFilters(Filters(shop, LOW_STOCK));
    var ins := MatchesFilters(Filters(shop, IN_STOCK));
    StatusPartitionLength(inventories, shop, out, low, ins);
  }

  lemma {:induction false} StatusPartitionLength(
    s: seq<InventoryRecord>, shop: string,
    out: InventoryRecord -> bool, low: InventoryRecord -> bool, ins: InventoryRecord -> bool)
    requires out == MatchesFilters(Filters(shop, OUT_OF_STOCK))
    requires low == MatchesFilters(Filters(shop, LOW_STOCK))
    requires ins == MatchesFilters(Filters(shop, IN_STOCK))
    ensures |Filter(out, s)| + |Filter(low, s)| + |Filter(ins, s)| == |Filter(MatchesFilters(Filters(shop, "")), s)|
  {
    if s != [] {
      StatusPartitionLength(s[1..], shop, out, low, ins);
    }
  }

  /** The text of the placeholder row shown when no record is listed. */
  function EmptyMessage(inventories: seq<InventoryRecord>, f: Filters): (m: Option<string>)
    ensures m.Some? <==> FilteredInventories(inventories, f) == []
    ensures m == Some("No inventories found") <==> inventories == []
    ensures m == Some("No inventories match the current filters") <==>
      inventories != [] && FilteredInventories(inventories, f) == []
  {
    if FilteredInventories(inventories, f) != [] then None
    else if inventories == [] then Some("No inventories found")
    else Some("No inventories match the current filters")
  }
}
