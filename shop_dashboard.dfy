/**
 * The shop manager's dashboard: stock statistics over the shop's inventory,
 * pending deliveries, the per-row stock label and the alert banner.
 */
module ShopDashboard {
  import opened Seqs
  import opened Domain
  import Inventory

  predicate IsOutOfStock(r: InventoryRecord) { r.quantity == 0 }

  predicate IsLowStock(r: InventoryRecord) { r.quantity > 0 && r.quantity < 10 }

  predicate IsStocked(r: InventoryRecord) { r.quantity != 0 }

  /** `outOfStockItems`: the records with quantity 0, in order. */
  function OutOfStockItems(inventory: seq<InventoryRecord>): (r: seq<InventoryRecord>)
    ensures IsSubsequence(r, inventory)
    ensures forall x :: x in r <==> x in inventory && x.quantity == 0
    ensures forall x :: multiset(r)[x] == if x.quantity == 0 then multiset(inventory)[x] else 0
  {
    FilterIsSubsequence(IsOutOfStock, inventory);
    Filter(IsOutOfStock, inventory)
  }

  /** `lowStockItems`: the records with 0 < quantity < 10, in order. */
  function LowStockItems(inventory: seq<InventoryRecord>): (r: seq<InventoryRecord>)
    ensures IsSubsequence(r, inventory)
    ensures forall x :: x in r <==> x in inventory && 0 < x.quantity < 10
    ensures forall x :: multiset(r)[x] == if 0 < x.quantity < 10 then multiset(inventory)[x] else 0
    ensures forall x :: x in r ==> x !in OutOfStockItems(inventory)
  {
    FilterIsSubsequence(IsLowStock, inventory);
    Filter(IsLowStock, inventory)
  }

  /** The four stat cards. */
  datatype ShopStats = ShopStats(totalInventory: int, productsInStock: int, pendingDeliveries: nat, outOfStock: nat)

  /**
   * The stat cards: the total number of units, the records not out of stock
   * (the length minus the out-of-stock count), the pending incoming dispatches
   * and the out-of-stock records.
   */
  function Stats(inventory: seq<InventoryRecord>, incoming: seq<Dispatch>): (s: ShopStats)
    ensures s.totalInventory == TotalQuantity(inventory)
    ensures s.totalInventory == TotalQuantity(Filter(IsStocked, inventory))
    ensures s.productsInStock == |inventory| - |OutOfStockItems(inventory)|
    ensures 0 <= s.productsInStock == |Filter(IsStocked, inventory)|
    ensures s.pendingDeliveries == |PendingDispatches(incoming)| <= |incoming|
    ensures s.outOfStock == |OutOfStockItems(inventory)| <= |inventory|
  {
    OutOfStockAddsNothing(inventory);
    StockedCount(inventory);
    ShopStats(
      TotalQuantity(inventory),
      |inventory| - |OutOfStockItems(inventory)|,
      |PendingDispatches(incoming)|,
      |OutOfStockItems(inventory)|)
  }

  /** Out-of-stock records contribute nothing to the total. */
  lemma OutOfStockAddsNothing(inventory: seq<InventoryRecord>)
    ensures TotalQuantity(inventory) == TotalQuantity(Filter(IsStocked, inventory))
  {
    SumOfFilterSplit(Quantity, IsStocked, IsOutOfStock, inventory);
    SumOfZeros(Quantity, Filter(IsOutOfStock, inventory));
  }

  /** The in-stock count is the number of records whose quantity is not 0. */
  lemma StockedCount(inventory: seq<InventoryRecord>)
    ensures |inventory| - |OutOfStockItems(inventory)| == |Filter(IsStocked, inventory)|
  {
    FilterSplitLength(IsStocked, IsOutOfStock, inventory);
  }

  /** The Status cell of a row of the Current Inventory table. */
  function RowLabel(quantity: int): (s: string)
    ensures s == Inventory.OUT_OF_STOCK <==> quantity == 0
    ensures s == Inventory.LOW_STOCK <==> 0 < quantity < 10
    ensures s == Inventory.IN_STOCK <==> quantity < 0 || quantity >= 10
  {
    if quantity == 0 then Inventory.OUT_OF_STOCK
    else if quantity > 0 && quantity < 10 then Inventory.LOW_STOCK
    else Inventory.IN_STOCK
  }

  /** A row's label agrees with the list it is counted in. */
  lemma RowLabelMatchesLists(inventory: seq<InventoryRecord>, x: InventoryRecord)
    requires x in inventory
    ensures RowLabel(x.quantity) == Inventory.OUT_OF_STOCK <==> x in OutOfStockItems(inventory)
    ensures RowLabel(x.quantity) == Inventory.LOW_STOCK <==> x in LowStockItems(inventory)
  {
  }

  /**
   * The row label agrees with the inventory page's `getStatus` exactly for
   * quantities that are not negative: a negative quantity is "In Stock" here
   * and "Low Stock" there.
   */
  lemma RowLabelVersusGetStatus(quantity: int)
    ensures RowLabel(quantity) == Inventory.GetStatus(quantity) <==> quantity >= 0
    ensures quantity < 0 ==> RowLabel(quantity) == Inventory.IN_STOCK && Inventory.GetStatus(quantity) == Inventory.LOW_STOCK
  {
  }

  /** The Inventory Alerts banner shows when something is low on stock or out of stock. */
  function ShowAlert(inventory: seq<InventoryRecord>): (b: bool)
    ensures b <==> exists x :: x in inventory && 0 <= x.quantity < 10
  {
    var low, out := LowStockItems(inventory), OutOfStockItems(inventory);
    assert low != [] ==> low[0] in low;
    assert out != [] ==> out[0] in out;
    |low| > 0 || |out| > 0
  }
}
