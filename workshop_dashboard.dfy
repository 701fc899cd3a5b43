/**
 * The workshop manager's dashboard: stock statistics over the workshop's
 * inventory, pending incoming dispatches and the per-row stock label. Its
 * low-stock rule is `quantity < 10`, which, unlike the shop dashboard's,
 * includes records with quantity 0.
 */
module WorkshopDashboard {
  import opened Seqs
  import opened Domain
  import Inventory
  import ShopDashboard

  predicate IsLowStock(r: InventoryRecord) { r.quantity < 10 }

  /** `lowStockItems`: the records with quantity below 10, zero and negatives included, in order. */
  function LowStockItems(inventory: seq<InventoryRecord>): (r: seq<InventoryRecord>)
    ensures IsSubsequence(r, inventory)
    ensures forall x :: x in r <==> x in inventory && x.quantity < 10
    ensures forall x :: multiset(r)[x] == if x.quantity < 10 then multiset(inventory)[x] else 0
  {
    FilterIsSubsequence(IsLowStock, inventory);
    Filter(IsLowStock, inventory)
  }

  /** The four stat cards. */
  datatype WorkshopStats = WorkshopStats(totalInventory: int, inventoryItems: nat, pendingIncoming: nat, lowStock: nat)

  /** The stat cards: units in stock, number of records, pending incoming dispatches, low-stock records. */
  function Stats(inventory: seq<InventoryRecord>, incoming: seq<Dispatch>): (s: WorkshopStats)
    ensures s.totalInventory == TotalQuantity(inventory)
    ensures s.inventoryItems == |inventory|
    ensures s.pendingIncoming == |PendingDispatches(incoming)| <= |incoming|
    ensures s.lowStock == |LowStockItems(inventory)| <= |inventory|
  {
    WorkshopStats(TotalQuantity(inventory), |inventory|, |PendingDispatches(incoming)|, |LowStockItems(inventory)|)
  }

  predicate IsNegative(r: InventoryRecord) { r.quantity < 0 }

  /**
   * The two dashboards' low-stock rules, side by side: the workshop's list holds
   * exactly the shop's low-stock records, its out-of-stock records and the
   * records with negative quantity, with the same multiplicities.
   */
  lemma LowStockVersusShop(inventory: seq<InventoryRecord>)
    ensures multiset(LowStockItems(inventory)) ==
      multiset(ShopDashboard.LowStockItems(inventory)) +
      multiset(ShopDashboard.OutOfStockItems(inventory)) +
      multiset(Filter(IsNegative, inventory))
  {
    var w := LowStockItems(inventory);
    var l := ShopDashboard.LowStockItems(inventory);
    var o := ShopDashboard.OutOfStockItems(inventory);
    var n := Filter(IsNegative, inventory);
    forall x ensures multiset(w)[x] == (multiset(l) + multiset(o) + multiset(n))[x] {
    }
  }

  /** With no negative quantities, the workshop counts as low what the shop counts as low or out of stock. */
  lemma LowStockCountVersusShop(inventory: seq<InventoryRecord>)
    requires forall x :: x in inventory ==> x.quantity >= 0
    ensures |LowStockItems(inventory)| ==
      |ShopDashboard.LowStockItems(inventory)| + |ShopDashboard.OutOfStockItems(inventory)|
  {
    LowStockVersusShop(inventory);
    assert Filter(IsNegative, inventory) == [];
    assert |multiset(LowStockItems(inventory))| ==
      |multiset(ShopDashboard.LowStockItems(inventory))| + |multiset(ShopDashboard.OutOfStockItems(inventory))|;
  }

  /** An out-of-stock record is low stock for the workshop dashboard and not for the shop dashboard. */
  lemma ZeroIsLowOnlyForWorkshop(inventory: seq<InventoryRecord>, x: InventoryRecord)
    requires x in inventory && x.quantity == 0
    ensures x in LowStockItems(inventory)
    ensures x !in ShopDashboard.LowStockItems(inventory)
  {
  }

  /** The Status cell of a row: 0 is out of stock, other values below 10 low, the rest in stock. */
  function RowLabel(quantity: int): (s: string)
    ensures s == Inventory.OUT_OF_STOCK <==> quantity == 0
    ensures s == Inventory.LOW_STOCK <==> quantity != 0 && quantity < 10
    ensures s == Inventory.IN_STOCK <==> quantity >= 10
  {
    if quantity == 0 then Inventory.OUT_OF_STOCK
    else if quantity < 10 then Inventory.LOW_STOCK
    else Inventory.IN_STOCK
  }

  /** The workshop row label is the inventory page's `getStatus` for every quantity. */
  lemma RowLabelIsGetStatus(quantity: int)
    ensures RowLabel(quantity) == Inventory.GetStatus(quantity)
  {
  }

  /** A row whose label is not "In Stock" is counted as low stock, and conversely. */
  lemma RowLabelMatchesLowStock(inventory: seq<InventoryRecord>, x: InventoryRecord)
    requires x in inventory
    ensures RowLabel(x.quantity) != Inventory.IN_STOCK <==> x in LowStockItems(inventory)
  {
  }
}
