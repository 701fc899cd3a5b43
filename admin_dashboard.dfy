/**
 * The administrator's dashboard: the statistics computed once from the six
 * collections, the recent-dispatch list and its status colours.
 */
module AdminDashboard {
  import opened Seqs
  import opened Domain
  import DispatchList

  /** The seven numbers the stat cards show. */
  datatype AdminStats = AdminStats(
    totalShops: nat,
    totalProducts: nat,
    totalInventory: int,
    totalDispatches: nat,
    pendingDispatches: nat,
    totalEmployees: nat,
    totalUsers: nat)

  /** The statistics: collection sizes, the total of all stock and the pending dispatches. */
  function Stats(
    inventories: seq<InventoryRecord>, dispatches: seq<Dispatch>, shops: seq<Shop>,
    products: seq<Product>, employees: seq<Employee>, users: seq<UserAccount>): (s: AdminStats)
    ensures s.totalShops == |shops| && s.totalProducts == |products| && s.totalDispatches == |dispatches|
    ensures s.totalEmployees == |employees| && s.totalUsers == |users|
    ensures s.totalInventory == TotalQuantity(inventories)
    ensures s.pendingDispatches == |PendingDispatches(dispatches)| <= s.totalDispatches
    ensures s.pendingDispatches == s.totalDispatches <==> forall d :: d in dispatches ==> d.status == PENDING
  {
    AllPendingIff(dispatches);
    AdminStats(
      |shops|, |products|, TotalQuantity(inventories), |dispatches|,
      |PendingDispatches(dispatches)|, |employees|, |users|)
  }

  /** The pending count reaches the dispatch count exactly when every dispatch is pending. */
  lemma AllPendingIff(dispatches: seq<Dispatch>)
    ensures |PendingDispatches(dispatches)| == |dispatches| <==> forall d :: d in dispatches ==> d.status == PENDING
  {
    if forall d :: d in dispatches ==> d.status == PENDING {
      FilterAll(IsPending, dispatches);
    } else {
      var d :| d in dispatches && d.status != PENDING;
      PendingShorter(dispatches, d);
    }
  }

  lemma {:induction false} PendingShorter(dispatches: seq<Dispatch>, d: Dispatch)
    requires d in dispatches && d.status != PENDING
    ensures |Filter(IsPending, dispatches)| < |dispatches|
  {
    if dispatches[0] != d {
      PendingShorter(dispatches[1..], d);
    }
  }

  /** The admin total over a shop's records and the rest is the sum of both parts. */
  lemma TotalSplitsByShop(inventories: seq<InventoryRecord>, shopId: string)
    ensures TotalQuantity(inventories) ==
      TotalQuantity(Filter((r: InventoryRecord) => r.shopId == shopId, inventories)) +
      TotalQuantity(Filter((r: InventoryRecord) => r.shopId != shopId, inventories))
  {
    SumOfFilterSplit(Quantity,
      (r: InventoryRecord) => r.shopId == shopId, (r: InventoryRecord) => r.shopId != shopId, inventories);
  }

  /** `dispatches.slice(0, 5)`: the first five dispatches, or all of them when there are fewer. */
  function RecentDispatches(dispatches: seq<Dispatch>): (r: seq<Dispatch>)
    ensures |r| == if |dispatches| < 5 then |dispatches| else 5
    ensures r == dispatches[..|r|]
    ensures r == [] <==> dispatches == []
  {
    if |dispatches| < 5 then dispatches else dispatches[..5]
  }

  /** "No dispatches yet" shows exactly when the recent list is empty. */
  function ShowNoDispatchesYet(dispatches: seq<Dispatch>): (b: bool)
    ensures b <==> RecentDispatches(dispatches) == []
  {
    |dispatches| == 0
  }

  /** The recent-dispatch badge: yellow for `PENDING`, green for `RECIEVED`, red for anything else. */
  function StatusColour(status: string): (b: DispatchList.Badge)
    ensures b == DispatchList.Yellow <==> status == PENDING
    ensures b == DispatchList.Green <==> status == RECIEVED
    ensures b == DispatchList.Red <==> status != PENDING && status != RECIEVED
  {
    if status == PENDING then DispatchList.Yellow
    else if status == RECIEVED then DispatchList.Green
    else DispatchList.Red
  }

  /**
   * The admin badge and the dispatch list's badge agree on the three known
   * statuses and on nothing else: any other string is red here and gray there,
   * the correctly spelled "RECEIVED" included.
   */
  lemma StatusColourVersusList(status: string)
    ensures StatusColour(status) == DispatchList.StatusBadge(status) <==> status in {PENDING, RECIEVED, CANCELLED}
    ensures StatusColour("RECEIVED") == DispatchList.Red && DispatchList.StatusBadge("RECEIVED") == DispatchList.Gray
  {
  }
}
