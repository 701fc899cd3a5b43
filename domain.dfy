/**
 * The records the pages receive from the backend, reduced to the fields the
 * pages inspect, and the few computations that several pages share.
 */
module Domain {
  import opened Wrappers
  import opened Seqs

  /** A product of the catalogue. */
  datatype Product = Product(id: string, productName: string)

  /** A shop or workshop; `shopType` is `"WORKSHOP"` for workshops. */
  datatype Shop = Shop(id: string, name: string, location: string, shopType: string)

  /** A per-shop, per-product stock record. */
  datatype InventoryRecord = InventoryRecord(id: string, shopId: string, productId: string, quantity: int)

  /** One line of a dispatch: a product and how many units move. */
  datatype DispatchItem = DispatchItem(productId: string, quantity: int)

  /** A transfer of products from a source shop to a destination shop. */
  datatype Dispatch = Dispatch(
    id: string,
    dispatchReference: string,
    sourceShopId: string,
    destinationShopId: string,
    status: string,
    items: seq<DispatchItem>)

  /** An employee record; the pages only count them. */
  datatype Employee = Employee(id: string, name: string)

  /** A user account as listed by the user administration; the pages only count them. */
  datatype UserAccount = UserAccount(id: string, username: string, role: string)

  /**
   * The signed-in user as the authentication layer stores it; `role` is `None`
   * when the backend sent none.
   */
  datatype AuthUser = AuthUser(username: string, role: Option<string>, userId: string)

  /** The dispatch status strings, spelled exactly as the pages compare them. */
  const PENDING: string := "PENDING"
  const RECIEVED: string := "RECIEVED"
  const CANCELLED: string := "CANCELLED"

  function Quantity(r: InventoryRecord): int { r.quantity }

  function ItemQuantity(item: DispatchItem): int { item.quantity }

  /** `records.reduce((sum, inv) => sum + inv.quantity, 0)`. */
  function TotalQuantity(records: seq<InventoryRecord>): (t: int)
    ensures (forall r :: r in records ==> r.quantity >= 0) ==> t >= 0
    ensures (forall r :: r in records ==> r.quantity == 0) ==> t == 0
  {
    assert (forall r :: r in records ==> r.quantity >= 0) ==> SumOf(Quantity, records) >= 0 by {
      if forall r :: r in records ==> r.quantity >= 0 { SumOfLowerBound(Quantity, records, 0); }
    }
    assert (forall r :: r in records ==> r.quantity == 0) ==> SumOf(Quantity, records) == 0 by {
      if forall r :: r in records ==> r.quantity == 0 { SumOfZeros(Quantity, records); }
    }
    SumOf(Quantity, records)
  }

  /**
   * `items.reduce((sum, item) => sum + item.quantity, 0)`. A dispatch whose items
   * all carry at least one unit moves at least as many units as it has items.
   */
  function ItemTotal(items: seq<DispatchItem>): (t: int)
    ensures (forall i :: i in items ==> i.quantity >= 0) ==> t >= 0
    ensures (forall i :: i in items ==> i.quantity >= 1) ==> t >= |items|
  {
    assert (forall i :: i in items ==> i.quantity >= 0) ==> SumOf(ItemQuantity, items) >= 0 by {
      if forall i :: i in items ==> i.quantity >= 0 { SumOfLowerBound(ItemQuantity, items, 0); }
    }
    assert (forall i :: i in items ==> i.quantity >= 1) ==> SumOf(ItemQuantity, items) >= |items| by {
      if forall i :: i in items ==> i.quantity >= 1 { SumOfLowerBound(ItemQuantity, items, 1); }
    }
    SumOf(ItemQuantity, items)
  }

  predicate IsPending(d: Dispatch) { d.status == PENDING }

  /** `dispatches.filter((d) => d.status === "PENDING")`. */
  function PendingDispatches(dispatches: seq<Dispatch>): (r: seq<Dispatch>)
    ensures IsSubsequence(r, dispatches)
    ensures |r| <= |dispatches|
    ensures forall d :: d in r ==> d.status == PENDING
    ensures forall d :: d in dispatches && d.status == PENDING ==> d in r
    ensures forall d :: multiset(r)[d] == if d.status == PENDING then multiset(dispatches)[d] else 0
  {
    FilterIsSubsequence(IsPending, dispatches);
    Filter(IsPending, dispatches)
  }

  /** Stock totals add up over concatenated record lists. */
  lemma TotalQuantityAppend(a: seq<InventoryRecord>, b: seq<InventoryRecord>)
    ensures TotalQuantity(a + b) == TotalQuantity(a) + TotalQuantity(b)
  {
    SumOfAppend(Quantity, a, b);
  }
}
