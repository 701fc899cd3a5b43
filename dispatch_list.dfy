/**
 * The dispatch list page: its status and shop filters, the per-dispatch item
 * total, which actions a row offers, the status badge and the empty-state text.
 */
module DispatchList {
  import opened Wrappers
  import opened Seqs
  import opened Domain

  /** The two filter fields; `""` means the filter is not set. */
  datatype Filters = Filters(status: string, shop: string)

  /** The Clear Filters button: both filters back to `""`. */
  function ClearFilters(f: Filters): (r: Filters)
    ensures r.status == "" && r.shop == ""
  {
    Filters("", "")
  }

  /** The predicate `filteredDispatches` keeps a dispatch by. */
  predicate Matches(f: Filters, d: Dispatch)
  {
    (f.status == "" || d.status == f.status) &&
    (f.shop == "" || d.sourceShopId == f.shop || d.destinationShopId == f.shop)
  }

  function MatchesFilters(f: Filters): Dispatch -> bool
  {
    (d: Dispatch) => Matches(f, d)
  }

  /** `filteredDispatches`: the dispatches the two filters let through, in list order. */
  function FilteredDispatches(dispatches: seq<Dispatch>, f: Filters): (r: seq<Dispatch>)
    ensures IsSubsequence(r, dispatches)
    ensures f.status != "" ==> forall d :: d in r ==> d.status == f.status
    ensures f.shop != "" ==> forall d :: d in r ==> d.sourceShopId == f.shop || d.destinationShopId == f.shop
    ensures forall d :: d in dispatches ==>
      (d in r <==>
        (f.status == "" || d.status == f.status) &&
        (f.shop == "" || d.sourceShopId == f.shop || d.destinationShopId == f.shop))
    ensures forall d :: multiset(r)[d] == if Matches(f, d) then multiset(dispatches)[d] else 0
    ensures f.status == "" && f.shop == "" ==> r == dispatches
  {
    FilterIsSubsequence(MatchesFilters(f), dispatches);
    UnsetFiltersKeepAll(dispatches, f);
    Filter(MatchesFilters(f), dispatches)
  }

  lemma UnsetFiltersKeepAll(dispatches: seq<Dispatch>, f: Filters)
    ensures f.status == "" && f.shop == "" ==> Filter(MatchesFilters(f), dispatches) == dispatches
  {
    if f.status == "" && f.shop == "" {
      FilterAll(MatchesFilters(f), dispatches);
    }
  }

  /** After Clear Filters the page lists every dispatch. */
  lemma ClearedFiltersShowAll(dispatches: seq<Dispatch>, f: Filters)
    ensures FilteredDispatches(dispatches, ClearFilters(f)) == dispatches
  {
  }

  /** Narrowing the status of an unfiltered-by-status list gives its status-matching part. */
  lemma StatusFilterNarrows(dispatches: seq<Dispatch>, status: string, shop: string)
    requires status != ""
    ensures forall d :: d in FilteredDispatches(dispatches, Filters(status, shop)) <==>
      d in FilteredDispatches(dispatches, Filters("", shop)) && d.status == status
  {
  }

  /** The Total Items cell, `ItemTotal(d.items)`, is the sum of the totals of any split of the items. */
  lemma TotalItemsSplit(d: Dispatch, k: nat)
    requires k <= |d.items|
    ensures ItemTotal(d.items) == ItemTotal(d.items[..k]) + ItemTotal(d.items[k..])
  {
    assert d.items == d.items[..k] + d.items[k..];
    SumOfAppend(ItemQuantity, d.items[..k], d.items[k..]);
  }

  /** What the Actions cell of a row shows. */
  datatype RowActions = AcceptRejectCancel | NoActions

  /** Accept, reject and cancel are offered for `PENDING` dispatches only. */
  function ActionsFor(d: Dispatch): (a: RowActions)
    ensures a == AcceptRejectCancel <==> d.status == PENDING
    ensures a == NoActions <==> d.status != PENDING
  {
    if d.status == PENDING then AcceptRejectCancel else NoActions
  }

  /**
   * With the status filter on `PENDING` every listed row offers the actions; with
   * any other status filter set, no listed row does.
   */
  lemma ActionsUnderStatusFilter(dispatches: seq<Dispatch>, f: Filters)
    requires f.status != ""
    ensures f.status == PENDING ==> forall d :: d in FilteredDispatches(dispatches, f) ==> ActionsFor(d) == AcceptRejectCancel
    ensures f.status != PENDING ==> forall d :: d in FilteredDispatches(dispatches, f) ==> ActionsFor(d) == NoActions
  {
  }

  /** The rows that offer actions are exactly the pending dispatches among the listed ones. */
  lemma ActionableRowsArePending(dispatches: seq<Dispatch>, f: Filters)
    ensures forall d :: d in FilteredDispatches(dispatches, f) ==>
      (ActionsFor(d) == AcceptRejectCancel <==> d in PendingDispatches(dispatches))
  {
  }

  /** The badge colours of the list page; the name is the Tailwind colour. */
  datatype Badge = Yellow | Green | Red | Gray

  /** `getStatusBadge`: a style per known status, gray for anything else. */
  function StatusBadge(status: string): (b: Badge)
    ensures b == Yellow <==> status == PENDING
    ensures b == Green <==> status == RECIEVED
    ensures b == Red <==> status == CANCELLED
    ensures b == Gray <==> status !in {PENDING, RECIEVED, CANCELLED}
  {
    if status == PENDING then Yellow
    else if status == RECIEVED then Green
    else if status == CANCELLED then Red
    else Gray
  }

  /** The text of the placeholder row shown when no dispatch is listed. */
  function EmptyMessage(dispatches: seq<Dispatch>, f: Filters): (m: Option<string>)
    ensures m.Some? <==> FilteredDispatches(dispatches, f) == []
    ensures m == Some("No dispatches found") <==> dispatches == []
    ensures m == Some("No dispatches match the current filters") <==>
      dispatches != [] && FilteredDispatches(dispatches, f) == []
  {
    if FilteredDispatches(dispatches, f) != [] then None
    else if dispatches == [] then Some("No dispatches found")
    else Some("No dispatches match the current filters")
  }

  /** With no filter set, the "match" message never appears. */
  lemma NoMatchMessageNeedsAFilter(dispatches: seq<Dispatch>, f: Filters)
    requires EmptyMessage(dispatches, f) == Some("No dispatches match the current filters")
    ensures f.status != "" || f.shop != ""
  {
  }
}
