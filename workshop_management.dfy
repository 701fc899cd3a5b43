/** The workshop list: the shops whose type is `"WORKSHOP"`. */
module WorkshopManagement {
  import opened Wrappers
  import opened Seqs
  import opened Domain

  const WORKSHOP: string := "WORKSHOP"

  predicate IsWorkshop(s: Shop) { s.shopType == WORKSHOP }

  /** `shops.filter((shop) => shop.shopType === "WORKSHOP")`. */
  function Workshops(shops: seq<Shop>): (r: seq<Shop>)
    ensures IsSubsequence(r, shops)
    ensures forall s :: s in r ==> s.shopType == WORKSHOP
    ensures forall s :: s in shops && s.shopType == WORKSHOP ==> s in r
    ensures forall s :: multiset(r)[s] == if s.shopType == WORKSHOP then multiset(shops)[s] else 0
  {
    FilterIsSubsequence(IsWorkshop, shops);
    Filter(IsWorkshop, shops)
  }

  /** "No workshops found" shows exactly when no shop is a workshop. */
  function EmptyMessage(shops: seq<Shop>): (m: Option<string>)
    ensures m.Some? <==> Workshops(shops) == []
    ensures m.Some? <==> forall s :: s in shops ==> s.shopType != WORKSHOP
    ensures m.Some? ==> m.value == "No workshops found"
  {
    var r := Workshops(shops);
    assert r != [] ==> r[0] in r;
    if r == [] then Some("No workshops found") else None
  }
}
