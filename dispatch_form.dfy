/**
 * The multi-product dispatch form: its editable list of product rows, the
 * submit validator with its four checks in order, the request it builds,
 * the per-row choice of available products and the two summary totals.
 */
module DispatchForm {
  import opened Wrappers
  import opened Seqs
  import opened Domain

  /**
   * One row of the form. `id` is the row's key (abstract and distinct per row);
   * `productId` is `""` while no product is selected; `quantity` is `None`
   * while the number input is empty.
   */
  datatype Row = Row(id: int, productId: string, quantity: Option<int>)

  /** `updateProductRow(rowId, field, value)`: a new value for one of the two editable fields. */
  datatype FieldEdit = SetProductId(productId: string) | SetQuantity(quantity: Option<int>)

  /** The request handed to the backend when the form is accepted. */
  datatype DispatchRequest = DispatchRequest(sourceShopId: string, destinationShopId: string, items: seq<DispatchItem>)

  /** The four reasons submit can refuse, in the order they are checked. */
  datatype SubmitError = MissingShop | SameShop | IncompleteRow | DuplicateProduct

  /** The alert shown for each refusal. */
  function AlertMessage(e: SubmitError): (m: string)
    ensures m != ""
  {
    match e
    case MissingShop => "Please select both source and destination shops"
    case SameShop => "Source and destination shops must be different"
    case IncompleteRow => "Please fill in all product selections and quantities (must be greater than 0)"
    case DuplicateProduct => "Each product can only be selected once. Please remove duplicates."
  }

  predicate DistinctIds(rows: seq<Row>)
  {
    forall i, j :: 0 <= i < j < |rows| ==> rows[i].id != rows[j].id
  }

  function Ids(rows: seq<Row>): set<int>
  {
    set r | r in rows :: r.id
  }

  /** No selected product is chosen in two rows (rows without a product are ignored). */
  predicate DistinctChosen(rows: seq<Row>)
  {
    forall i, j :: 0 <= i < |rows| && 0 <= j < |rows| && i != j && rows[i].productId != "" ==>
      rows[i].productId != rows[j].productId
  }

  predicate Distinct(ids: seq<string>)
  {
    forall i, j :: 0 <= i < j < |ids| ==> ids[i] != ids[j]
  }

  // ---------------------------------------------------------------------------
  // Editing the rows

  /** `addProductRow`: one more row, with no product and no quantity, after the existing ones. */
  function AddedRows(rows: seq<Row>, newId: int): (r: seq<Row>)
    ensures |r| == |rows| + 1
    ensures r[..|rows|] == rows
    ensures r[|rows|].id == newId && r[|rows|].productId == "" && r[|rows|].quantity == None
  {
    rows + [Row(newId, "", None)]
  }

  function KeepsRow(rowId: int): Row -> bool
  {
    (row: Row) => row.id != rowId
  }

  /** `removeProductRow`: with a single row nothing changes; otherwise every row with that id is dropped. */
  function RemovedRows(rows: seq<Row>, rowId: int): (r: seq<Row>)
    ensures |rows| <= 1 ==> r == rows
    ensures |rows| > 1 ==> forall x :: x in r <==> x in rows && x.id != rowId
    ensures |rows| > 1 ==> forall x :: multiset(r)[x] == if x.id != rowId then multiset(rows)[x] else 0
    ensures IsSubsequence(r, rows)
    ensures |rows| >= 1 && DistinctIds(rows) ==> |r| >= 1
  {
    if |rows| > 1 then
      FilterIsSubsequence(KeepsRow(rowId), rows);
      DistinctIdsRemoveOne(rows, rowId);
      Filter(KeepsRow(rowId), rows)
    else
      rows
  }

  /** With distinct ids a removal drops at most one row. */
  lemma {:induction false} DistinctIdsRemoveOne(rows: seq<Row>, rowId: int)
    ensures DistinctIds(rows) ==> |Filter(KeepsRow(rowId), rows)| >= |rows| - 1
  {
    if rows != [] && DistinctIds(rows) {
      DistinctIdsCons(rows);
      if rows[0].id == rowId {
        forall x | x in rows[1..] ensures KeepsRow(rowId)(x) {
          assert x.id in Ids(rows[1..]);
        }
        FilterAll(KeepsRow(rowId), rows[1..]);
      } else {
        DistinctIdsRemoveOne(rows[1..], rowId);
      }
    }
  }

  /** The row with one field replaced by the edit. */
  function ApplyEdit(row: Row, edit: FieldEdit): Row
  {
    match edit
    case SetProductId(p) => row.(productId := p)
    case SetQuantity(q) => row.(quantity := q)
  }

  /** `updateProductRow`: only the named field of the rows with that id changes. */
  function UpdatedRows(rows: seq<Row>, rowId: int, edit: FieldEdit): (r: seq<Row>)
    ensures |r| == |rows|
    ensures forall i :: 0 <= i < |rows| && rows[i].id != rowId ==> r[i] == rows[i]
    ensures forall i :: 0 <= i < |rows| && rows[i].id == rowId ==>
      r[i].id == rowId &&
      r[i].productId == (if edit.SetProductId? then edit.productId else rows[i].productId) &&
      r[i].quantity == (if edit.SetQuantity? then edit.quantity else rows[i].quantity)
  {
    MapSeq((row: Row) => if row.id == rowId then ApplyEdit(row, edit) else row, rows)
  }

  /** Adding a row with an unused id keeps the row ids distinct. */
  lemma AddedRowsKeepDistinctIds(rows: seq<Row>, newId: int)
    requires DistinctIds(rows) && newId !in Ids(rows)
    ensures DistinctIds(AddedRows(rows, newId))
  {
    var r := AddedRows(rows, newId);
    forall i, j | 0 <= i < j < |r| ensures r[i].id != r[j].id {
      if j == |rows| {
        assert r[i] == rows[i] && rows[i].id in Ids(rows);
      } else {
        assert r[i] == rows[i] && r[j] == rows[j];
      }
    }
  }

  /** A removal keeps the row ids distinct. */
  lemma RemovedRowsKeepDistinctIds(rows: seq<Row>, rowId: int)
    requires DistinctIds(rows)
    ensures DistinctIds(RemovedRows(rows, rowId))
  {
    if |rows| > 1 {
      FilterPreservesDistinctIds(KeepsRow(rowId), rows);
    }
  }

  lemma {:induction false} FilterPreservesDistinctIds(p: Row -> bool, rows: seq<Row>)
    requires DistinctIds(rows)
    ensures DistinctIds(Filter(p, rows))
  {
    if rows != [] {
      DistinctIdsCons(rows);
      FilterPreservesDistinctIds(p, rows[1..]);
      var rest := Filter(p, rows[1..]);
      if p(rows[0]) {
        assert Ids(rest) <= Ids(rows[1..]);
        assert ([rows[0]] + rest)[1..] == rest;
        DistinctIdsCons([rows[0]] + rest);
      }
    }
  }

  /** Distinct ids, one row at a time: the head's id is not among the tail's and the tail is distinct. */
  lemma DistinctIdsCons(rows: seq<Row>)
    requires rows != []
    ensures DistinctIds(rows) <==> rows[0].id !in Ids(rows[1..]) && DistinctIds(rows[1..])
  {
    if DistinctIds(rows) {
      forall i, j | 0 <= i < j < |rows[1..]| ensures rows[1..][i].id != rows[1..][j].id {
        assert rows[1..][i] == rows[i + 1] && rows[1..][j] == rows[j + 1];
      }
    }
    if rows[0].id !in Ids(rows[1..]) && DistinctIds(rows[1..]) {
      forall i, j | 0 <= i < j < |rows| ensures rows[i].id != rows[j].id {
        assert rows[j] == rows[1..][j - 1];
        if i == 0 {
          assert rows[j] in rows[1..];
        } else {
          assert rows[i] == rows[1..][i - 1];
        }
      }
    }
  }

  /** An edit never changes ids, so it keeps them distinct. */
  lemma UpdatedRowsKeepDistinctIds(rows: seq<Row>, rowId: int, edit: FieldEdit)
    requires DistinctIds(rows)
    ensures DistinctIds(UpdatedRows(rows, rowId, edit))
  {
    var r := UpdatedRows(rows, rowId, edit);
    assert forall i :: 0 <= i < |rows| ==> r[i].id == rows[i].id;
  }

  /** Each refusal has its own alert text. */
  lemma AlertMessagesDistinct(e1: SubmitError, e2: SubmitError)
    ensures AlertMessage(e1) == AlertMessage(e2) <==> e1 == e2
  {
  }

  // ---------------------------------------------------------------------------
  // Submit validation and the request

  /** `!row.productId || !row.quantity || row.quantity <= 0`. */
  predicate IsIncompleteRow(row: Row)
    ensures !IsIncompleteRow(row) <==> HasProduct(row) && RowQuantity(row) > 0
  {
    row.productId == "" || row.quantity.None? || row.quantity.value <= 0
  }

  function ProductIdOf(row: Row): string { row.productId }

  function ProductIds(rows: seq<Row>): (r: seq<string>)
    ensures |r| == |rows| && forall i :: 0 <= i < |rows| ==> r[i] == rows[i].productId
  {
    MapSeq(ProductIdOf, rows)
  }

  /** `s.indexOf(x)`: the first position of `x` in `s`, or -1. */
  function IndexOf(s: seq<string>, x: string): (k: int)
    ensures -1 <= k < |s|
    ensures k == -1 <==> x !in s
    ensures 0 <= k ==> s[k] == x && forall j :: 0 <= j < k ==> s[j] != x
  {
    if s == [] then -1
    else if s[0] == x then 0
    else
      var k := IndexOf(s[1..], x);
      if k == -1 then -1 else k + 1
  }

  /** `ids.filter((id, index) => ids.indexOf(id) !== index)`, from position `i` on. */
  function DuplicatesFrom(ids: seq<string>, i: nat): (r: seq<string>)
    requires i <= |ids|
    ensures |r| <= |ids| - i
    ensures forall x :: x in r ==> 0 <= IndexOf(ids, x) && x in ids[IndexOf(ids, x) + 1..]
    decreases |ids| - i
  {
    if i == |ids| then []
    else
      var rest := DuplicatesFrom(ids, i + 1);
      if IndexOf(ids, ids[i]) != i then
        var j := IndexOf(ids, ids[i]);
        assert ids[j + 1..][i - j - 1] == ids[i];
        [ids[i]] + rest
      else rest
  }

  /**
   * The product ids that occur at a position other than their first occurrence:
   * each of them is in the list and occurs again after its first occurrence.
   */
  function DuplicateProducts(ids: seq<string>): (r: seq<string>)
    ensures |r| <= |ids|
    ensures forall x :: x in r ==> x in ids && x in ids[IndexOf(ids, x) + 1..]
  {
    DuplicatesFrom(ids, 0)
  }

  lemma {:induction false} DuplicatesFromEmpty(ids: seq<string>, i: nat)
    requires i <= |ids|
    ensures DuplicatesFrom(ids, i) == [] <==> forall k :: i <= k < |ids| ==> IndexOf(ids, ids[k]) == k
    decreases |ids| - i
  {
    if i < |ids| {
      DuplicatesFromEmpty(ids, i + 1);
      var rest := DuplicatesFrom(ids, i + 1);
      if IndexOf(ids, ids[i]) != i {
        assert DuplicatesFrom(ids, i) == [ids[i]] + rest;
      } else {
        assert DuplicatesFrom(ids, i) == rest;
      }
    }
  }

  /** The duplicate check finds nothing exactly when the ids are pairwise distinct. */
  lemma DuplicateProductsEmptyIff(ids: seq<string>)
    ensures DuplicateProducts(ids) == [] <==> Distinct(ids)
  {
    DuplicatesFromEmpty(ids, 0);
    if Distinct(ids) {
      forall k | 0 <= k < |ids| ensures IndexOf(ids, ids[k]) == k {
        var m := IndexOf(ids, ids[k]);
        assert m <= k;
      }
    } else {
      var i, j :| 0 <= i < j < |ids| && ids[i] == ids[j];
      assert IndexOf(ids, ids[j]) != j;
    }
  }

  /** The request items: each row's product id and parsed quantity, in row order. */
  function BuildItems(rows: seq<Row>): (items: seq<DispatchItem>)
    requires forall i :: 0 <= i < |rows| ==> rows[i].quantity.Some?
    ensures |items| == |rows|
    ensures forall i :: 0 <= i < |rows| ==>
      items[i].productId == rows[i].productId && Some(items[i].quantity) == rows[i].quantity
  {
    seq(|rows|, i requires 0 <= i < |rows| => DispatchItem(rows[i].productId, rows[i].quantity.value))
  }

  /**
   * `handleSubmit`: the first failing check, or the request. An empty shop id
   * counts as missing; the same-shop check runs only when both are present.
   */
  function Submit(sourceShopId: string, destinationShopId: string, rows: seq<Row>): (r: Result<DispatchRequest, SubmitError>)
    ensures r == Failure(MissingShop) <==> sourceShopId == "" || destinationShopId == ""
    ensures r == Failure(SameShop) <==>
      sourceShopId != "" && destinationShopId != "" && sourceShopId == destinationShopId
    ensures r == Failure(IncompleteRow) <==>
      sourceShopId != "" && destinationShopId != "" && sourceShopId != destinationShopId &&
      exists row :: row in rows && IsIncompleteRow(row)
    ensures r == Failure(DuplicateProduct) <==>
      sourceShopId != "" && destinationShopId != "" && sourceShopId != destinationShopId &&
      (forall row :: row in rows ==> !IsIncompleteRow(row)) &&
      exists i, j :: 0 <= i < j < |rows| && rows[i].productId == rows[j].productId
    ensures r.Success? ==>
      r.value.sourceShopId == sourceShopId && r.value.destinationShopId == destinationShopId &&
      sourceShopId != "" && destinationShopId != "" && sourceShopId != destinationShopId &&
      |r.value.items| == |rows| &&
      (forall i :: 0 <= i < |rows| ==>
        r.value.items[i].productId == rows[i].productId && r.value.items[i].productId != "" &&
        Some(r.value.items[i].quantity) == rows[i].quantity && r.value.items[i].quantity > 0) &&
      (forall i, j :: 0 <= i < j < |rows| ==> r.value.items[i].productId != r.value.items[j].productId)
  {
    if sourceShopId == "" || destinationShopId == "" then Failure(MissingShop)
    else if sourceShopId == destinationShopId then Failure(SameShop)
    else if |Filter(IsIncompleteRow, rows)| > 0 then
      assert Filter(IsIncompleteRow, rows)[0] in rows;
      Failure(IncompleteRow)
    else
      assert forall i :: 0 <= i < |rows| ==> rows[i] in rows && !IsIncompleteRow(rows[i]);
      DuplicateProductsEmptyIff(ProductIds(rows));
      if |DuplicateProducts(ProductIds(rows))| > 0 then Failure(DuplicateProduct)
      else Success(DispatchRequest(sourceShopId, destinationShopId, BuildItems(rows)))
  }

  // ---------------------------------------------------------------------------
  // Available products and the summary

  /** A row that takes a product away from the choices of a row showing `current`. */
  function TakesProduct(current: string): Row -> bool
  {
    (row: Row) => row.productId != "" && row.productId != current
  }

  /**
   * `selectedProductIds`: the product ids chosen by rows whose product is neither
   * empty nor `current`. An id is selected exactly when some such row holds it.
   */
  function SelectedProductIds(rows: seq<Row>, current: string): (selected: seq<string>)
    ensures forall id :: id in selected <==>
      exists row :: row in rows && row.productId != "" && row.productId != current && row.productId == id
  {
    var taking := Filter(TakesProduct(current), rows);
    var selected := MapSeq(ProductIdOf, taking);
    forall id ensures id in selected <==>
      exists row :: row in rows && row.productId != "" && row.productId != current && row.productId == id
    {
      if id in selected {
        var k :| 0 <= k < |selected| && selected[k] == id;
        assert taking[k] in taking;
      } else {
        forall row | row in rows && row.productId != "" && row.productId != current ensures row.productId != id {
          var k :| 0 <= k < |taking| && taking[k] == row;
          assert selected[k] == row.productId;
        }
      }
    }
    selected
  }

  function NotSelected(selected: seq<string>): Product -> bool
  {
    (p: Product) => p.id !in selected
  }

  /**
   * `getAvailableProducts(current)`: the catalogue, in order, without the products
   * that some row has chosen, unless that row's product is `current` itself.
   */
  function AvailableProducts(products: seq<Product>, rows: seq<Row>, current: string): (r: seq<Product>)
    ensures IsSubsequence(r, products)
    ensures forall p :: p in r <==>
      p in products && forall row :: row in rows && row.productId != "" && row.productId != current ==> row.productId != p.id
    ensures forall p :: multiset(r)[p] == if p in r then multiset(products)[p] else 0
  {
    var selected := SelectedProductIds(rows, current);
    FilterIsSubsequence(NotSelected(selected), products);
    Filter(NotSelected(selected), products)
  }

  function RowQuantity(row: Row): int
  {
    match row.quantity
    case Some(q) => q
    case None => 0
  }

  /** `totalItems`: the sum of the row quantities, an empty quantity counting as 0. */
  function TotalItems(rows: seq<Row>): (t: int)
    ensures (forall row :: row in rows ==> row.quantity.None?) ==> t == 0
    ensures (forall row :: row in rows ==> !IsIncompleteRow(row)) ==> t >= |rows|
  {
    assert (forall row :: row in rows ==> row.quantity.None?) ==> SumOf(RowQuantity, rows) == 0 by {
      if forall row :: row in rows ==> row.quantity.None? { SumOfZeros(RowQuantity, rows); }
    }
    assert (forall row :: row in rows ==> !IsIncompleteRow(row)) ==> SumOf(RowQuantity, rows) >= |rows| by {
      if forall row :: row in rows ==> !IsIncompleteRow(row) { SumOfLowerBound(RowQuantity, rows, 1); }
    }
    SumOf(RowQuantity, rows)
  }

  predicate HasProduct(row: Row) { row.productId != "" }

  /** `validProductCount`: the number of rows with a product selected. */
  function ValidProductCount(rows: seq<Row>): (n: nat)
    ensures n <= |rows|
  {
    |Filter(HasProduct, rows)|
  }

  /** An accepted request moves exactly the form's total, one item per selected product. */
  lemma AcceptedRequestTotals(sourceShopId: string, destinationShopId: string, rows: seq<Row>)
    requires Submit(sourceShopId, destinationShopId, rows).Success?
    ensures ItemTotal(Submit(sourceShopId, destinationShopId, rows).value.items) == TotalItems(rows)
    ensures ValidProductCount(rows) == |rows|
    ensures TotalItems(rows) >= |rows|
  {
    var items := Submit(sourceShopId, destinationShopId, rows).value.items;
    SameSum(items, rows);
    FilterAll(HasProduct, rows);
  }

  lemma {:induction false} SameSum(items: seq<DispatchItem>, rows: seq<Row>)
    requires |items| == |rows|
    requires forall i :: 0 <= i < |rows| ==> Some(items[i].quantity) == rows[i].quantity
    ensures ItemTotal(items) == TotalItems(rows)
  {
    if rows != [] {
      SameSum(items[1..], rows[1..]);
    }
  }

  /** A new row adds nothing to either summary and makes a submit with valid shops incomplete. */
  lemma AddedRowEffects(sourceShopId: string, destinationShopId: string, rows: seq<Row>, newId: int)
    requires sourceShopId != "" && destinationShopId != "" && sourceShopId != destinationShopId
    ensures TotalItems(AddedRows(rows, newId)) == TotalItems(rows)
    ensures ValidProductCount(AddedRows(rows, newId)) == ValidProductCount(rows)
    ensures Submit(sourceShopId, destinationShopId, AddedRows(rows, newId)) == Failure(IncompleteRow)
  {
    var r := AddedRows(rows, newId);
    SumOfAppend(RowQuantity, rows, [r[|rows|]]);
    assert Filter(HasProduct, [r[|rows|]]) == [];
    FilterAppend(HasProduct, rows, [r[|rows|]]);
    assert r == rows + [r[|rows|]];
    assert r[|rows|] in r && IsIncompleteRow(r[|rows|]);
  }

  /**
   * Choosing, in some row, a product offered by that row's list of available
   * products never makes two rows choose the same product.
   */
  lemma ChoosingAvailableKeepsDistinct(products: seq<Product>, rows: seq<Row>, k: nat, p: Product)
    requires DistinctIds(rows) && DistinctChosen(rows)
    requires k < |rows|
    requires p in AvailableProducts(products, rows, rows[k].productId)
    ensures DistinctChosen(UpdatedRows(rows, rows[k].id, SetProductId(p.id)))
  {
    var r := UpdatedRows(rows, rows[k].id, SetProductId(p.id));
    var cur := rows[k].productId;
    assert forall i :: 0 <= i < |rows| && i != k ==> r[i] == rows[i];
    forall i | 0 <= i < |rows| && i != k && rows[i].productId != ""
      ensures rows[i].productId != p.id
    {
      assert rows[i] in rows;
      if cur != "" {
        assert rows[k].productId != rows[i].productId;
      }
    }
  }

  // ---------------------------------------------------------------------------
  // The form's row state

  /**
   * The `productRows` state of the form. Each handler replaces the whole list,
   * as `setProductRows` does; ids are supplied by the caller and must be unused,
   * standing for the fresh `Date.now() + Math.random()` keys.
   */
  class ProductRows {
    var rows: seq<Row>

    /** The list is never empty and no two rows share an id. */
    ghost predicate Valid()
      reads this
    {
      |rows| >= 1 && DistinctIds(rows)
    }

    /** The form opens with one empty row. */
    constructor (firstId: int)
      ensures Valid()
      ensures rows == [Row(firstId, "", None)]
    {
      rows := [Row(firstId, "", None)];
    }

    /** `addProductRow`. */
    method AddRow(newId: int)
      requires Valid() && newId !in Ids(rows)
      modifies this
      ensures Valid()
      ensures rows == AddedRows(old(rows), newId)
    {
      AddedRowsKeepDistinctIds(rows, newId);
      rows := AddedRows(rows, newId);
    }

    /** `removeProductRow`: ignored while only one row is left. */
    method RemoveRow(rowId: int)
      requires Valid()
      modifies this
      ensures Valid()
      ensures rows == RemovedRows(old(rows), rowId)
      ensures |old(rows)| == 1 ==> rows == old(rows)
      ensures |old(rows)| > 1 && rowId in Ids(old(rows)) ==> |rows| == |old(rows)| - 1
    {
      RemovedRowsKeepDistinctIds(rows, rowId);
      if |rows| > 1 && rowId in Ids(rows) {
        RemoveOneExact(rows, rowId);
      }
      rows := RemovedRows(rows, rowId);
    }

    /** `updateProductRow`. */
    method UpdateRow(rowId: int, edit: FieldEdit)
      requires Valid()
      modifies this
      ensures Valid()
      ensures rows == UpdatedRows(old(rows), rowId, edit)
    {
      UpdatedRowsKeepDistinctIds(rows, rowId, edit);
      rows := UpdatedRows(rows, rowId, edit);
    }
  }

  /** With distinct ids, removing an id that is present drops exactly one row. */
  lemma {:induction false} RemoveOneExact(rows: seq<Row>, rowId: int)
    requires DistinctIds(rows) && rowId in Ids(rows)
    ensures |Filter(KeepsRow(rowId), rows)| == |rows| - 1
  {
    DistinctIdsCons(rows);
    if rows[0].id == rowId {
      DistinctIdsRemoveOne(rows, rowId);
    } else {
      var x :| x in rows && x.id == rowId;
      assert x in rows[1..];
      RemoveOneExact(rows[1..], rowId);
    }
  }
}
