/** The products list of the dashboard and its delete button. */
module ProductsList {

  datatype Product = Product(id: int, name: string)

  /** How many products carry `id`. */
  function CountId(products: seq<Product>, id: int): nat {
    if products == [] then 0
    else (if products[0].id == id then 1 else 0) + CountId(products[1..], id)
  }

  /** The products whose id differs from `productId`, in their original order. */
  function WithoutId(products: seq<Product>, productId: int): (kept: seq<Product>)
    ensures forall p :: p in kept ==> p in products && p.id != productId
    ensures forall p :: p in products && p.id != productId ==> p in kept
    ensures |kept| == |products| - CountId(products, productId)
  {
    if products == [] then []
    else if products[0].id != productId then [products[0]] + WithoutId(products[1..], productId)
    else WithoutId(products[1..], productId)
  }

  /** The filter keeps relative order: it distributes over concatenation. */
  lemma {:induction false} WithoutIdAppend(a: seq<Product>, b: seq<Product>, productId: int)
    ensures WithoutId(a + b, productId) == WithoutId(a, productId) + WithoutId(b, productId)
  {
    if a != [] {
      assert (a + b)[0] == a[0] && (a + b)[1..] == a[1..] + b;
      WithoutIdAppend(a[1..], b, productId);
      if a[0].id != productId {
        assert WithoutId(a + b, productId) == [a[0]] + WithoutId(a[1..] + b, productId);
      }
    } else {
      assert a + b == b;
    }
  }

  /** Deleting an id no product has leaves the list as it was. */
  lemma {:induction false} WithoutAbsentId(products: seq<Product>, productId: int)
    requires forall p :: p in products ==> p.id != productId
    ensures WithoutId(products, productId) == products
  {
    if products != [] {
      assert products[0] in products;
      WithoutAbsentId(products[1..], productId);
    }
  }

  /** Filtering twice by the same id changes nothing more. */
  lemma WithoutIdIdempotent(products: seq<Product>, productId: int)
    ensures WithoutId(WithoutId(products, productId), productId) == WithoutId(products, productId)
  {
    WithoutAbsentId(WithoutId(products, productId), productId);
  }

  /** Deleting two ids one after the other removes both, in either order. */
  lemma {:induction false} WithoutIdCommutes(products: seq<Product>, a: int, b: int)
    ensures WithoutId(WithoutId(products, a), b) == WithoutId(WithoutId(products, b), a)
    ensures forall p :: p in WithoutId(WithoutId(products, a), b) ==> p.id != a && p.id != b
  {
    if products != [] {
      WithoutIdCommutes(products[1..], a, b);
    }
  }

  /** The list two quick deletes start from: both handlers were rendered
      while it was on screen. */
  const TwoProducts := [Product(1, "one"), Product(2, "two")]

  /** Both handlers filter the list they captured, so the second success
      writes back a list that still holds the product the first one
      deleted, whereas filtering the current list removes both. */
  lemma StaleSnapshotRestoresDeleted()
    ensures WithoutId(TwoProducts, 2) == [Product(1, "one")]
    ensures WithoutId(WithoutId(TwoProducts, 1), 2) == []
  {
    assert TwoProducts[1..] == [Product(2, "two")];
    assert WithoutId([Product(2, "two")], 1) == [Product(2, "two")];
    assert WithoutId([Product(2, "two")], 2) == [];
    assert WithoutId(TwoProducts, 1) == [Product(2, "two")];
  }

  /** The component's `productsData` state. */
  class ProductsListState {
    var productsData: seq<Product>

    constructor ()
      ensures productsData == []
    {
      productsData := [];
    }

    /** `setProductsData(products)` after the fetch. */
    method OnProductsFetched(products: seq<Product>)
      modifies this
      ensures productsData == products
    {
      productsData := products;
    }

    /** `handleDelete(productId)` once `deleteProduct` has answered (`deleted`
        is whether it reported success). `snapshot` is the `productsData` the
        handler captured when its render ran: the filter reads that list, not
        the state as it is when the answer arrives. */
    method HandleDelete(snapshot: seq<Product>, productId: int, deleted: bool)
      modifies this
      ensures deleted ==> productsData == WithoutId(snapshot, productId)
      ensures !deleted ==> productsData == old(productsData)
      ensures deleted ==> forall p :: p in productsData ==> p in snapshot && p.id != productId
    {
      if deleted {
        productsData := WithoutId(snapshot, productId);
      }
    }

    /** The handler with the functional updater `setProductsData(prev =>
        prev.filter(...))`: it filters the list as it is when the answer
        arrives, so no earlier delete is undone. */
    method HandleDeleteLatest(productId: int, deleted: bool)
      modifies this
      ensures deleted ==> productsData == WithoutId(old(productsData), productId)
      ensures !deleted ==> productsData == old(productsData)
      ensures forall p :: p in productsData ==> p in old(productsData)
    {
      if deleted {
        productsData := WithoutId(productsData, productId);
      }
    }
  }

  /** Two deletes clicked before the first answer arrives, both successful:
      with the handler as written, product 1 is back on screen. */
  method OverlappingDeletes() returns (shown: seq<Product>)
    ensures shown == [Product(1, "one")]
  {
    var list := new ProductsListState();
    list.OnProductsFetched(TwoProducts);
    var rendered := list.productsData;
    list.HandleDelete(rendered, 1, true);
    list.HandleDelete(rendered, 2, true);
    StaleSnapshotRestoresDeleted();
    shown := list.productsData;
  }

  /** The same two deletes with the functional updater: both products go. */
  method OverlappingDeletesLatest() returns (shown: seq<Product>)
    ensures shown == []
  {
    var list := new ProductsListState();
    list.OnProductsFetched(TwoProducts);
    list.HandleDeleteLatest(1, true);
    list.HandleDeleteLatest(2, true);
    StaleSnapshotRestoresDeleted();
    shown := list.productsData;
  }
}
