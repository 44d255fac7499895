/**
 * The product store of the storefront: the catalogue page, the product
 * being viewed, and the four request flags. Each request has a pending,
 * a fulfilled and a rejected case; every pending case and every rejected
 * case does the same thing, so each of those is one method here.
 */
module ProductSlice {
  import opened Wrappers
  import opened ProductModel

  /** The payload of `getProducts.fulfilled`: one page of the catalogue. */
  datatype ProductPage = ProductPage(products: seq<Product>, page: int, pages: int)

  /** `products.findIndex(p => p._id === id)`: the first index holding the id, or -1. */
  function FindIndex(products: seq<Product>, id: string): (i: int)
    ensures -1 <= i < |products|
    ensures i == -1 <==> forall j :: 0 <= j < |products| ==> products[j].id != id
    ensures i != -1 ==> products[i].id == id && forall j :: 0 <= j < i ==> products[j].id != id
  {
    if products == [] then -1
    else if products[0].id == id then 0
    else
      var rest := FindIndex(products[1..], id);
      assert forall j :: 1 <= j < |products| ==> products[j] == products[1..][j - 1];
      if rest == -1 then -1 else rest + 1
  }

  /** The list after the update and review reducers: the first product with the
      payload's id is replaced by the payload, when there is one. */
  function ReplaceFirst(products: seq<Product>, payload: Product): seq<Product> {
    var index := FindIndex(products, payload.id);
    if index != -1 then products[index := payload] else products
  }

  /** `products.filter(p => p._id !== id)`. */
  function RemoveProduct(products: seq<Product>, id: string): (r: seq<Product>)
    ensures |r| <= |products|
    ensures forall i :: 0 <= i < |r| ==> r[i].id != id
    ensures forall p :: p in r <==> p in products && p.id != id
  {
    if products == [] then []
    else (if products[0].id == id then [] else [products[0]]) + RemoveProduct(products[1..], id)
  }

  // ------------------------------------------------------------ list lemmas

  /** Replacing keeps the length, puts the payload at the first index with its
      id, and leaves every other position as it was. */
  lemma ReplaceFirstChangesOnlyFirstMatch(products: seq<Product>, payload: Product, k: nat)
    requires k < |products| && products[k].id == payload.id
    requires forall j :: 0 <= j < k ==> products[j].id != payload.id
    ensures |ReplaceFirst(products, payload)| == |products|
    ensures ReplaceFirst(products, payload)[k] == payload
    ensures forall j :: 0 <= j < |products| && j != k ==> ReplaceFirst(products, payload)[j] == products[j]
  {
    FirstMatchIsFound(products, payload.id, k);
  }

  /** The first index holding an id is the one `findIndex` returns. */
  lemma FirstMatchIsFound(products: seq<Product>, id: string, k: nat)
    requires k < |products| && products[k].id == id
    requires forall j :: 0 <= j < k ==> products[j].id != id
    ensures FindIndex(products, id) == k
  {
    var index := FindIndex(products, id);
    if index == -1 || index < k || k < index {
      assert false;
    }
  }

  /** An id that is not listed leaves the list as it was. */
  lemma ReplaceAbsentIdle(products: seq<Product>, payload: Product)
    requires forall j :: 0 <= j < |products| ==> products[j].id != payload.id
    ensures ReplaceFirst(products, payload) == products
  {
  }

  /** Storing the same payload twice is the same as storing it once. */
  lemma ReplaceFirstIdempotent(products: seq<Product>, payload: Product)
    ensures ReplaceFirst(ReplaceFirst(products, payload), payload) == ReplaceFirst(products, payload)
  {
    var index := FindIndex(products, payload.id);
    if index != -1 {
      var once := products[index := payload];
      assert forall j :: 0 <= j < index ==> once[j] == products[j];
      FirstMatchIsFound(once, payload.id, index);
    }
  }

  /** Deleting an id twice is the same as deleting it once. */
  lemma {:induction false} RemoveProductIdempotent(products: seq<Product>, id: string)
    ensures RemoveProduct(RemoveProduct(products, id), id) == RemoveProduct(products, id)
  {
    if products != [] {
      RemoveProductIdempotent(products[1..], id);
      var head := if products[0].id == id then [] else [products[0]];
      RemoveProductAppend(head, RemoveProduct(products[1..], id), id);
      if products[0].id != id {
        assert RemoveProduct(head, id) == head by {
          assert head[1..] == [];
        }
      }
    }
  }

  lemma {:induction false} RemoveProductAppend(a: seq<Product>, b: seq<Product>, id: string)
    ensures RemoveProduct(a + b, id) == RemoveProduct(a, id) + RemoveProduct(b, id)
  {
    if a != [] {
      assert (a + b)[0] == a[0] && (a + b)[1..] == a[1..] + b;
      RemoveProductAppend(a[1..], b, id);
    } else {
      assert a + b == b;
    }
  }

  /** Deleting a product that was just created takes it out again, along with every other copy of its id. */
  lemma CreateThenDelete(products: seq<Product>, created: Product)
    ensures RemoveProduct(products + [created], created.id) == RemoveProduct(products, created.id)
  {
    RemoveProductAppend(products, [created], created.id);
    assert [created][1..] == [];
    assert RemoveProduct(products, created.id) + [] == RemoveProduct(products, created.id);
  }

  /** Filtering keeps the kept products in their order: an id that is not listed changes nothing. */
  lemma {:induction false} RemoveAbsentIdle(products: seq<Product>, id: string)
    requires forall j :: 0 <= j < |products| ==> products[j].id != id
    ensures RemoveProduct(products, id) == products
  {
    if products != [] {
      assert forall j :: 0 <= j < |products[1..]| ==> products[1..][j] == products[j + 1];
      RemoveAbsentIdle(products[1..], id);
    }
  }

  // ------------------------------------------------------------------ the store

  class ProductState {
    var products: seq<Product>
    var product: Option<Product>
    var page: int
    var pages: int
    var isError: bool
    var isSuccess: bool
    var isLoading: bool
    var message: string

    /** The initial state: no products, no product, page 1 of 1, all flags clear. */
    constructor ()
      ensures products == [] && product == None && page == 1 && pages == 1
      ensures !isError && !isSuccess && !isLoading && message == ""
    {
      products := [];
      product := None;
      page := 1;
      pages := 1;
      isError := false;
      isSuccess := false;
      isLoading := false;
      message := "";
    }

    /** `reset`: the four status fields are cleared; the data is kept. */
    method Reset()
      modifies this
      ensures !isLoading && !isSuccess && !isError && message == ""
      ensures products == old(products) && product == old(product)
      ensures page == old(page) && pages == old(pages)
    {
      isLoading := false;
      isSuccess := false;
      isError := false;
      message := "";
    }

    /** Every `pending` case: only `isLoading` is set; an earlier error or success stays visible. */
    method Pending()
      modifies this
      ensures isLoading
      ensures isError == old(isError) && isSuccess == old(isSuccess) && message == old(message)
      ensures products == old(products) && product == old(product)
      ensures page == old(page) && pages == old(pages)
    {
      isLoading := true;
    }

    /** Every `rejected` case: the error flag and the message are set; the data stays. */
    method Rejected(payload: string)
      modifies this
      ensures !isLoading && isError && message == payload
      ensures isSuccess == old(isSuccess)
      ensures products == old(products) && product == old(product)
      ensures page == old(page) && pages == old(pages)
    {
      isLoading := false;
      isError := true;
      message := payload;
    }

    /** `getProducts.fulfilled`: the list and the pagination come from the payload. */
    method GetProductsFulfilled(payload: ProductPage)
      modifies this
      ensures !isLoading && isSuccess
      ensures products == payload.products && page == payload.page && pages == payload.pages
      ensures product == old(product) && isError == old(isError) && message == old(message)
    {
      isLoading := false;
      isSuccess := true;
      products := payload.products;
      page := payload.page;
      pages := payload.pages;
    }

    /** `getProduct.fulfilled`: the viewed product is the payload. */
    method GetProductFulfilled(payload: Product)
      modifies this
      ensures !isLoading && isSuccess && product == Some(payload)
      ensures products == old(products) && page == old(page) && pages == old(pages)
      ensures isError == old(isError) && message == old(message)
    {
      isLoading := false;
      isSuccess := true;
      product := Some(payload);
    }

    /** `createProduct.fulfilled`: the payload is pushed onto the end of the list. */
    method CreateProductFulfilled(payload: Product)
      modifies this
      ensures !isLoading && isSuccess
      ensures products == old(products) + [payload] && |products| == old(|products|) + 1
      ensures product == old(product) && page == old(page) && pages == old(pages)
      ensures isError == old(isError) && message == old(message)
    {
      isLoading := false;
      isSuccess := true;
      products := products + [payload];
    }

    /** `updateProduct.fulfilled`: the first listed product with the payload's id
        is overwritten, and so is the viewed product when its id matches. */
    method UpdateProductFulfilled(payload: Product)
      modifies this
      ensures !isLoading && isSuccess
      ensures products == ReplaceFirst(old(products), payload)
      ensures |products| == old(|products|)
      ensures product == if old(product).Some? && old(product).value.id == payload.id then Some(payload)
                         else old(product)
      ensures page == old(page) && pages == old(pages)
      ensures isError == old(isError) && message == old(message)
    {
      isLoading := false;
      isSuccess := true;
      var index := FindIndex(products, payload.id);
      if index != -1 {
        products := products[index := payload];
      }
      if product.Some? && product.value.id == payload.id {
        product := Some(payload);
      }
    }

    /** `deleteProduct.fulfilled`: every listed product with the deleted id is filtered out. */
    method DeleteProductFulfilled(id: string)
      modifies this
      ensures !isLoading && isSuccess
      ensures products == RemoveProduct(old(products), id)
      ensures product == old(product) && page == old(page) && pages == old(pages)
      ensures isError == old(isError) && message == old(message)
    {
      isLoading := false;
      isSuccess := true;
      products := RemoveProduct(products, id);
    }

    /** `addReview.fulfilled`: the reviewed product comes back and is stored
        the same way as an update, the viewed product first. */
    method AddReviewFulfilled(payload: Product)
      modifies this
      ensures !isLoading && isSuccess
      ensures products == ReplaceFirst(old(products), payload)
      ensures |products| == old(|products|)
      ensures product == if old(product).Some? && old(product).value.id == payload.id then Some(payload)
                         else old(product)
      ensures page == old(page) && pages == old(pages)
      ensures isError == old(isError) && message == old(message)
    {
      isLoading := false;
      isSuccess := true;
      if product.Some? && product.value.id == payload.id {
        product := Some(payload);
      }
      var index := FindIndex(products, payload.id);
      if index != -1 {
        products := products[index := payload];
      }
    }
  }
}
