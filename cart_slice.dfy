/**
 * The cart store of the storefront: its initial state, read from the
 * browser's saved copy, and its reducers. `total` is a derived field that
 * each item-changing reducer recomputes as the sum of `price * qty`.
 */
module CartSlice {
  import opened Wrappers
  import opened ProductModel

  /** A cart line: the product object spread into the item, and its `qty`. */
  datatype CartItem = CartItem(product: Product, qty: int) {
    /** The item's `_id`. */
    function Id(): string { product.id }
    function LineTotal(): int { product.price * qty }
  }

  /** The payload of `addToCart`: a product, carrying a `qty` when it comes from the detail page. */
  datatype AddPayload = AddPayload(product: Product, qty: Option<int>)

  /** A shipping address; a field the saved object lacks is None. */
  datatype ShippingAddress = ShippingAddress(
    address: Option<string>, city: Option<string>, postalCode: Option<string>, country: Option<string>)

  /** The `{}` default. */
  const NoAddress := ShippingAddress(None, None, None, None)

  const DefaultPaymentMethod := "Razorpay"

  /** `items.reduce((acc, item) => acc + item.price * item.qty, 0)`. */
  function Subtotal(items: seq<CartItem>): int {
    if items == [] then 0 else items[0].LineTotal() + Subtotal(items[1..])
  }

  predicate HasId(items: seq<CartItem>, id: string) {
    exists i :: 0 <= i < |items| && items[i].Id() == id
  }

  /** No two items share an `_id`. */
  predicate UniqueIds(items: seq<CartItem>) {
    forall i, j :: 0 <= i < j < |items| ==> items[i].Id() != items[j].Id()
  }

  /** The sum of the prices of the items with the given `_id`. */
  function PriceOfId(items: seq<CartItem>, id: string): int {
    if items == [] then 0
    else (if items[0].Id() == id then items[0].product.price else 0) + PriceOfId(items[1..], id)
  }

  /** The sum of the line totals of the items with the given `_id`. */
  function LinesOfId(items: seq<CartItem>, id: string): int {
    if items == [] then 0
    else (if items[0].Id() == id then items[0].LineTotal() else 0) + LinesOfId(items[1..], id)
  }

  /** `items.map(x => x._id === id ? { ...x, qty: x.qty + 1 } : x)`. */
  function IncrementQty(items: seq<CartItem>, id: string): (r: seq<CartItem>)
    ensures |r| == |items|
    ensures forall i :: 0 <= i < |items| ==>
              r[i] == if items[i].Id() == id then items[i].(qty := items[i].qty + 1) else items[i]
  {
    if items == [] then []
    else [if items[0].Id() == id then items[0].(qty := items[0].qty + 1) else items[0]]
         + IncrementQty(items[1..], id)
  }

  /** `items.map(item => item._id === id ? { ...item, qty } : item)`. */
  function SetQty(items: seq<CartItem>, id: string, qty: int): (r: seq<CartItem>)
    ensures |r| == |items|
    ensures forall i :: 0 <= i < |items| ==>
              r[i] == if items[i].Id() == id then items[i].(qty := qty) else items[i]
  {
    if items == [] then []
    else [if items[0].Id() == id then items[0].(qty := qty) else items[0]] + SetQty(items[1..], id, qty)
  }

  /** `items.filter(x => x._id !== id)`. */
  function RemoveId(items: seq<CartItem>, id: string): (r: seq<CartItem>)
    ensures |r| <= |items|
    ensures forall i :: 0 <= i < |r| ==> r[i].Id() != id
    ensures forall x :: x in r <==> x in items && x.Id() != id
  {
    if items == [] then []
    else (if items[0].Id() == id then [] else [items[0]]) + RemoveId(items[1..], id)
  }

  /** The new items of `addToCart`: an existing `_id` has its quantity raised by one,
      a new one is appended with quantity 1; the payload's `qty` plays no part. */
  function AddItem(items: seq<CartItem>, payload: AddPayload): seq<CartItem> {
    if HasId(items, payload.product.id) then IncrementQty(items, payload.product.id)
    else items + [CartItem(payload.product, 1)]
  }

  // ------------------------------------------------------------ subtotal lemmas

  lemma {:induction false} SubtotalAppend(a: seq<CartItem>, b: seq<CartItem>)
    ensures Subtotal(a + b) == Subtotal(a) + Subtotal(b)
  {
    if a != [] {
      assert (a + b)[0] == a[0] && (a + b)[1..] == a[1..] + b;
      SubtotalAppend(a[1..], b);
    } else {
      assert a + b == b;
    }
  }

  /** Raising the quantities of the items with an `_id` by one raises the subtotal by their prices. */
  lemma {:induction false} SubtotalIncrement(items: seq<CartItem>, id: string)
    ensures Subtotal(IncrementQty(items, id)) == Subtotal(items) + PriceOfId(items, id)
  {
    if items != [] {
      SubtotalIncrement(items[1..], id);
      assert IncrementQty(items, id)[1..] == IncrementQty(items[1..], id);
    }
  }

  /** Filtering out an `_id` lowers the subtotal by that id's line totals. */
  lemma {:induction false} SubtotalRemove(items: seq<CartItem>, id: string)
    ensures Subtotal(RemoveId(items, id)) == Subtotal(items) - LinesOfId(items, id)
  {
    if items != [] {
      SubtotalRemove(items[1..], id);
      var head := if items[0].Id() == id then [] else [items[0]];
      SubtotalAppend(head, RemoveId(items[1..], id));
    }
  }

  /** Setting the quantity of the items with an `_id` changes the subtotal by the new minus the old line totals. */
  lemma {:induction false} SubtotalSetQty(items: seq<CartItem>, id: string, qty: int)
    ensures Subtotal(SetQty(items, id, qty)) == Subtotal(items) - LinesOfId(items, id) + PriceOfId(items, id) * qty
  {
    if items != [] {
      SubtotalSetQty(items[1..], id, qty);
      assert SetQty(items, id, qty)[1..] == SetQty(items[1..], id, qty);
      var p := items[0].product.price;
      assert (p + PriceOfId(items[1..], id)) * qty == p * qty + PriceOfId(items[1..], id) * qty;
    }
  }

  /** With unique ids, exactly one item carries an `_id` that is present; its price is the id's price. */
  lemma {:induction false} PriceOfUniqueId(items: seq<CartItem>, k: nat)
    requires UniqueIds(items) && k < |items|
    ensures PriceOfId(items, items[k].Id()) == items[k].product.price
    ensures LinesOfId(items, items[k].Id()) == items[k].LineTotal()
  {
    if k == 0 {
      NoPriceOfAbsentId(items[1..], items[0].Id());
    } else {
      PriceOfUniqueId(items[1..], k - 1);
    }
  }

  lemma {:induction false} NoPriceOfAbsentId(items: seq<CartItem>, id: string)
    requires !HasId(items, id)
    ensures PriceOfId(items, id) == 0 && LinesOfId(items, id) == 0
  {
    if items != [] {
      assert forall i :: 0 <= i < |items[1..]| ==> items[1..][i] == items[i + 1];
      NoPriceOfAbsentId(items[1..], id);
    }
  }

  // ------------------------------------------------------------ addToCart lemmas

  /** A new `_id` is appended once, at the end, with quantity 1, whatever `qty` the payload carried. */
  lemma AddNewAppends(items: seq<CartItem>, payload: AddPayload)
    requires !HasId(items, payload.product.id)
    ensures AddItem(items, payload) == items + [CartItem(payload.product, 1)]
    ensures |AddItem(items, payload)| == |items| + 1
  {
  }

  /** An existing `_id` keeps the length and raises only that item's quantity, by one. */
  lemma AddExistingIncrements(items: seq<CartItem>, payload: AddPayload, k: nat)
    requires UniqueIds(items) && k < |items| && items[k].Id() == payload.product.id
    ensures |AddItem(items, payload)| == |items|
    ensures AddItem(items, payload)[k] == items[k].(qty := items[k].qty + 1)
    ensures forall i :: 0 <= i < |items| && i != k ==> AddItem(items, payload)[i] == items[i]
  {
  }

  /** The payload's `qty` is ignored. */
  lemma AddIgnoresPayloadQty(items: seq<CartItem>, product: Product, q1: Option<int>, q2: Option<int>)
    ensures AddItem(items, AddPayload(product, q1)) == AddItem(items, AddPayload(product, q2))
  {
  }

  lemma AddKeepsIdsUnique(items: seq<CartItem>, payload: AddPayload)
    requires UniqueIds(items)
    ensures UniqueIds(AddItem(items, payload))
  {
  }

  /** Adding raises the subtotal by one unit of price: the payload's price for a
      new item, and for an item already in the cart the price stored with it
      (with unique ids, PriceOfUniqueId), even when the payload's price differs. */
  lemma AddRaisesSubtotalByOnePrice(items: seq<CartItem>, payload: AddPayload)
    ensures Subtotal(AddItem(items, payload)) ==
            Subtotal(items) + (if HasId(items, payload.product.id) then PriceOfId(items, payload.product.id)
                               else payload.product.price)
  {
    var id := payload.product.id;
    if HasId(items, id) {
      SubtotalIncrement(items, id);
    } else {
      SubtotalAppend(items, [CartItem(payload.product, 1)]);
    }
  }

  // ---------------------------------------------------- removeFromCart lemmas

  /** Filtering distributes over concatenation: the kept items stay in their order. */
  lemma {:induction false} RemoveIdAppend(a: seq<CartItem>, b: seq<CartItem>, id: string)
    ensures RemoveId(a + b, id) == RemoveId(a, id) + RemoveId(b, id)
  {
    if a != [] {
      assert (a + b)[0] == a[0] && (a + b)[1..] == a[1..] + b;
      RemoveIdAppend(a[1..], b, id);
    } else {
      assert a + b == b;
    }
  }

  lemma {:induction false} RemoveIdIdle(items: seq<CartItem>, id: string)
    requires !HasId(items, id)
    ensures RemoveId(items, id) == items
  {
    if items != [] {
      assert forall i :: 0 <= i < |items[1..]| ==> items[1..][i] == items[i + 1];
      RemoveIdIdle(items[1..], id);
    }
  }

  /** With unique ids, removing the item at `k` takes out exactly that item. */
  lemma RemoveUniqueItem(items: seq<CartItem>, k: nat)
    requires UniqueIds(items) && k < |items|
    ensures RemoveId(items, items[k].Id()) == items[..k] + items[k + 1..]
  {
    var id := items[k].Id();
    var before, after := items[..k], items[k + 1..];
    UniqueIdOnlyAt(items, k);
    SplitAt(items, k);
    RemoveIdAppend(before, [items[k]] + after, id);
    RemoveIdAppend([items[k]], after, id);
    assert RemoveId([items[k]], id) == [] by {
      assert [items[k]][1..] == [];
    }
    RemoveIdIdle(before, id);
    RemoveIdIdle(after, id);
    assert [] + after == after;
  }

  /** With unique ids, the `_id` at `k` occurs neither before nor after it. */
  lemma UniqueIdOnlyAt(items: seq<CartItem>, k: nat)
    requires UniqueIds(items) && k < |items|
    ensures !HasId(items[..k], items[k].Id()) && !HasId(items[k + 1..], items[k].Id())
  {
    var before, after := items[..k], items[k + 1..];
    assert forall i :: 0 <= i < |before| ==> before[i] == items[i];
    assert forall i :: 0 <= i < |after| ==> after[i] == items[k + 1 + i];
  }

  lemma SplitAt(items: seq<CartItem>, k: nat)
    requires k < |items|
    ensures items == items[..k] + ([items[k]] + items[k + 1..])
  {
    assert items[k..] == [items[k]] + items[k + 1..];
    assert items == items[..k] + items[k..];
  }

  lemma {:induction false} RemoveKeepsIdsUnique(items: seq<CartItem>, id: string)
    requires UniqueIds(items)
    ensures UniqueIds(RemoveId(items, id))
  {
    if items != [] {
      RemoveKeepsIdsUnique(items[1..], id);
      var rest := RemoveId(items[1..], id);
      assert forall x :: x in rest ==> x.Id() != items[0].Id() by {
        forall x | x in rest ensures x.Id() != items[0].Id() {
          var i :| 0 <= i < |items[1..]| && items[1..][i] == x;
          assert items[i + 1] == x;
        }
      }
    }
  }

  lemma SetQtyKeepsIdsUnique(items: seq<CartItem>, id: string, qty: int)
    requires UniqueIds(items)
    ensures UniqueIds(SetQty(items, id, qty))
  {
  }

  // ------------------------------------------------------------------ the store

  class CartState {
    var cartItems: seq<CartItem>
    var total: int
    var shippingAddress: ShippingAddress
    var paymentMethod: string

    /** `total` is the sum of `price * qty` over `cartItems`. */
    predicate TotalUpToDate()
      reads this
    {
      total == Subtotal(cartItems)
    }

    /** The initial state, from the saved items, address and payment method (None when nothing is saved). */
    constructor (savedItems: Option<seq<CartItem>>, savedAddress: Option<ShippingAddress>,
                 savedPaymentMethod: Option<string>)
      ensures cartItems == (if savedItems.Some? then savedItems.value else [])
      ensures TotalUpToDate()
      ensures shippingAddress == (if savedAddress.Some? then savedAddress.value else NoAddress)
      // an empty saved string is falsy and gives way to the default too
      ensures paymentMethod ==
              (if savedPaymentMethod.Some? && savedPaymentMethod.value != "" then savedPaymentMethod.value
               else DefaultPaymentMethod)
    {
      cartItems := savedItems.GetOr([]);
      total := Subtotal(savedItems.GetOr([]));
      shippingAddress := savedAddress.GetOr(NoAddress);
      paymentMethod := if savedPaymentMethod.Some? && savedPaymentMethod.value != ""
                       then savedPaymentMethod.value else DefaultPaymentMethod;
    }

    method AddToCart(payload: AddPayload)
      modifies this
      ensures cartItems == AddItem(old(cartItems), payload)
      ensures TotalUpToDate()
      ensures old(UniqueIds(cartItems)) ==> UniqueIds(cartItems)
      ensures total == old(Subtotal(cartItems)) +
                       (if old(HasId(cartItems, payload.product.id)) then old(PriceOfId(cartItems, payload.product.id))
                        else payload.product.price)
      ensures shippingAddress == old(shippingAddress) && paymentMethod == old(paymentMethod)
    {
      if UniqueIds(cartItems) {
        AddKeepsIdsUnique(cartItems, payload);
      }
      AddRaisesSubtotalByOnePrice(cartItems, payload);
      cartItems := AddItem(cartItems, payload);
      total := Subtotal(cartItems);
    }

    method RemoveFromCart(id: string)
      modifies this
      ensures cartItems == RemoveId(old(cartItems), id)
      ensures TotalUpToDate()
      ensures total == old(Subtotal(cartItems)) - LinesOfId(old(cartItems), id)
      ensures old(UniqueIds(cartItems)) ==> UniqueIds(cartItems)
      ensures shippingAddress == old(shippingAddress) && paymentMethod == old(paymentMethod)
    {
      if UniqueIds(cartItems) {
        RemoveKeepsIdsUnique(cartItems, id);
      }
      SubtotalRemove(cartItems, id);
      cartItems := RemoveId(cartItems, id);
      total := Subtotal(cartItems);
    }

    /** `updateQuantity({ id, qty })`; no bound is put on `qty`. */
    method UpdateQuantity(id: string, qty: int)
      modifies this
      ensures cartItems == SetQty(old(cartItems), id, qty)
      ensures TotalUpToDate()
      ensures old(UniqueIds(cartItems)) ==> UniqueIds(cartItems)
      ensures shippingAddress == old(shippingAddress) && paymentMethod == old(paymentMethod)
    {
      if UniqueIds(cartItems) {
        SetQtyKeepsIdsUnique(cartItems, id, qty);
      }
      cartItems := SetQty(cartItems, id, qty);
      total := Subtotal(cartItems);
    }

    /** The first `clearCart` of the reducer object. The later key of the same
        name replaces it, so no action reaches this definition. */
    method ShadowedClearCart()
      modifies this
      ensures cartItems == [] && total == 0 && TotalUpToDate()
      ensures shippingAddress == old(shippingAddress) && paymentMethod == old(paymentMethod)
    {
      cartItems := [];
      total := 0;
    }

    /** The `clearCart` that takes effect: it empties the items but leaves `total` as it was. */
    method ClearCart()
      modifies this
      ensures cartItems == [] && total == old(total)
      ensures TotalUpToDate() <==> old(total) == 0
      ensures shippingAddress == old(shippingAddress) && paymentMethod == old(paymentMethod)
    {
      cartItems := [];
    }

    method SaveShippingAddress(address: ShippingAddress)
      modifies this
      ensures shippingAddress == address
      ensures cartItems == old(cartItems) && total == old(total) && paymentMethod == old(paymentMethod)
    {
      shippingAddress := address;
    }

    method SavePaymentMethod(choice: string)
      modifies this
      ensures paymentMethod == choice
      ensures cartItems == old(cartItems) && total == old(total) && shippingAddress == old(shippingAddress)
    {
      paymentMethod := choice;
    }
  }
}
