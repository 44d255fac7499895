/**
 * The product page: a quantity selector kept between 1 and the stock, the
 * add-to-cart handler, the image gallery and the five rating stars.
 */
module ProductDetailPage {
  import opened Wrappers
  import opened ProductModel
  import opened CartSlice
  import opened CartPage

  /** The quantity the plus button sets: `Math.min(countInStock, quantity + 1)`. */
  function Incremented(qty: int, countInStock: int): (q: int)
    ensures q <= countInStock && q <= qty + 1
    ensures q == qty + 1 || q == countInStock
  {
    if countInStock <= qty + 1 then countInStock else qty + 1
  }

  /** With stock on hand, the selector never leaves the range 1 to the stock. */
  lemma QuantityStaysInStock(qty: int, countInStock: int)
    requires 1 <= qty <= countInStock
    ensures 1 <= Decremented(qty) <= countInStock
    ensures 1 <= Incremented(qty, countInStock) <= countInStock
  {
  }

  /** Out of stock, the plus button sets the quantity to 0 and the minus button back to 1. */
  lemma OutOfStockQuantity(qty: int)
    requires qty >= 0
    ensures Incremented(qty, 0) == 0
    ensures Decremented(Incremented(qty, 0)) == 1
  {
  }

  /** The gallery: the product's `images` when there are any, else its one `image`. */
  function ProductImages(p: Product): (r: seq<string>)
    ensures |r| >= 1
    ensures |p.images| > 0 ==> r == p.images
    ensures |p.images| == 0 ==> r == [p.image]
  {
    if |p.images| > 0 then p.images else [p.image]
  }

  /** Thumbnails are drawn only for a gallery of more than one image. */
  predicate ShowsThumbnails(p: Product) {
    |ProductImages(p)| > 1
  }

  lemma ThumbnailsNeedTwoImages(p: Product)
    ensures ShowsThumbnails(p) <==> |p.images| >= 2
  {
  }

  /** The add button is disabled exactly when nothing is in stock. */
  predicate AddDisabled(p: Product) {
    p.countInStock == 0
  }

  /** Star `i` of the five is filled when `i < rating`. */
  function Stars(rating: real): (r: seq<bool>)
    ensures |r| == 5
    ensures forall i :: 0 <= i < 5 ==> (r[i] <==> (i as real) < rating)
  {
    seq(5, i requires 0 <= i < 5 => (i as real) < rating)
  }

  /** The filled stars come first. */
  lemma StarsFilledFirst(rating: real, i: nat, j: nat)
    requires j < i < 5 && Stars(rating)[i]
    ensures Stars(rating)[j]
  {
  }

  /** A fractional rating fills the star it reaches into: 4.5 shows five filled stars, 4.0 four. */
  lemma StarsRoundUp()
    ensures Stars(4.5) == [true, true, true, true, true]
    ensures Stars(4.0) == [true, true, true, true, false]
  {
  }

  class ProductDetailView {
    var quantity: int
    var selectedImage: int

    constructor ()
      ensures quantity == 1 && selectedImage == 0
    {
      quantity := 1;
      selectedImage := 0;
    }

    method Decrement()
      modifies this
      ensures quantity == Decremented(old(quantity)) && selectedImage == old(selectedImage)
    {
      quantity := Decremented(quantity);
    }

    method Increment(countInStock: int)
      modifies this
      ensures quantity == Incremented(old(quantity), countInStock) && selectedImage == old(selectedImage)
    {
      quantity := Incremented(quantity, countInStock);
    }

    /** Clicking thumbnail `i`. */
    method SelectImage(i: int)
      modifies this
      ensures selectedImage == i && quantity == old(quantity)
    {
      selectedImage := i;
    }

    /** Sends the loaded product with `qty: quantity` to the cart, which ignores
        the quantity: the cart changes as if one unit was added. */
    method HandleAddToCart(product: Option<Product>, cart: CartState)
      modifies cart
      ensures product.None? ==> cart.cartItems == old(cart.cartItems) && cart.total == old(cart.total)
      ensures product.Some? ==> cart.cartItems == AddItem(old(cart.cartItems), AddPayload(product.value, Some(quantity)))
      ensures product.Some? ==> cart.cartItems == AddItem(old(cart.cartItems), AddPayload(product.value, None))
      ensures product.Some? ==> cart.TotalUpToDate()
      ensures cart.shippingAddress == old(cart.shippingAddress) && cart.paymentMethod == old(cart.paymentMethod)
    {
      if product.Some? {
        AddIgnoresPayloadQty(cart.cartItems, product.value, Some(quantity), None);
        cart.AddToCart(AddPayload(product.value, Some(quantity)));
      }
    }
  }
}
