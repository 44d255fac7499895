/**
 * The checkout page: a shipping form filled from the saved address, edited
 * one field at a time and submitted to the cart store, beside the lines of
 * the cart and the same summary as the cart page.
 */
module CheckoutPage {
  import opened Wrappers
  import opened CartSlice
  import opened CartPage

  datatype FormData = FormData(address: string, city: string, postalCode: string, country: string)

  /** The four inputs, by their `name` attribute. */
  datatype Field = Address | City | PostalCode | Country

  const DefaultCountry := "India"

  /** `value || fallback` for a saved string: an absent or empty value gives the fallback. */
  function OrElse(value: Option<string>, fallback: string): (r: string)
    ensures value.Some? && value.value != "" ==> r == value.value
    ensures value.None? || value.value == "" ==> r == fallback
  {
    if value.Some? && value.value != "" then value.value else fallback
  }

  /** The form's first state, from the saved shipping address. */
  function InitialForm(saved: ShippingAddress): (f: FormData)
    ensures f.address == OrElse(saved.address, "") && f.city == OrElse(saved.city, "")
    ensures f.postalCode == OrElse(saved.postalCode, "") && f.country == OrElse(saved.country, DefaultCountry)
    ensures f.country != ""
  {
    FormData(OrElse(saved.address, ""), OrElse(saved.city, ""), OrElse(saved.postalCode, ""),
             OrElse(saved.country, DefaultCountry))
  }

  function Get(f: FormData, field: Field): string {
    match field
    case Address => f.address
    case City => f.city
    case PostalCode => f.postalCode
    case Country => f.country
  }

  /** `{ ...formData, [name]: value }`. */
  function WithField(f: FormData, field: Field, value: string): (r: FormData)
    ensures Get(r, field) == value
    ensures forall other :: other != field ==> Get(r, other) == Get(f, other)
  {
    match field
    case Address => f.(address := value)
    case City => f.(city := value)
    case PostalCode => f.(postalCode := value)
    case Country => f.(country := value)
  }

  /** The form data as the shipping address the cart store saves: every field present. */
  function AsAddress(f: FormData): (a: ShippingAddress)
    ensures a.address == Some(f.address) && a.city == Some(f.city)
    ensures a.postalCode == Some(f.postalCode) && a.country == Some(f.country)
  {
    ShippingAddress(Some(f.address), Some(f.city), Some(f.postalCode), Some(f.country))
  }

  /** Returning to the page after a submit shows the submitted form again,
      unless the country was emptied, which comes back as 'India'. */
  lemma ReopenAfterSubmit(f: FormData)
    ensures InitialForm(AsAddress(f)) == (if f.country == "" then f.(country := DefaultCountry) else f)
  {
  }

  class CheckoutForm {
    var formData: FormData

    constructor (saved: ShippingAddress)
      ensures formData == InitialForm(saved)
    {
      formData := InitialForm(saved);
    }

    method HandleChange(field: Field, value: string)
      modifies this
      ensures formData == WithField(old(formData), field, value)
    {
      formData := WithField(formData, field, value);
    }

    /** Saves exactly the form as the shipping address, then sets the payment method. */
    method HandleSubmit(cart: CartState)
      modifies cart
      ensures cart.shippingAddress == AsAddress(formData)
      ensures cart.paymentMethod == DefaultPaymentMethod
      ensures cart.cartItems == old(cart.cartItems) && cart.total == old(cart.total)
    {
      cart.SaveShippingAddress(AsAddress(formData));
      cart.SavePaymentMethod(DefaultPaymentMethod);
    }
  }

  // ------------------------------------------------------------------ the view

  /** The lines and the summary beside the form. */
  datatype CheckoutSummary = CheckoutSummary(lines: seq<int>, summary: Summary)

  function Sum(xs: seq<int>): int {
    if xs == [] then 0 else xs[0] + Sum(xs[1..])
  }

  /** An empty cart renders no form and no summary; otherwise each line shows price times quantity. */
  function CheckoutView(items: seq<CartItem>, total: int): (v: Option<CheckoutSummary>)
    ensures v.None? <==> items == []
    ensures v.Some? ==> |v.value.lines| == |items| && v.value.summary == SummaryOf(total)
    ensures v.Some? ==> forall i :: 0 <= i < |items| ==> v.value.lines[i] == items[i].product.price * items[i].qty
  {
    if items == [] then None
    else Some(CheckoutSummary(seq(|items|, i requires 0 <= i < |items| => items[i].LineTotal()), SummaryOf(total)))
  }

  /** The printed lines add up to the cart's subtotal, which is the printed subtotal while `total` is up to date. */
  lemma {:induction false} LinesAddUpToSubtotal(items: seq<CartItem>, total: int)
    requires items != []
    ensures Sum(CheckoutView(items, total).value.lines) == Subtotal(items)
  {
    LineSum(items);
  }

  lemma {:induction false} LineSum(items: seq<CartItem>)
    ensures Sum(seq(|items|, i requires 0 <= i < |items| => items[i].LineTotal())) == Subtotal(items)
  {
    var lines := seq(|items|, i requires 0 <= i < |items| => items[i].LineTotal());
    if items != [] {
      LineSum(items[1..]);
      assert lines[1..] == seq(|items[1..]|, i requires 0 <= i < |items[1..]| => items[1..][i].LineTotal());
    }
  }
}
