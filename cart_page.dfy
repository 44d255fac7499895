/**
 * The cart page: the actions its quantity and remove buttons dispatch, and
 * the order summary it shows beside a non-empty cart (flat shipping of 50,
 * 18% tax, amounts printed with `toFixed(0)`). The checkout page shows the
 * same summary.
 */
module CartPage {
  import opened Wrappers
  import opened ProductModel
  import opened CartSlice

  // ------------------------------------------------------------ quantity buttons

  /** The quantity the minus button asks for: `Math.max(1, qty - 1)`. */
  function Decremented(qty: int): (q: int)
    ensures q >= 1
    ensures q == qty - 1 || q == 1
    ensures qty > 1 <==> q == qty - 1
  {
    if qty - 1 >= 1 then qty - 1 else 1
  }

  /** The minus button is disabled for a line whose quantity is exactly 1. */
  predicate DecrementDisabled(item: CartItem) {
    item.qty == 1
  }

  /** The cart reducer actions the page dispatches. */
  datatype CartAction = UpdateQuantity(id: string, qty: int) | RemoveFromCart(id: string)

  /** The minus button of a line: nothing while it is disabled. */
  function DecrementAction(item: CartItem): (a: Option<CartAction>)
    ensures a.None? <==> DecrementDisabled(item)
    ensures a.Some? ==> a.value.UpdateQuantity? && a.value.id == item.Id() && a.value.qty >= 1
  {
    if DecrementDisabled(item) then None else Some(UpdateQuantity(item.Id(), Decremented(item.qty)))
  }

  /** The plus button of a line: one more, with no stock limit. */
  function IncrementAction(item: CartItem): (a: CartAction)
    ensures a.UpdateQuantity? && a.id == item.Id() && a.qty == item.qty + 1
  {
    UpdateQuantity(item.Id(), item.qty + 1)
  }

  /** The trash button of a line. */
  function RemoveAction(item: CartItem): (a: CartAction)
    ensures a.RemoveFromCart? && a.id == item.Id()
  {
    RemoveFromCart(item.Id())
  }

  /** The items after the reducer handles an action the page dispatched. */
  function Apply(items: seq<CartItem>, a: CartAction): seq<CartItem> {
    match a
    case UpdateQuantity(id, qty) => SetQty(items, id, qty)
    case RemoveFromCart(id) => RemoveId(items, id)
  }

  predicate AllPositive(items: seq<CartItem>) {
    forall i :: 0 <= i < |items| ==> items[i].qty >= 1
  }

  /** Starting from quantities of at least 1, no button of the page takes a line below 1. */
  lemma ButtonsKeepQuantitiesPositive(items: seq<CartItem>, k: nat)
    requires AllPositive(items) && k < |items|
    ensures DecrementAction(items[k]).Some? ==> AllPositive(Apply(items, DecrementAction(items[k]).value))
    ensures AllPositive(Apply(items, IncrementAction(items[k])))
    ensures AllPositive(Apply(items, RemoveAction(items[k])))
  {
    var removed := Apply(items, RemoveAction(items[k]));
    forall i | 0 <= i < |removed| ensures removed[i].qty >= 1 {
      assert removed[i] in items;
    }
  }

  // --------------------------------------------------------------- the summary

  /** The flat shipping charge. */
  const ShippingCharge := 50

  /** `x.toFixed(0)` read back as a number: the nearest integer, a tie going away from zero. */
  function ToFixed0(x: real): (n: int)
    ensures x - 0.5 <= n as real <= x + 0.5
    ensures x >= 0.0 ==> x - 0.5 < n as real
    ensures x < 0.0 ==> n as real < x + 0.5
  {
    if x >= 0.0 then (x + 0.5).Floor else -((-x + 0.5).Floor)
  }

  /** The amounts of the summary box. */
  datatype Summary = Summary(subtotal: int, shipping: int, tax: int, total: int)

  /** Subtotal as stored, shipping 50, tax 18% of the subtotal and the grand total
      each printed with `toFixed(0)`; the total rounds the unrounded tax. */
  function SummaryOf(subtotal: int): (s: Summary)
    ensures s.subtotal == subtotal && s.shipping == ShippingCharge
    ensures s.tax as real - 0.5 <= subtotal as real * 0.18 <= s.tax as real + 0.5
    ensures s.total as real - 0.5 <= subtotal as real * 1.18 + 50.0 <= s.total as real + 0.5
    ensures subtotal >= 0 ==> subtotal as real * 0.18 - 0.5 < s.tax as real
    ensures subtotal < 0 ==> s.tax as real < subtotal as real * 0.18 + 0.5
    ensures subtotal as real * 1.18 + 50.0 >= 0.0 ==> subtotal as real * 1.18 + 50.0 - 0.5 < s.total as real
    ensures subtotal as real * 1.18 + 50.0 < 0.0 ==> s.total as real < subtotal as real * 1.18 + 50.0 + 0.5
  {
    var tax := subtotal as real * 0.18;
    Summary(subtotal, ShippingCharge, ToFixed0(tax), ToFixed0(subtotal as real + 50.0 + tax))
  }

  /** Rounding half away from zero commutes with adding an integer to a non-negative amount. */
  lemma ToFixed0ShiftsByInteger(k: int, y: real)
    requires k >= 0 && y >= 0.0
    ensures ToFixed0(k as real + y) == k + ToFixed0(y)
  {
    var n, m := (k as real + y + 0.5).Floor, (y + 0.5).Floor;
    assert n as real <= k as real + y + 0.5 < n as real + 1.0;
    assert m as real <= y + 0.5 < m as real + 1.0;
  }

  /** For a non-negative subtotal the printed lines add up to the printed total. */
  lemma SummaryAddsUp(subtotal: int)
    requires subtotal >= 0
    ensures var s := SummaryOf(subtotal); s.subtotal + s.shipping + s.tax == s.total
  {
    var tax := subtotal as real * 0.18;
    assert subtotal as real + 50.0 + tax == (subtotal + 50) as real + tax;
    ToFixed0ShiftsByInteger(subtotal + 50, tax);
  }

  /** Below zero the lines can disagree: a subtotal of -25 prints a tax of -5 and a total of 21, not 20. */
  lemma SummaryMismatchBelowZero()
    ensures var s := SummaryOf(-25); s.tax == -5 && s.total == 21
    ensures var s := SummaryOf(-25); s.subtotal + s.shipping + s.tax != s.total
  {
    assert (-25) as real * 0.18 == -4.5;
    assert (4.5 + 0.5).Floor == 5;
    assert (-25) as real + 50.0 + -4.5 == 20.5;
    assert (20.5 + 0.5).Floor == 21;
  }

  /** What the page shows next to the items: no summary at all for an empty cart,
      so the stale `total` the effective `clearCart` leaves is never printed here. */
  function CartView(items: seq<CartItem>, total: int): (v: Option<Summary>)
    ensures v.None? <==> items == []
    ensures v.Some? ==> v.value.subtotal == total
  {
    if items == [] then None else Some(SummaryOf(total))
  }

  /** The seeded sample order: two of a 299 product and one of a 599 product make
      its items price of 1197. Its stored tax of 100, shipping of 0 and total of
      1297 do not follow the storefront's formula, which prints tax 215 and total
      1462 for the same items. */
  lemma SeededOrderAgainstSummary(p0: Product, p2: Product)
    requires p0.price == 299 && p2.price == 599
    ensures Subtotal([CartItem(p0, 2), CartItem(p2, 1)]) == 1197
    ensures SummaryOf(1197).tax == 215 && SummaryOf(1197).total == 1462
  {
    var items := [CartItem(p0, 2), CartItem(p2, 1)];
    assert items[1..] == [CartItem(p2, 1)];
    assert items[1..][1..] == [];
    assert Subtotal(items[1..]) == 599;
    assert items[0].LineTotal() == 598;
    assert 1197 as real * 0.18 == 215.46;
    assert (215.46 + 0.5).Floor == 215;
    assert 1197 as real + 50.0 + 215.46 == 1462.46;
    assert (1462.46 + 0.5).Floor == 1462;
  }
}
