/**
 * The site header: the cart badge, the search box, the account menu with
 * its admin link, and sign-out.
 */
module Header {
  import opened Wrappers
  import opened Text
  import opened CartSlice
  import opened AuthSlice

  /** `cartItems.reduce((total, item) => total + item.qty, 0)`. */
  function CartItemsCount(items: seq<CartItem>): int {
    if items == [] then 0 else items[0].qty + CartItemsCount(items[1..])
  }

  /** The badge is drawn only for a positive count. */
  predicate ShowsBadge(items: seq<CartItem>) {
    CartItemsCount(items) > 0
  }

  lemma {:induction false} CountAppend(a: seq<CartItem>, b: seq<CartItem>)
    ensures CartItemsCount(a + b) == CartItemsCount(a) + CartItemsCount(b)
  {
    if a != [] {
      assert (a + b)[0] == a[0] && (a + b)[1..] == a[1..] + b;
      CountAppend(a[1..], b);
    } else {
      assert a + b == b;
    }
  }

  /** Raising the items of an `_id` by one raises the count by the number of such items. */
  lemma {:induction false} CountIncrement(items: seq<CartItem>, id: string)
    ensures CartItemsCount(IncrementQty(items, id)) == CartItemsCount(items) + LinesWithId(items, id)
  {
    if items != [] {
      CountIncrement(items[1..], id);
      assert IncrementQty(items, id)[1..] == IncrementQty(items[1..], id);
    }
  }

  function LinesWithId(items: seq<CartItem>, id: string): (n: nat)
    ensures n <= |items|
  {
    if items == [] then 0 else (if items[0].Id() == id then 1 else 0) + LinesWithId(items[1..], id)
  }

  lemma {:induction false} OneLineWithUniqueId(items: seq<CartItem>, k: nat)
    requires UniqueIds(items) && k < |items|
    ensures LinesWithId(items, items[k].Id()) == 1
  {
    if k == 0 {
      NoLineWithAbsentId(items[1..], items[0].Id());
    } else {
      OneLineWithUniqueId(items[1..], k - 1);
    }
  }

  lemma {:induction false} NoLineWithAbsentId(items: seq<CartItem>, id: string)
    requires !HasId(items, id)
    ensures LinesWithId(items, id) == 0
  {
    if items != [] {
      assert forall i :: 0 <= i < |items[1..]| ==> items[1..][i] == items[i + 1];
      NoLineWithAbsentId(items[1..], id);
    }
  }

  /** With unique ids, every `addToCart` raises the badge count by exactly one. */
  lemma AddRaisesCountByOne(items: seq<CartItem>, payload: AddPayload)
    requires UniqueIds(items)
    ensures CartItemsCount(AddItem(items, payload)) == CartItemsCount(items) + 1
  {
    var id := payload.product.id;
    if HasId(items, id) {
      var k :| 0 <= k < |items| && items[k].Id() == id;
      CountIncrement(items, id);
      OneLineWithUniqueId(items, k);
    } else {
      CountAppend(items, [CartItem(payload.product, 1)]);
    }
  }

  /** The Admin Dashboard link is in the menu exactly for a signed-in administrator. */
  function ShowsAdminLink(user: Option<User>): (b: bool)
    ensures b <==> user.Some? && user.value.isAdmin
  {
    match user
    case None => false
    case Some(u) => u.isAdmin
  }

  /** The address the search box navigates to, with `encodeURIComponent` given as
      `encode`; none for a query that trims to nothing. */
  function SearchTarget(query: string, encode: string -> string): (r: Option<string>)
    ensures r.None? <==> AllWhitespace(query)
    ensures r.Some? ==> r.value == "/products?search=" + encode(Trim(query))
  {
    TrimEmptyIff(query);
    if Trim(query) != "" then Some("/products?search=" + encode(Trim(query))) else None
  }

  /** Queries that differ only in surrounding white space lead to the same address. */
  lemma SearchIgnoresSurroundingSpace(query: string, encode: string -> string)
    ensures SearchTarget(Trim(query), encode) == SearchTarget(query, encode)
  {
    TrimIdempotent(query);
    TrimEmptyIff(query);
    TrimEmptyIff(Trim(query));
  }

  class HeaderView {
    var isMenuOpen: bool
    var searchQuery: string

    constructor ()
      ensures !isMenuOpen && searchQuery == ""
    {
      isMenuOpen := false;
      searchQuery := "";
    }

    /** The account button and the mobile menu button. */
    method ToggleMenu()
      modifies this
      ensures isMenuOpen == !old(isMenuOpen) && searchQuery == old(searchQuery)
    {
      isMenuOpen := !isMenuOpen;
    }

    /** Every link of the menus. */
    method CloseMenu()
      modifies this
      ensures !isMenuOpen && searchQuery == old(searchQuery)
    {
      isMenuOpen := false;
    }

    method SetSearchQuery(value: string)
      modifies this
      ensures searchQuery == value && isMenuOpen == old(isMenuOpen)
    {
      searchQuery := value;
    }

    /** Submitting the search box: where it navigates to, if anywhere. */
    method HandleSearch(encode: string -> string) returns (target: Option<string>)
      ensures target == SearchTarget(searchQuery, encode)
    {
      target := SearchTarget(searchQuery, encode);
    }

    /** The menu's Logout: signs out, goes to '/', and closes the menu. */
    method Logout(auth: AuthState) returns (target: string)
      modifies this, auth
      ensures auth.user == None && target == "/"
      ensures auth.isLoading == old(auth.isLoading) && auth.isSuccess == old(auth.isSuccess)
      ensures auth.isError == old(auth.isError) && auth.message == old(auth.message)
      ensures !isMenuOpen && searchQuery == old(searchQuery)
    {
      auth.LogoutFulfilled();
      target := "/";
      isMenuOpen := false;
    }
  }

  /** Toggling the menu twice leaves it as it was. */
  method ToggleTwice(h: HeaderView)
    modifies h
    ensures h.isMenuOpen == old(h.isMenuOpen) && h.searchQuery == old(h.searchQuery)
  {
    h.ToggleMenu();
    h.ToggleMenu();
  }
}
