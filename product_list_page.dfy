/**
 * The catalogue page: the category choices, the filtered and sorted list
 * of products, and the search and clear handlers that write the page's
 * state and the `search` URL parameter.
 */
module ProductListPage {
  import opened Wrappers
  import opened Text
  import opened ProductModel

  // ---------------------------------------------------------------- categories

  /** The position of the first occurrence of `x` in `s`. */
  function FirstIndexIn(s: seq<string>, x: string): (i: nat)
    requires x in s
    ensures i < |s| && s[i] == x && x !in s[..i]
  {
    if s[0] == x then 0
    else
      assert s[1..][..FirstIndexIn(s[1..], x)] == s[1..FirstIndexIn(s[1..], x) + 1];
      1 + FirstIndexIn(s[1..], x)
  }

  predicate Distinct(s: seq<string>) {
    forall i, j :: 0 <= i < j < |s| ==> s[i] != s[j]
  }

  /** The elements of `s` in the order a `Set` built from it iterates them: each once, at its first occurrence. */
  function Dedup(s: seq<string>): (r: seq<string>)
    ensures Distinct(r)
    ensures forall x :: x in r <==> x in s
    ensures forall i, j :: 0 <= i < j < |r| ==> FirstIndexIn(s, r[i]) < FirstIndexIn(s, r[j])
  {
    if s == [] then []
    else
      var init, last := s[..|s| - 1], s[|s| - 1];
      var rest := Dedup(init);
      assert s == init + [last];
      FirstIndexInPrefix(init, last);
      if last in init then rest else rest + [last]
  }

  /** Appending an element does not move the first occurrence of anything already present. */
  lemma FirstIndexInPrefix(init: seq<string>, last: string)
    ensures forall x :: x in init ==> FirstIndexIn(init + [last], x) == FirstIndexIn(init, x)
    ensures last !in init ==> FirstIndexIn(init + [last], last) == |init|
  {
    var s := init + [last];
    forall x | x in init
      ensures FirstIndexIn(s, x) == FirstIndexIn(init, x)
    {
      var i, k := FirstIndexIn(s, x), FirstIndexIn(init, x);
      assert s[k] == x;
      assert forall m :: 0 <= m < k ==> s[m] == init[m];
    }
  }

  function CategoriesOf(products: seq<Product>): (r: seq<string>)
    ensures |r| == |products|
    ensures forall i :: 0 <= i < |products| ==> r[i] == products[i].category
  {
    seq(|products|, i requires 0 <= i < |products| => products[i].category)
  }

  /** `['all', ...new Set(products.map(p => p.category))]`. */
  function Categories(products: seq<Product>): (r: seq<string>)
    ensures |r| >= 1 && r[0] == "all"
    ensures Distinct(r[1..])
    ensures forall c :: c in r[1..] <==> c in CategoriesOf(products)
    ensures forall c :: c in r[1..] <==> exists i :: 0 <= i < |products| && products[i].category == c
    ensures forall i, j :: 0 <= i < j < |r| - 1 ==>
              FirstIndexIn(CategoriesOf(products), r[1..][i]) < FirstIndexIn(CategoriesOf(products), r[1..][j])
  {
    var cats := CategoriesOf(products);
    var distinct := Dedup(cats);
    var r := ["all"] + distinct;
    assert r[1..] == distinct;
    assert forall c :: c in cats <==> exists i :: 0 <= i < |products| && products[i].category == c by {
      forall c | c in cats ensures exists i :: 0 <= i < |products| && products[i].category == c {
        var i :| 0 <= i < |cats| && cats[i] == c;
        assert products[i].category == c;
      }
    }
    r
  }

  /** A product category spelled "all" is listed again after the leading "all". */
  lemma CategoryAllRepeats(p: Product)
    requires p.category == "all"
    ensures Categories([p]) == ["all", "all"]
  {
    var cats := CategoriesOf([p]);
    assert cats == ["all"];
    assert cats[..0] == [];
    assert Dedup(cats) == ["all"];
  }

  // -------------------------------------------------------------------- filter

  /** The search term matches, ignoring case, part of the name or of the description. */
  predicate MatchesSearch(p: Product, term: string) {
    Includes(Lower(p.name), Lower(term)) || Includes(Lower(p.description), Lower(term))
  }

  predicate MatchesCategory(p: Product, category: string) {
    category == "all" || p.category == category
  }

  predicate Keep(p: Product, term: string, category: string) {
    MatchesSearch(p, term) && MatchesCategory(p, category)
  }

  /** `products.filter(...)` with the search and category predicates. */
  function FilterProducts(products: seq<Product>, term: string, category: string): (r: seq<Product>)
    ensures |r| <= |products|
    ensures forall i :: 0 <= i < |r| ==> Keep(r[i], term, category)
    ensures forall p :: p in r <==> p in products && Keep(p, term, category)
  {
    if products == [] then []
    else (if Keep(products[0], term, category) then [products[0]] else [])
         + FilterProducts(products[1..], term, category)
  }

  /** The filter of one product: itself when it is kept, nothing otherwise. */
  lemma FilterProductsSingle(p: Product, term: string, category: string)
    ensures FilterProducts([p], term, category) == if Keep(p, term, category) then [p] else []
  {
    assert [p][1..] == [];
  }

  /** Filtering distributes over concatenation, so the kept products stay in their order. */
  lemma {:induction false} FilterProductsAppend(a: seq<Product>, b: seq<Product>, term: string, category: string)
    ensures FilterProducts(a + b, term, category) == FilterProducts(a, term, category) + FilterProducts(b, term, category)
  {
    if a == [] {
      assert a + b == b;
    } else {
      assert (a + b)[0] == a[0] && (a + b)[1..] == a[1..] + b;
      FilterProductsAppend(a[1..], b, term, category);
    }
  }

  /** A kept product appears as often as in the catalogue, any other not at all. */
  lemma {:induction false} FilterProductsCounts(products: seq<Product>, term: string, category: string, p: Product)
    ensures multiset(FilterProducts(products, term, category))[p] ==
            if Keep(p, term, category) then multiset(products)[p] else 0
  {
    if products != [] {
      var head, rest := products[0], products[1..];
      var kept := if Keep(head, term, category) then [head] else [];
      FilterProductsCounts(rest, term, category, p);
      assert FilterProducts(products, term, category) == kept + FilterProducts(rest, term, category);
      assert multiset(kept + FilterProducts(rest, term, category)) == multiset(kept) + multiset(FilterProducts(rest, term, category));
      assert products == [head] + rest;
      assert multiset(products) == multiset([head]) + multiset(rest);
    }
  }

  /** An empty search with every category selected shows the whole catalogue. */
  lemma {:induction false} NoFilterKeepsAll(products: seq<Product>)
    ensures FilterProducts(products, "", "all") == products
  {
    if products != [] {
      IncludesEmpty(Lower(products[0].name));
      assert Lower("") == "";
      assert Keep(products[0], "", "all");
      NoFilterKeepsAll(products[1..]);
    }
  }

  // ---------------------------------------------------------------------- sort

  /** The sort options; any value of `sortBy` that is not one of the first three sorts by name. */
  datatype SortOrder = PriceLow | PriceHigh | ByRating | ByName

  function SortOrderOf(sortBy: string): (o: SortOrder)
    ensures o == PriceLow <==> sortBy == "price-low"
    ensures o == PriceHigh <==> sortBy == "price-high"
    ensures o == ByRating <==> sortBy == "rating"
  {
    if sortBy == "price-low" then PriceLow
    else if sortBy == "price-high" then PriceHigh
    else if sortBy == "rating" then ByRating
    else ByName
  }

  /** Lexicographic order of code units, standing in for `localeCompare`. */
  predicate StrLe(a: string, b: string) {
    a == [] || (b != [] && (a[0] < b[0] || (a[0] == b[0] && StrLe(a[1..], b[1..]))))
  }

  lemma {:induction false} StrLeTotal(a: string, b: string)
    ensures StrLe(a, b) || StrLe(b, a)
  {
    if a != [] && b != [] && a[0] == b[0] {
      StrLeTotal(a[1..], b[1..]);
    }
  }

  lemma {:induction false} StrLeTransitive(a: string, b: string, c: string)
    requires StrLe(a, b) && StrLe(b, c)
    ensures StrLe(a, c)
  {
    if a != [] && b != [] && c != [] && a[0] == b[0] && b[0] == c[0] {
      StrLeTransitive(a[1..], b[1..], c[1..]);
    }
  }

  /** The comparator returns a value of at most zero: `a` may stay ahead of `b`. */
  predicate Le(o: SortOrder, a: Product, b: Product) {
    match o
    case PriceLow => a.price <= b.price
    case PriceHigh => b.price <= a.price
    case ByRating => b.rating <= a.rating
    case ByName => StrLe(a.name, b.name)
  }

  lemma LeTotal(o: SortOrder, a: Product, b: Product)
    ensures Le(o, a, b) || Le(o, b, a)
  {
    if o == ByName {
      StrLeTotal(a.name, b.name);
    }
  }

  lemma LeTransitive(o: SortOrder, a: Product, b: Product, c: Product)
    requires Le(o, a, b) && Le(o, b, c)
    ensures Le(o, a, c)
  {
    if o == ByName {
      StrLeTransitive(a.name, b.name, c.name);
    }
  }

  predicate Sorted(o: SortOrder, s: seq<Product>) {
    forall i, j :: 0 <= i < j < |s| ==> Le(o, s[i], s[j])
  }

  /** Places `x` ahead of the first element that must come after it, so behind every equal one. */
  function Insert(o: SortOrder, x: Product, s: seq<Product>): (r: seq<Product>)
    ensures multiset(r) == multiset(s) + multiset{x}
    ensures |r| == |s| + 1
  {
    if s == [] || !Le(o, s[0], x) then [x] + s
    else
      assert s == [s[0]] + s[1..];
      [s[0]] + Insert(o, x, s[1..])
  }

  lemma {:induction false} InsertSorted(o: SortOrder, x: Product, s: seq<Product>)
    requires Sorted(o, s)
    ensures Sorted(o, Insert(o, x, s))
  {
    if s == [] {
    } else if !Le(o, s[0], x) {
      LeTotal(o, s[0], x);
      forall j | 0 <= j < |s| ensures Le(o, x, s[j]) {
        if j > 0 {
          LeTransitive(o, x, s[0], s[j]);
        }
      }
      ConsSorted(o, x, s);
    } else {
      InsertSorted(o, x, s[1..]);
      var tail := Insert(o, x, s[1..]);
      forall j | 0 <= j < |tail| ensures Le(o, s[0], tail[j]) {
        HeadBelowInserted(o, x, s, tail[j]);
      }
      ConsSorted(o, s[0], tail);
    }
  }

  /** Putting a lower bound in front of a sorted list keeps it sorted. */
  lemma ConsSorted(o: SortOrder, a: Product, t: seq<Product>)
    requires Sorted(o, t) && forall j :: 0 <= j < |t| ==> Le(o, a, t[j])
    ensures Sorted(o, [a] + t)
  {
    var r := [a] + t;
    forall i, j | 0 <= i < j < |r| ensures Le(o, r[i], r[j]) {
      assert r[j] == t[j - 1];
      if i > 0 {
        assert r[i] == t[i - 1];
      }
    }
  }

  /** The head of a sorted list that comes no later than `x` is below everything `x` is inserted into its tail with. */
  lemma HeadBelowInserted(o: SortOrder, x: Product, s: seq<Product>, y: Product)
    requires Sorted(o, s) && s != [] && Le(o, s[0], x)
    requires y in multiset(Insert(o, x, s[1..]))
    ensures Le(o, s[0], y)
  {
    assert y in multiset(s[1..]) + multiset{x};
    if y in multiset(s[1..]) {
      var k :| 0 <= k < |s[1..]| && s[1..][k] == y;
      assert s[k + 1] == y;
    }
  }

  /** Stable insertion sort, the one order a stable sort with comparator `o` gives. */
  function Sort(o: SortOrder, s: seq<Product>): (r: seq<Product>)
    ensures Sorted(o, r)
    ensures multiset(r) == multiset(s)
    ensures |r| == |s|
  {
    if s == [] then []
    else
      var init := s[..|s| - 1];
      assert s == init + [s[|s| - 1]];
      InsertSorted(o, s[|s| - 1], Sort(o, init));
      Insert(o, s[|s| - 1], Sort(o, init))
  }

  /** Neither product must come after the other: the comparator returns 0 both ways. */
  predicate Tied(o: SortOrder, a: Product, b: Product) {
    Le(o, a, b) && Le(o, b, a)
  }

  /** The products of `s` tied with `p`, in their order in `s`. */
  function TiedWith(o: SortOrder, p: Product, s: seq<Product>): (r: seq<Product>)
    ensures |r| <= |s|
    ensures forall i :: 0 <= i < |r| ==> Tied(o, p, r[i])
  {
    if s == [] then []
    else (if Tied(o, p, s[0]) then [s[0]] else []) + TiedWith(o, p, s[1..])
  }

  /** `a` is `h` then `b`, and `b` is `t` then `xs`: so `a` is `h` then `t`, then `xs`. */
  lemma Regroup(a: seq<Product>, b: seq<Product>, h: seq<Product>, t: seq<Product>, xs: seq<Product>)
    requires a == h + b && b == t + xs
    ensures a == (h + t) + xs
  {
  }

  lemma {:induction false} TiedWithAppend(o: SortOrder, p: Product, a: seq<Product>, b: seq<Product>)
    ensures TiedWith(o, p, a + b) == TiedWith(o, p, a) + TiedWith(o, p, b)
  {
    if a == [] {
      assert a + b == b;
    } else {
      var h := a[0];
      assert (a + b)[0] == h && (a + b)[1..] == a[1..] + b;
      TiedWithAppend(o, p, a[1..], b);
      var k := if Tied(o, p, h) then [h] else [];
      assert TiedWith(o, p, a) == k + TiedWith(o, p, a[1..]);
      assert TiedWith(o, p, a + b) == k + TiedWith(o, p, a[1..] + b);
      Regroup(TiedWith(o, p, a + b), TiedWith(o, p, a[1..] + b), k, TiedWith(o, p, a[1..]), TiedWith(o, p, b));
    }
  }

  /** A product tied with `p` in a sorted list comes no later than any product that must follow `p`. */
  lemma {:induction false} NoTieAfterLarger(o: SortOrder, p: Product, x: Product, s: seq<Product>)
    requires Sorted(o, s) && s != [] && !Le(o, s[0], x) && Tied(o, p, x)
    ensures TiedWith(o, p, s) == []
  {
    forall j | 0 <= j < |s| ensures !Tied(o, p, s[j]) {
      if Tied(o, p, s[j]) {
        LeTransitive(o, s[j], p, x);
        if j > 0 {
          LeTransitive(o, s[0], s[j], x);
        }
        assert false;
      }
    }
    TiedWithNone(o, p, s);
  }

  lemma {:induction false} TiedWithNone(o: SortOrder, p: Product, s: seq<Product>)
    requires forall j :: 0 <= j < |s| ==> !Tied(o, p, s[j])
    ensures TiedWith(o, p, s) == []
  {
    if s != [] {
      TiedWithNone(o, p, s[1..]);
    }
  }

  /** Inserting `x` into a sorted list puts it behind every product tied with it. */
  lemma {:induction false} InsertKeepsTies(o: SortOrder, p: Product, x: Product, s: seq<Product>)
    requires Sorted(o, s)
    ensures TiedWith(o, p, Insert(o, x, s)) == TiedWith(o, p, s) + TiedWith(o, p, [x])
  {
    if s == [] || !Le(o, s[0], x) {
      assert Insert(o, x, s) == [x] + s;
      InsertInFrontKeepsTies(o, p, x, s);
    } else {
      SortedTail(o, s);
      InsertKeepsTies(o, p, x, s[1..]);
      InsertBehindKeepsTies(o, p, x, s);
    }
  }

  /** The case where `x` goes behind the head: the head's tie, if any, stays in front. */
  lemma InsertBehindKeepsTies(o: SortOrder, p: Product, x: Product, s: seq<Product>)
    requires s != [] && Le(o, s[0], x)
    requires TiedWith(o, p, Insert(o, x, s[1..])) == TiedWith(o, p, s[1..]) + TiedWith(o, p, [x])
    ensures TiedWith(o, p, Insert(o, x, s)) == TiedWith(o, p, s) + TiedWith(o, p, [x])
  {
    InsertBehindTies(o, p, x, s);
    TiedWithCons(o, p, s);
    Regroup(TiedWith(o, p, Insert(o, x, s)), TiedWith(o, p, Insert(o, x, s[1..])),
            TiedWith(o, p, [s[0]]), TiedWith(o, p, s[1..]), TiedWith(o, p, [x]));
  }

  lemma InsertBehindTies(o: SortOrder, p: Product, x: Product, s: seq<Product>)
    requires s != [] && Le(o, s[0], x)
    ensures TiedWith(o, p, Insert(o, x, s)) == TiedWith(o, p, [s[0]]) + TiedWith(o, p, Insert(o, x, s[1..]))
  {
    assert Insert(o, x, s) == [s[0]] + Insert(o, x, s[1..]);
    TiedWithAppend(o, p, [s[0]], Insert(o, x, s[1..]));
  }


  lemma TiedWithCons(o: SortOrder, p: Product, s: seq<Product>)
    requires s != []
    ensures TiedWith(o, p, s) == TiedWith(o, p, [s[0]]) + TiedWith(o, p, s[1..])
  {
    assert s == [s[0]] + s[1..];
    TiedWithAppend(o, p, [s[0]], s[1..]);
  }

  /** The case where `x` goes in front: nothing tied with it can follow in `s`. */
  lemma InsertInFrontKeepsTies(o: SortOrder, p: Product, x: Product, s: seq<Product>)
    requires Sorted(o, s) && (s == [] || !Le(o, s[0], x))
    ensures TiedWith(o, p, [x] + s) == TiedWith(o, p, s) + TiedWith(o, p, [x])
  {
    TiedWithSingle(o, p, x);
    TiedWithAppend(o, p, [x], s);
    if s != [] && Tied(o, p, x) {
      NoTieAfterLarger(o, p, x, s);
    }
  }

  lemma TiedWithSingle(o: SortOrder, p: Product, x: Product)
    ensures TiedWith(o, p, [x]) == if Tied(o, p, x) then [x] else []
  {
    assert [x][1..] == [];
  }

  lemma SortedTail(o: SortOrder, s: seq<Product>)
    requires Sorted(o, s) && s != []
    ensures Sorted(o, s[1..])
  {
    forall i, j | 0 <= i < j < |s| - 1 ensures Le(o, s[1..][i], s[1..][j]) {
      assert s[1..][i] == s[i + 1] && s[1..][j] == s[j + 1];
    }
  }

  /** Stability: for any `p`, the products tied with `p` come out in the order they went in. */
  lemma {:induction false} SortStable(o: SortOrder, p: Product, s: seq<Product>)
    ensures TiedWith(o, p, Sort(o, s)) == TiedWith(o, p, s)
  {
    if s != [] {
      var init := s[..|s| - 1];
      assert s == init + [s[|s| - 1]];
      SortStable(o, p, init);
      InsertKeepsTies(o, p, s[|s| - 1], Sort(o, init));
      TiedWithAppend(o, p, init, [s[|s| - 1]]);
    }
  }

  /** The list the page renders: the matching products in the chosen order. */
  function FilteredProducts(products: seq<Product>, term: string, category: string, sortBy: string): (r: seq<Product>)
    ensures multiset(r) == multiset(FilterProducts(products, term, category))
    ensures |r| <= |products|
    ensures forall p :: p in r <==> p in products && Keep(p, term, category)
    ensures Sorted(SortOrderOf(sortBy), r)
  {
    var kept := FilterProducts(products, term, category);
    var r := Sort(SortOrderOf(sortBy), kept);
    assert forall p :: p in r <==> p in multiset(kept);
    r
  }

  /** 'price-low' lists non-decreasing prices, 'price-high' non-increasing prices, 'rating' non-increasing ratings. */
  lemma SortKeys(products: seq<Product>, term: string, category: string, sortBy: string)
    ensures var r := FilteredProducts(products, term, category, sortBy);
            && (sortBy == "price-low" ==> forall i, j :: 0 <= i < j < |r| ==> r[i].price <= r[j].price)
            && (sortBy == "price-high" ==> forall i, j :: 0 <= i < j < |r| ==> r[i].price >= r[j].price)
            && (sortBy == "rating" ==> forall i, j :: 0 <= i < j < |r| ==> r[i].rating >= r[j].rating)
            && (sortBy !in {"price-low", "price-high", "rating"} ==>
                  forall i, j :: 0 <= i < j < |r| ==> StrLe(r[i].name, r[j].name))
  {
    var r := FilteredProducts(products, term, category, sortBy);
    assert Sorted(SortOrderOf(sortBy), r);
  }

  // ------------------------------------------------------------------ the page

  /** The `search` parameter a submitted term leaves in the URL: none for a term
      that trims to nothing, else the term as typed, untrimmed. */
  function SearchParamFor(term: string): (r: Option<string>)
    ensures r == None <==> AllWhitespace(term)
    ensures r.Some? ==> r.value == term
  {
    TrimEmptyIff(term);
    if Trim(term) != "" then Some(term) else None
  }

  class ProductListView {
    var searchTerm: string
    var selectedCategory: string
    var sortBy: string
    /** The `search` URL parameter; None when the parameters are `{}`. */
    var searchParam: Option<string>

    /** The search box starts from the `search` URL parameter, or '' without one. */
    constructor (initialParam: Option<string>)
      ensures searchTerm == (if initialParam.Some? then initialParam.value else "")
      ensures selectedCategory == "all" && sortBy == "name"
      ensures searchParam == initialParam
    {
      searchTerm := initialParam.GetOr("");
      selectedCategory := "all";
      sortBy := "name";
      searchParam := initialParam;
    }

    /** Submitting the search writes the parameter `SearchParamFor` gives for the typed term. */
    method HandleSearch()
      modifies this
      ensures searchParam == SearchParamFor(searchTerm)
      ensures searchTerm == old(searchTerm) && selectedCategory == old(selectedCategory) && sortBy == old(sortBy)
    {
      searchParam := SearchParamFor(searchTerm);
    }

    method ClearFilters()
      modifies this
      ensures searchTerm == "" && selectedCategory == "all" && sortBy == "name" && searchParam == None
    {
      searchTerm := "";
      selectedCategory := "all";
      sortBy := "name";
      searchParam := None;
    }
  }

  /** After the filters are cleared, the page lists the whole catalogue, by name. */
  lemma ClearedShowsAll(products: seq<Product>)
    ensures FilteredProducts(products, "", "all", "name") == Sort(ByName, products)
  {
    NoFilterKeepsAll(products);
  }
}
