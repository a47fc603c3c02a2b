/**
 * The derivations of `components/product/ProductList.tsx`: the category choices and
 * the list of products passing the search box and the category selector.
 */
module ProductList {
  import opened Wrappers
  import opened Text
  import opened ClientTypes

  /** `products.map(p => p.category).filter(Boolean)`: the non-empty categories, in product order. */
  function TruthyCategories(products: seq<Product>): (cs: seq<string>)
    ensures forall c :: c in cs <==> exists p :: p in products && p.category == Some(c) && c != ""
  {
    if products == [] then []
    else
      var rest := TruthyCategories(products[1..]);
      assert forall p :: p in products[1..] ==> p in products;
      assert forall p :: p in products ==> p == products[0] || p in products[1..];
      var c := products[0].category;
      if c.Some? && c.value != "" then [c.value] + rest else rest
  }

  /** The position of the first `x` in `xs`. */
  function FirstIndex(xs: seq<string>, x: string): (i: nat)
    requires x in xs
    ensures i < |xs| && xs[i] == x && x !in xs[..i]
  {
    if xs[0] == x then 0 else 1 + FirstIndex(xs[1..], x)
  }

  /** `Array.from(new Set(xs))`: each value once, in the order it first appears. */
  function Distinct(xs: seq<string>): (r: seq<string>)
    ensures forall x :: x in r <==> x in xs
    ensures forall i, j :: 0 <= i < j < |r| ==> r[i] != r[j]
    ensures forall i, j :: 0 <= i < j < |r| ==> FirstIndex(xs, r[i]) < FirstIndex(xs, r[j])
  {
    if xs == [] then []
    else
      var init := xs[..|xs| - 1];
      var last := xs[|xs| - 1];
      var r := Distinct(init);
      FirstIndexOfPrefix(xs, init);
      if last in r then r
      else
        assert forall y :: y in init ==> FirstIndex(init, y) < |init|;
        r + [last]
  }

  /** Values already in a prefix keep their first index in the whole sequence; the new last value's is the end. */
  lemma FirstIndexOfPrefix(xs: seq<string>, init: seq<string>)
    requires xs != [] && init == xs[..|xs| - 1]
    ensures forall y :: y in init ==> FirstIndex(xs, y) == FirstIndex(init, y)
    ensures xs[|xs| - 1] !in init ==> FirstIndex(xs, xs[|xs| - 1]) == |xs| - 1
  {
    forall y | y in init
      ensures FirstIndex(xs, y) == FirstIndex(init, y)
    {
      var i := FirstIndex(init, y);
      assert xs[..i] == init[..i];
    }
    var last := xs[|xs| - 1];
    if last !in init {
      assert xs[..|xs| - 1] == init;
    }
  }

  /** `categories`; undefined products give none. */
  function Categories(products: Option<seq<Product>>): (cs: seq<string>)
    ensures products.None? ==> cs == []
    ensures forall c :: c in cs <==> products.Some? && exists p :: p in products.value && p.category == Some(c) && c != ""
    ensures forall i, j :: 0 <= i < j < |cs| ==> cs[i] != cs[j]
  {
    if products.None? then [] else Distinct(TruthyCategories(products.value))
  }

  /** The search test: a case-insensitive substring of the name or of the description. */
  predicate MatchesSearch(p: Product, searchTerm: string)
  {
    ContainsIgnoreCase(p.name, searchTerm) || ContainsIgnoreCase(p.description, searchTerm)
  }

  /** The category test: no filter, or a category equal to it up to case; a product without one never matches a filter. */
  predicate MatchesCategory(p: Product, categoryFilter: string)
  {
    categoryFilter == "" || (p.category.Some? && EqualsIgnoreCase(p.category.value, categoryFilter))
  }

  predicate Matches(p: Product, searchTerm: string, categoryFilter: string)
  {
    MatchesSearch(p, searchTerm) && MatchesCategory(p, categoryFilter)
  }

  /** `products.filter(...)`: the products passing both tests, in their order. */
  function Filter(products: seq<Product>, searchTerm: string, categoryFilter: string): (r: seq<Product>)
    ensures |r| <= |products|
    ensures forall p :: p in r <==> p in products && Matches(p, searchTerm, categoryFilter)
  {
    if products == [] then []
    else
      var rest := Filter(products[1..], searchTerm, categoryFilter);
      assert forall p :: p in products <==> p == products[0] || p in products[1..];
      if Matches(products[0], searchTerm, categoryFilter) then [products[0]] + rest else rest
  }

  /** `filteredProducts`; undefined products stay undefined. */
  function FilteredProducts(products: Option<seq<Product>>, searchTerm: string, categoryFilter: string)
    : (r: Option<seq<Product>>)
    ensures r.None? <==> products.None?
    ensures r.Some? ==> r.value == Filter(products.value, searchTerm, categoryFilter)
  {
    if products.None? then None else Some(Filter(products.value, searchTerm, categoryFilter))
  }

  /** Filtering keeps relative order: filtering a concatenation concatenates the filtered parts. */
  lemma {:induction false} FilterAppend(a: seq<Product>, b: seq<Product>, searchTerm: string, categoryFilter: string)
    ensures Filter(a + b, searchTerm, categoryFilter) == Filter(a, searchTerm, categoryFilter) + Filter(b, searchTerm, categoryFilter)
  {
    if a != [] {
      assert (a + b)[1..] == a[1..] + b;
      FilterAppend(a[1..], b, searchTerm, categoryFilter);
    } else {
      assert a + b == b;
    }
  }

  /** With an empty search term and no category filter, every product is listed, in order. */
  lemma {:induction false} EmptyFiltersKeepAll(products: seq<Product>)
    ensures Filter(products, "", "") == products
  {
    if products != [] {
      EmptyNeedleMatches(products[0].name);
      EmptyFiltersKeepAll(products[1..]);
    }
  }
}
