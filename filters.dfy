/**
 * The django-filter filter sets of the pricing API: `ProductFilter`,
 * `ProductHistoryFilter` and `MarketConditionFilter`. A filter set is modelled by
 * its decoded values: a field that is absent from the query (or that the form
 * rejected, which django-filter drops) is `None` and does not filter, and a blank
 * text field does not filter either. A filtered
 * queryset is the order-preserving subsequence of the rows its predicate keeps.
 */
module Filters {
  import opened Wrappers
  import opened Text
  import opened Calendar
  import opened Models

  /** The order-preserving subsequence of `xs` whose elements satisfy `keep`. */
  function Select<T(!new)>(xs: seq<T>, keep: T -> bool): (r: seq<T>)
    ensures |r| <= |xs|
    ensures forall x :: x in r <==> x in xs && keep(x)
  {
    if xs == [] then []
    else if keep(xs[0]) then [xs[0]] + Select(xs[1..], keep)
    else Select(xs[1..], keep)
  }

  /** A filter that keeps everything gives back its input unchanged. */
  lemma {:induction false} SelectAll<T(!new)>(xs: seq<T>, keep: T -> bool)
    requires forall x :: x in xs ==> keep(x)
    ensures Select(xs, keep) == xs
  {
    if xs != [] {
      assert forall x :: x in xs[1..] ==> x in xs;
      SelectAll(xs[1..], keep);
    }
  }

  /** A filter keeps the elements in the order they had. */
  lemma {:induction false} SelectKeepsOrder<T(!new)>(xs: seq<T>, keep: T -> bool, i: int, j: int)
    requires 0 <= i < j < |xs| && keep(xs[i]) && keep(xs[j])
    ensures exists k, l :: 0 <= k < l < |Select(xs, keep)| && Select(xs, keep)[k] == xs[i] && Select(xs, keep)[l] == xs[j]
  {
    var r := Select(xs, keep);
    if i == 0 {
      var rest := Select(xs[1..], keep);
      assert xs[j] == xs[1..][j - 1];
      assert xs[j] in rest;
      var m :| 0 <= m < |rest| && rest[m] == xs[j];
      assert r == [xs[0]] + rest;
      assert r[0] == xs[i] && r[m + 1] == xs[j];
    } else {
      SelectKeepsOrder(xs[1..], keep, i - 1, j - 1);
      var rest := Select(xs[1..], keep);
      var k, l :| 0 <= k < l < |rest| && rest[k] == xs[1..][i - 1] && rest[l] == xs[1..][j - 1];
      if keep(xs[0]) {
        assert r == [xs[0]] + rest;
        assert r[k + 1] == xs[i] && r[l + 1] == xs[j];
      } else {
        assert r == rest;
        assert r[k] == xs[i] && r[l] == xs[j];
      }
    }
  }

  /**
   * A text or choice field that does not filter: absent, or blank. django-filter
   * skips a filter whose value is in `EMPTY_VALUES`, so `?category=` keeps every row.
   */
  predicate Unset(v: Option<string>)
  {
    v.None? || v.value == ""
  }

  // ----- ProductFilter -----

  datatype ProductQuery = ProductQuery(
    name: Option<string>,
    category: Option<string>,
    description: Option<string>,
    minPrice: Option<real>,
    maxPrice: Option<real>,
    minRating: Option<real>,
    minStock: Option<real>,
    isInStock: Option<bool>)

  const NoProductQuery := ProductQuery(None, None, None, None, None, None, None, None)

  /** `filter_in_stock`: true keeps a positive stock, false keeps exactly zero. */
  predicate InStockFilter(p: Product, value: bool)
  {
    if value then p.stockAvailable > 0 else p.stockAvailable == 0
  }

  /** A negative stock passes neither value of `is_in_stock`; any other stock passes exactly one. */
  lemma InStockSplit(p: Product)
    ensures p.stockAvailable < 0 ==> !InStockFilter(p, true) && !InStockFilter(p, false)
    ensures p.stockAvailable >= 0 ==> (InStockFilter(p, true) <==> !InStockFilter(p, false))
  {
  }

  /**
   * The conjunction of the set fields. A NULL customer rating fails any
   * `min_rating` comparison, as SQL comparisons with NULL are false.
   */
  predicate MatchesProduct(f: ProductQuery, p: Product)
  {
    && (Unset(f.name) || ContainsIgnoreCase(p.name, f.name.value))
    && (Unset(f.category) || EqualsIgnoreCase(p.category, f.category.value))
    && (Unset(f.description) || ContainsIgnoreCase(p.description, f.description.value))
    && (f.minPrice.None? || p.sellingPrice >= f.minPrice.value)
    && (f.maxPrice.None? || p.sellingPrice <= f.maxPrice.value)
    && (f.minRating.None? || (p.customerRating.Some? && p.customerRating.value >= f.minRating.value))
    && (f.minStock.None? || p.stockAvailable as real >= f.minStock.value)
    && (f.isInStock.None? || InStockFilter(p, f.isInStock.value))
  }

  function FilterProducts(products: seq<Product>, f: ProductQuery): (r: seq<Product>)
    ensures forall p :: p in r <==> p in products && MatchesProduct(f, p)
  {
    Select(products, p => MatchesProduct(f, p))
  }

  /** With no field set every product passes, in its original order. */
  lemma NoProductQueryKeepsAll(products: seq<Product>)
    ensures FilterProducts(products, NoProductQuery) == products
  {
    SelectAll(products, p => MatchesProduct(NoProductQuery, p));
  }

  /** A blank `category`, as `?category=` sends it, filters nothing. */
  lemma BlankCategoryKeepsAll(products: seq<Product>)
    ensures FilterProducts(products, NoProductQuery.(category := Some(""))) == products
  {
    var q := NoProductQuery.(category := Some(""));
    assert forall p :: p in products ==> MatchesProduct(q, p);
    SelectAll(products, p => MatchesProduct(q, p));
  }

  /** The price bounds are inclusive: a product priced exactly at both bounds passes. */
  lemma PriceBoundsInclusive(products: seq<Product>, p: Product)
    requires p in products
    ensures p in FilterProducts(products, NoProductQuery.(minPrice := Some(p.sellingPrice), maxPrice := Some(p.sellingPrice)))
  {
  }

  // ----- ProductHistoryFilter -----

  datatype HistoryQuery = HistoryQuery(
    product: Option<int>,
    productName: Option<string>,
    category: Option<string>,
    startDate: Option<Day>,
    endDate: Option<Day>)

  const NoHistoryQuery := HistoryQuery(None, None, None, None, None)

  /**
   * The fields named `product__…` are looked up on the row's product; a row whose
   * product is not in `products` fails them.
   */
  predicate MatchesHistory(f: HistoryQuery, products: seq<Product>, row: HistoryRow)
  {
    var owner := FindProduct(products, row.productId);
    && (f.product.None? || row.productId == f.product.value)
    && (Unset(f.productName) || (owner.Some? && ContainsIgnoreCase(owner.value.name, f.productName.value)))
    && (Unset(f.category) || (owner.Some? && EqualsIgnoreCase(owner.value.category, f.category.value)))
    && (f.startDate.None? || row.month >= f.startDate.value)
    && (f.endDate.None? || row.month <= f.endDate.value)
  }

  function FilterHistory(db: Db, f: HistoryQuery): (r: seq<HistoryRow>)
    ensures forall h :: h in r <==> h in db.history && MatchesHistory(f, db.products, h)
  {
    Select(db.history, h => MatchesHistory(f, db.products, h))
  }

  /** `start_date` and `end_date` keep exactly the rows whose month lies in the closed range. */
  lemma HistoryDateRange(db: Db, start: Day, end: Day, h: HistoryRow)
    ensures h in FilterHistory(db, NoHistoryQuery.(startDate := Some(start), endDate := Some(end)))
            <==> h in db.history && start <= h.month <= end
  {
  }

  // ----- MarketConditionFilter -----

  datatype ConditionQuery = ConditionQuery(
    name: Option<string>,
    category: Option<string>,
    trend: Option<string>,
    active: Option<bool>,
    startDate: Option<Day>,
    endDate: Option<Day>)

  const NoConditionQuery := ConditionQuery(None, None, None, None, None, None)

  /**
   * `filter_active` on `today`: true keeps the conditions that have started and
   * not ended (an open end counts as not ended); false keeps those that start
   * later or whose end is past. A NULL end never satisfies `end_date < today`.
   */
  predicate ActiveFilter(c: MarketCondition, value: bool, today: Day)
  {
    if value then c.startDate <= today && (c.endDate.None? || c.endDate.value >= today)
    else c.startDate > today || (c.endDate.Some? && c.endDate.value < today)
  }

  /** Every condition is kept by exactly one of `active=true` and `active=false`. */
  lemma ActiveSplit(c: MarketCondition, today: Day)
    ensures ActiveFilter(c, true, today) <==> !ActiveFilter(c, false, today)
  {
  }

  predicate MatchesCondition(f: ConditionQuery, c: MarketCondition, today: Day)
  {
    && (Unset(f.name) || ContainsIgnoreCase(c.name, f.name.value))
    && (Unset(f.category) || EqualsIgnoreCase(c.category, f.category.value))
    && (Unset(f.trend) || c.trend == f.trend.value)
    && (f.active.None? || ActiveFilter(c, f.active.value, today))
    && (f.startDate.None? || c.startDate >= f.startDate.value)
    && (f.endDate.None? || (c.endDate.Some? && c.endDate.value <= f.endDate.value))
  }

  function FilterConditions(conditions: seq<MarketCondition>, f: ConditionQuery, today: Day): (r: seq<MarketCondition>)
    ensures forall c :: c in r <==> c in conditions && MatchesCondition(f, c, today)
  {
    Select(conditions, c => MatchesCondition(f, c, today))
  }

  /** A blank `category` or `trend` filters no condition. */
  lemma BlankConditionFieldsKeepAll(conditions: seq<MarketCondition>, today: Day)
    ensures FilterConditions(conditions, NoConditionQuery.(category := Some(""), trend := Some("")), today) == conditions
  {
    var q := NoConditionQuery.(category := Some(""), trend := Some(""));
    assert forall c :: c in conditions ==> MatchesCondition(q, c, today);
    SelectAll(conditions, c => MatchesCondition(q, c, today));
  }

  /** The active and the inactive lists together hold every condition, and no condition is in both. */
  lemma {:induction false} ActivePartition(conditions: seq<MarketCondition>, today: Day)
    ensures |FilterConditions(conditions, NoConditionQuery.(active := Some(true)), today)|
            + |FilterConditions(conditions, NoConditionQuery.(active := Some(false)), today)| == |conditions|
    ensures forall c :: c in conditions ==>
              (c in FilterConditions(conditions, NoConditionQuery.(active := Some(true)), today)
               <==> c !in FilterConditions(conditions, NoConditionQuery.(active := Some(false)), today))
  {
    if conditions != [] {
      ActivePartition(conditions[1..], today);
      ActiveSplit(conditions[0], today);
    }
  }
}
