/** The three figures of `components/dashboard/Dashboard.tsx`. */
module Dashboard {
  import opened Wrappers
  import opened ClientTypes

  /** `products.reduce((acc, p) => acc + p.stock_available, 0)`. */
  function SumStock(products: seq<Product>): real
  {
    if products == [] then 0.0 else SumStock(products[..|products| - 1]) + products[|products| - 1].stockAvailable
  }

  /** `products.reduce((acc, p) => acc + (p.customer_rating || 0), 0)`. */
  function SumRating(products: seq<Product>): real
  {
    if products == [] then 0.0 else SumRating(products[..|products| - 1]) + OrZero(products[|products| - 1].customerRating)
  }

  /** `totalProducts`: the number of products, 0 while undefined. */
  function TotalProducts(products: Option<seq<Product>>): (n: nat)
    ensures n == if products.Some? then |products.value| else 0
  {
    if products.Some? then |products.value| else 0
  }

  /** `totalStock`: the stock summed over all products, 0 while undefined. */
  function TotalStock(products: Option<seq<Product>>): (total: real)
    ensures products.None? || products.value == [] ==> total == 0.0
    ensures products.Some? ==> total == SumStock(products.value)
  {
    if products.Some? then SumStock(products.value) else 0.0
  }

  /**
   * `avgRating` before `toFixed(1)`: None is "N/A", shown when there are no products;
   * otherwise the mean rating with a missing rating counted as 0.
   */
  function AvgRating(products: Option<seq<Product>>): (avg: Option<real>)
    ensures avg.None? <==> products.None? || products.value == []
    ensures avg.Some? ==> avg.value * |products.value| as real == SumRating(products.value)
  {
    if products.None? || products.value == [] then None
    else Some(SumRating(products.value) / |products.value| as real)
  }

  /** The sums add up over a concatenation, so they do not depend on how the list is split. */
  lemma {:induction false} SumsAppend(a: seq<Product>, b: seq<Product>)
    ensures SumStock(a + b) == SumStock(a) + SumStock(b)
    ensures SumRating(a + b) == SumRating(a) + SumRating(b)
  {
    if b == [] {
      assert a + b == a;
    } else {
      assert (a + b)[..|a + b| - 1] == a + b[..|b| - 1];
      SumsAppend(a, b[..|b| - 1]);
    }
  }

  /** Ratings within [lo, hi] (a missing one counting as 0, so 0 must be in range) average within [lo, hi]. */
  lemma AvgRatingBounds(products: seq<Product>, lo: real, hi: real)
    requires products != []
    requires forall p :: p in products ==> lo <= OrZero(p.customerRating) <= hi
    ensures lo <= AvgRating(Some(products)).value <= hi
  {
    RatingSumAtLeast(products, lo);
    RatingSumAtMost(products, hi);
    MeanBounds(SumRating(products), |products| as real, lo, hi);
  }

  lemma MeanBounds(total: real, n: real, lo: real, hi: real)
    requires 0.0 < n && lo * n <= total <= hi * n
    ensures lo <= total / n <= hi
  {
  }

  /** Scaling distributes over one more item. */
  lemma ScaleStep(c: real, n: real)
    ensures c * (n + 1.0) == c * n + c
  {
  }

  lemma {:induction false} RatingSumAtLeast(products: seq<Product>, lo: real)
    requires forall p :: p in products ==> lo <= OrZero(p.customerRating)
    ensures lo * (|products| as real) <= SumRating(products)
  {
    if products != [] {
      var init, last := products[..|products| - 1], products[|products| - 1];
      var s, r, n := SumRating(init), OrZero(last.customerRating), |init| as real;
      assert lo * n <= s by {
        assert forall p :: p in init ==> p in products;
        RatingSumAtLeast(init, lo);
      }
      assert lo <= r by {
        assert last in products;
      }
      assert SumRating(products) == s + r;
      assert lo * (|products| as real) == lo * n + lo by {
        assert |products| as real == n + 1.0;
        ScaleStep(lo, n);
      }
    }
  }

  lemma {:induction false} RatingSumAtMost(products: seq<Product>, hi: real)
    requires forall p :: p in products ==> OrZero(p.customerRating) <= hi
    ensures SumRating(products) <= hi * (|products| as real)
  {
    if products != [] {
      var init, last := products[..|products| - 1], products[|products| - 1];
      var s, r, n := SumRating(init), OrZero(last.customerRating), |init| as real;
      assert s <= hi * n by {
        assert forall p :: p in init ==> p in products;
        RatingSumAtMost(init, hi);
      }
      assert r <= hi by {
        assert last in products;
      }
      assert SumRating(products) == s + r;
      assert hi * (|products| as real) == hi * n + hi by {
        assert |products| as real == n + 1.0;
        ScaleStep(hi, n);
      }
    }
  }
}
