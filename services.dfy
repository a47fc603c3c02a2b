/**
 * The two pricing services of the backend: the demand forecast
 * (`DemandForecastService.forecast_demand`) and the price optimiser
 * (`PriceOptimizationService.optimize_price`). Each is a method whose loop is
 * proved against a specification function; the properties the services promise
 * are proved about those functions.
 */
module Services {
  import opened Wrappers
  import opened Calendar
  import opened Models
  import opened Market

  function Max(a: int, b: int): int { if a >= b then a else b }
  function RMax(a: real, b: real): real { if a >= b then a else b }
  function RMin(a: real, b: real): real { if a <= b then a else b }

  /** Python's `int(x)` on a float: truncation toward zero. */
  function Trunc(x: real): (n: int)
    ensures x >= 0.0 ==> 0 <= n && n as real <= x < n as real + 1.0
    ensures x < 0.0 ==> n <= 0 && n as real - 1.0 < x <= n as real
  {
    if x >= 0.0 then x.Floor else -((-x).Floor)
  }

  // ---------------------------------------------------------------------------
  // The product's history, `ProductHistory.objects.filter(product=…).order_by('month')`
  // ---------------------------------------------------------------------------

  function RowsOf(history: seq<HistoryRow>, productId: int): (r: seq<HistoryRow>)
    ensures forall x :: x in r <==> x in history && x.productId == productId
  {
    if history == [] then []
    else
      (if history[0].productId == productId then [history[0]] else [])
        + RowsOf(history[1..], productId)
  }

  predicate ByMonth(rows: seq<HistoryRow>)
  {
    forall i, j :: 0 <= i < j < |rows| ==> rows[i].month <= rows[j].month
  }

  /** Puts `x` before the first row of a later or equal month. */
  function InsertByMonth(x: HistoryRow, rows: seq<HistoryRow>): seq<HistoryRow>
  {
    if rows == [] || x.month <= rows[0].month then [x] + rows
    else [rows[0]] + InsertByMonth(x, rows[1..])
  }

  function OrderByMonth(rows: seq<HistoryRow>): seq<HistoryRow>
  {
    if rows == [] then [] else InsertByMonth(rows[0], OrderByMonth(rows[1..]))
  }

  lemma {:induction false} InsertByMonthSorted(x: HistoryRow, rows: seq<HistoryRow>)
    requires ByMonth(rows)
    ensures ByMonth(InsertByMonth(x, rows))
    ensures multiset(InsertByMonth(x, rows)) == multiset(rows) + multiset{x}
    ensures |InsertByMonth(x, rows)| > 0
    ensures InsertByMonth(x, rows)[0] == x || InsertByMonth(x, rows)[0] == rows[0]
  {
    if rows == [] || x.month <= rows[0].month {
    } else {
      InsertByMonthSorted(x, rows[1..]);
      assert rows == [rows[0]] + rows[1..];
    }
  }

  lemma {:induction false} OrderByMonthSorts(rows: seq<HistoryRow>)
    ensures ByMonth(OrderByMonth(rows))
    ensures multiset(OrderByMonth(rows)) == multiset(rows)
  {
    if rows != [] {
      OrderByMonthSorts(rows[1..]);
      InsertByMonthSorted(rows[0], OrderByMonth(rows[1..]));
      assert rows == [rows[0]] + rows[1..];
    }
  }

  /** The product's history rows, oldest month first. */
  function MonthHistory(db: Db, productId: int): seq<HistoryRow>
  {
    OrderByMonth(RowsOf(db.history, productId))
  }

  lemma MonthHistoryIsOrdered(db: Db, productId: int)
    ensures ByMonth(MonthHistory(db, productId))
    ensures forall x :: x in MonthHistory(db, productId) <==> x in db.history && x.productId == productId
  {
    OrderByMonthSorts(RowsOf(db.history, productId));
    assert forall x :: x in MonthHistory(db, productId) <==> x in multiset(MonthHistory(db, productId));
  }

  // ---------------------------------------------------------------------------
  // Demand forecast
  // ---------------------------------------------------------------------------

  /** The sum of `rows[i].unitsSold * (i + 1)`: the oldest row weighs 1, the newest |rows|. */
  function WeightedSum(rows: seq<HistoryRow>): int
  {
    if rows == [] then 0 else WeightedSum(rows[..|rows| - 1]) + rows[|rows| - 1].unitsSold * |rows|
  }

  /** 1 + 2 + … + n, the sum of the weights of n rows. */
  function TotalWeight(n: nat): (t: nat)
    ensures t >= n
  {
    if n == 0 then 0 else TotalWeight(n - 1) + n
  }

  function SumUnits(rows: seq<HistoryRow>): int
  {
    if rows == [] then 0 else SumUnits(rows[..|rows| - 1]) + rows[|rows| - 1].unitsSold
  }

  /** The rows whose month is calendar month `month`, `history.filter(month__month=month)`. */
  function InCalendarMonth(rows: seq<HistoryRow>, month: int): (r: seq<HistoryRow>)
    ensures forall x :: x in r <==> x in rows && MonthOf(x.month) == month
  {
    if rows == [] then []
    else (if MonthOf(rows[0].month) == month then [rows[0]] else []) + InCalendarMonth(rows[1..], month)
  }

  /** The mean of the rows' units, weighted by recency. */
  function WeightedMean(rows: seq<HistoryRow>): real
    requires rows != []
  {
    WeightedSum(rows) as real / TotalWeight(|rows|) as real
  }

  /**
   * The seasonal adjustment: the mean of the rows in today's calendar month over
   * the mean of all rows, when some row is in today's month and the overall mean
   * is positive; 1.0 otherwise.
   */
  function SeasonFactor(rows: seq<HistoryRow>, today: Day): (f: real)
    requires rows != []
    ensures InCalendarMonth(rows, MonthOf(today)) == [] ==> f == 1.0
    ensures InCalendarMonth(rows, MonthOf(today)) == rows ==> f == 1.0
    ensures SumUnits(rows) <= 0 ==> f == 1.0
  {
    var seasonal := InCalendarMonth(rows, MonthOf(today));
    if seasonal != [] then
      var seasonalAvg := SumUnits(seasonal) as real / |seasonal| as real;
      var yearAvg := SumUnits(rows) as real / |rows| as real;
      NonPositiveMean(SumUnits(rows) as real, |rows| as real);
      if yearAvg > 0.0 then
        assert seasonal == rows ==> seasonalAvg == yearAvg;
        SelfRatio(yearAvg);
        seasonalAvg / yearAvg
      else 1.0
    else 1.0
  }

  lemma SelfRatio(x: real)
    requires x > 0.0
    ensures x / x == 1.0
  {
  }

  lemma NonPositiveMean(s: real, n: real)
    requires n > 0.0
    ensures s <= 0.0 <==> s / n <= 0.0
  {
    if s / n <= 0.0 {
      assert s == (s / n) * n;
    }
  }

  /**
   * The forecast of product `p` from its month-ordered history, given the
   * history's weighted sum and total weight.
   */
  function ForecastFrom(p: Product, history: seq<HistoryRow>, weightedSum: int, totalWeight: int,
                        today: Day): (n: int)
    ensures n >= 1
  {
    if |history| > 0 then
      var avgUnits := if totalWeight > 0 then weightedSum as real / totalWeight as real
                      else p.unitsSold as real;
      Max(1, Trunc(avgUnits * 1.1 * SeasonFactor(history, today)))
    else
      Max(1, Trunc(p.unitsSold as real * 1.1))
  }

  /** `forecast_demand(product_id)` on the database `db` on day `today`. */
  function Forecast(db: Db, productId: int, today: Day): (n: int)
    ensures n == 0 <==> FindProduct(db.products, productId).None?
    ensures FindProduct(db.products, productId).Some? ==> n >= 1
  {
    match FindProduct(db.products, productId)
    case None => 0
    case Some(p) =>
      var history := MonthHistory(db, productId);
      ForecastFrom(p, history, WeightedSum(history), TotalWeight(|history|), today)
  }

  /** The forecast of a product without history is its units sold grown by 10%, at least 1. */
  lemma ForecastWithoutHistory(db: Db, p: Product, today: Day)
    requires FindProduct(db.products, p.productId) == Some(p)
    requires forall x :: x in db.history ==> x.productId != p.productId
    ensures Forecast(db, p.productId, today) == Max(1, Trunc(p.unitsSold as real * 1.1))
  {
    MonthHistoryIsOrdered(db, p.productId);
    if MonthHistory(db, p.productId) != [] {
      assert MonthHistory(db, p.productId)[0] in MonthHistory(db, p.productId);
    }
  }

  /** The service's loop over the history: it accumulates the weighted sum and the weights. */
  method WeightedTotals(history: seq<HistoryRow>) returns (weightedSum: int, totalWeight: int)
    ensures weightedSum == WeightedSum(history)
    ensures totalWeight == TotalWeight(|history|)
  {
    totalWeight := 0;
    weightedSum := 0;
    var i := 0;
    while i < |history|
      invariant 0 <= i <= |history|
      invariant weightedSum == WeightedSum(history[..i])
      invariant totalWeight == TotalWeight(i)
    {
      var weight := i + 1;
      assert history[..i + 1][..i] == history[..i];
      weightedSum := weightedSum + history[i].unitsSold * weight;
      totalWeight := totalWeight + weight;
      i := i + 1;
    }
    assert history[..i] == history;
  }

  /** `forecast_demand` as the service runs it. */
  method ForecastDemand(db: Db, productId: int, today: Day) returns (forecast: int)
    ensures forecast == Forecast(db, productId, today)
  {
    var found := FindProduct(db.products, productId);
    if found.None? {
      return 0;
    }
    var history := MonthHistory(db, productId);
    var weightedSum, totalWeight := WeightedTotals(history);
    forecast := ForecastFrom(found.value, history, weightedSum, totalWeight, today);
  }

  lemma {:induction false} WeightedSumBounds(rows: seq<HistoryRow>, lo: int, hi: int)
    requires forall x :: x in rows ==> lo <= x.unitsSold <= hi
    ensures lo * TotalWeight(|rows|) <= WeightedSum(rows) <= hi * TotalWeight(|rows|)
  {
    if rows != [] {
      var n := |rows|;
      var front := rows[..n - 1];
      var u := rows[n - 1].unitsSold;
      assert forall x :: x in front ==> x in rows;
      assert rows[n - 1] in rows;
      WeightedSumBounds(front, lo, hi);
      var t := TotalWeight(n - 1);
      assert TotalWeight(n) == t + n;
      assert WeightedSum(rows) == WeightedSum(front) + u * n;
      MulMonotone(lo, u, n);
      MulMonotone(u, hi, n);
      Distribute(lo, t, n);
      Distribute(hi, t, n);
    }
  }

  lemma MulMonotone(a: int, b: int, n: nat)
    requires a <= b
    ensures a * n <= b * n
  {
  }

  lemma Distribute(a: int, b: int, c: int)
    ensures a * (b + c) == a * b + a * c
  {
  }

  /** The time-weighted mean lies between the smallest and the largest units sold. */
  lemma WeightedMeanBetween(rows: seq<HistoryRow>, lo: int, hi: int)
    requires rows != []
    requires forall x :: x in rows ==> lo <= x.unitsSold <= hi
    ensures lo as real <= WeightedMean(rows) <= hi as real
  {
    WeightedSumBounds(rows, lo, hi);
    MeanBounds(WeightedSum(rows), TotalWeight(|rows|), lo, hi);
  }

  lemma MeanBounds(s: int, t: int, lo: int, hi: int)
    requires t > 0 && lo * t <= s <= hi * t
    ensures lo as real <= s as real / t as real <= hi as real
  {
    CastProduct(lo, t);
    CastProduct(hi, t);
    DivideBounds(s as real, t as real, lo as real, hi as real);
  }

  lemma CastProduct(a: int, b: int)
    ensures (a * b) as real == a as real * b as real
  {
  }

  lemma DivideBounds(s: real, t: real, lo: real, hi: real)
    requires t > 0.0 && lo * t <= s <= hi * t
    ensures lo <= s / t <= hi
  {
    var q := s / t;
    assert q * t == s;
    CancelPositive(lo, q, t);
    CancelPositive(q, hi, t);
  }

  lemma CancelPositive(x: real, y: real, t: real)
    requires t > 0.0 && x * t <= y * t
    ensures x <= y
  {
  }

  // ---------------------------------------------------------------------------
  // Price optimisation
  // ---------------------------------------------------------------------------

  /** `min(max(price_sensitivity, 0.1), 2.0)` */
  function ElasticityWeight(priceSensitivity: real): (w: real)
    ensures 0.1 <= w <= 2.0
    ensures 0.1 <= priceSensitivity <= 2.0 ==> w == priceSensitivity
    ensures priceSensitivity < 0.1 ==> w == 0.1
    ensures priceSensitivity > 2.0 ==> w == 2.0
  {
    RMin(RMax(priceSensitivity, 0.1), 2.0)
  }

  /** Cost plus the target margin. */
  function BaseOptimalPrice(costPrice: real, marginTarget: real): real
  {
    costPrice * (1.0 + marginTarget)
  }

  /** Cost plus the 5% minimum margin. */
  function MinimumPrice(costPrice: real): real
  {
    costPrice * (1.0 + 0.05)
  }

  /** Current and base price averaged with weights w and 1. */
  function Blend(current: real, base: real, w: real): real
    requires w >= 0.0
  {
    (current * w + base) / (1.0 + w)
  }

  /** The blend moves the current price by the share `1 / (1 + w)` of the gap to the base price. */
  lemma BlendForm(current: real, base: real, w: real)
    requires w >= 0.0
    ensures Blend(current, base, w) == current + (base - current) / (1.0 + w)
  {
    var d := (base - current) / (1.0 + w);
    assert d * (1.0 + w) == base - current;
    assert current * w + base == (current + d) * (1.0 + w);
  }

  /** The blend is a convex combination: it lies between the current and the base price. */
  lemma BlendBetween(current: real, base: real, w: real)
    requires w >= 0.0
    ensures RMin(current, base) <= Blend(current, base, w) <= RMax(current, base)
  {
    BlendForm(current, base, w);
    ShareBounds(base - current, w);
  }

  lemma ShareBounds(g: real, w: real)
    requires w >= 0.0
    ensures g >= 0.0 ==> 0.0 <= g / (1.0 + w) <= g
    ensures g <= 0.0 ==> g <= g / (1.0 + w) <= 0.0
  {
    ShareShrinks(g, 0.0, w);
    assert g / (1.0 + 0.0) == g;
    var d := g / (1.0 + w);
    assert d * (1.0 + w) == g;
    if g >= 0.0 && d < 0.0 {
      NegativeTimesPositive(d, 1.0 + w);
    }
    if g <= 0.0 && d > 0.0 {
      NonNegativeProduct(d, 1.0 + w);
    }
  }

  /** A larger elasticity weight keeps the blend closer to the current price. */
  lemma BlendApproachesCurrent(current: real, base: real, w1: real, w2: real)
    requires 0.0 <= w1 <= w2
    ensures base >= current ==> Blend(current, base, w2) <= Blend(current, base, w1)
    ensures base <= current ==> Blend(current, base, w1) <= Blend(current, base, w2)
  {
    BlendForm(current, base, w1);
    BlendForm(current, base, w2);
    ShareShrinks(base - current, w1, w2);
  }

  /** `g / (1 + w)` moves toward 0 as w grows. */
  lemma ShareShrinks(g: real, w1: real, w2: real)
    requires 0.0 <= w1 <= w2
    ensures g >= 0.0 ==> g / (1.0 + w2) <= g / (1.0 + w1)
    ensures g <= 0.0 ==> g / (1.0 + w1) <= g / (1.0 + w2)
  {
    var d1 := g / (1.0 + w1);
    var d2 := g / (1.0 + w2);
    assert d1 * (1.0 + w1) == g && d2 * (1.0 + w2) == g;
    assert d2 * (1.0 + w2) == d2 * (1.0 + w1) + d2 * (w2 - w1);
    if g >= 0.0 {
      assert d2 >= 0.0 by {
        if d2 < 0.0 {
          NegativeTimesPositive(d2, 1.0 + w2);
        }
      }
      NonNegativeProduct(d2, w2 - w1);
      CancelPositive(d2, d1, 1.0 + w1);
    } else {
      assert d2 <= 0.0 by {
        if d2 > 0.0 {
          NonNegativeProduct(d2, 1.0 + w2);
        }
      }
      NonNegativeProduct(-d2, w2 - w1);
      CancelPositive(d1, d2, 1.0 + w1);
    }
  }

  lemma NonNegativeProduct(x: real, y: real)
    requires x >= 0.0 && y >= 0.0
    ensures x * y >= 0.0
  {
  }

  lemma NegativeTimesPositive(x: real, y: real)
    requires x < 0.0 && y > 0.0
    ensures x * y < 0.0
  {
  }

  /**
   * The conditions the optimiser applies: the product's category, started by
   * today and with an end date not before today. A condition with no end date
   * fails `end_date__gte` in SQL and is not applied.
   */
  predicate Applies(c: MarketCondition, category: string, today: Day)
  {
    c.category == category && c.startDate <= today && c.endDate.Some? && c.endDate.value >= today
  }

  function ApplicableConditions(conditions: seq<MarketCondition>, category: string, today: Day)
    : (r: seq<MarketCondition>)
    ensures forall c :: c in r <==> c in conditions && Applies(c, category, today)
  {
    if conditions == [] then []
    else
      (if Applies(conditions[0], category, today) then [conditions[0]] else [])
        + ApplicableConditions(conditions[1..], category, today)
  }

  lemma {:induction false} ApplicableConditionsCount(conditions: seq<MarketCondition>, category: string, today: Day)
    ensures forall c {:trigger multiset(ApplicableConditions(conditions, category, today))[c]} ::
      multiset(ApplicableConditions(conditions, category, today))[c]
        == if Applies(c, category, today) then multiset(conditions)[c] else 0
  {
    if conditions != [] {
      ApplicableConditionsCount(conditions[1..], category, today);
      assert conditions == [conditions[0]] + conditions[1..];
    }
  }

  /**
   * The price for product `p` before rounding: the blend, times the market
   * factor when there is one, and never below the minimum price.
   */
  function PriceFrom(p: Product, marginTarget: real, priceSensitivity: real,
                     marketFactor: Option<real>): (price: real)
    ensures price >= MinimumPrice(p.costPrice)
  {
    var blended := Blend(p.sellingPrice, BaseOptimalPrice(p.costPrice, marginTarget),
                         ElasticityWeight(priceSensitivity));
    match marketFactor
    case None => RMax(blended, MinimumPrice(p.costPrice))
    case Some(f) => RMax(blended * f, MinimumPrice(p.costPrice))
  }

  /**
   * `optimize_price(product_id, margin_target, price_sensitivity, consider_market)`
   * before its final rounding to two decimals.
   */
  function OptimizedPrice(db: Db, productId: int, marginTarget: real, priceSensitivity: real,
                          considerMarket: bool, today: Day): (r: Result<real, ArithmeticError>)
    ensures FindProduct(db.products, productId).None? ==> r == Ok(0.0)
    ensures FindProduct(db.products, productId).Some? && r.Ok? ==>
      r.value >= MinimumPrice(FindProduct(db.products, productId).value.costPrice)
    ensures r.Err? <==>
      FindProduct(db.products, productId).Some? && considerMarket &&
      exists c :: c in db.conditions && DividesByZero(c) &&
        Applies(c, FindProduct(db.products, productId).value.category, today)
  {
    match FindProduct(db.products, productId)
    case None => Ok(0.0)
    case Some(p) =>
      if considerMarket then
        match MarketFactor(ApplicableConditions(db.conditions, p.category, today))
        case Err(e) => Err(e)
        case Ok(f) => Ok(PriceFrom(p, marginTarget, priceSensitivity, Some(f)))
      else
        Ok(PriceFrom(p, marginTarget, priceSensitivity, None))
  }

  /** Without market conditions the price lies between the blend's two ends or at the floor. */
  lemma PriceWithoutMarket(db: Db, p: Product, marginTarget: real, priceSensitivity: real, today: Day)
    requires FindProduct(db.products, p.productId) == Some(p)
    ensures OptimizedPrice(db, p.productId, marginTarget, priceSensitivity, false, today).Ok?
    ensures var price := OptimizedPrice(db, p.productId, marginTarget, priceSensitivity, false, today).value;
      price == MinimumPrice(p.costPrice) ||
      RMin(p.sellingPrice, BaseOptimalPrice(p.costPrice, marginTarget)) <= price
        <= RMax(p.sellingPrice, BaseOptimalPrice(p.costPrice, marginTarget))
  {
    BlendBetween(p.sellingPrice, BaseOptimalPrice(p.costPrice, marginTarget), ElasticityWeight(priceSensitivity));
  }

  /** Reordering the market-condition table does not change the optimised price. */
  lemma OptimizedPriceOrderFree(db: Db, db': Db, productId: int, marginTarget: real,
                                priceSensitivity: real, considerMarket: bool, today: Day)
    requires db'.products == db.products
    requires multiset(db'.conditions) == multiset(db.conditions)
    ensures OptimizedPrice(db, productId, marginTarget, priceSensitivity, considerMarket, today)
         == OptimizedPrice(db', productId, marginTarget, priceSensitivity, considerMarket, today)
  {
    var found := FindProduct(db.products, productId);
    if found.Some? {
      var category := found.value.category;
      var a := ApplicableConditions(db.conditions, category, today);
      var b := ApplicableConditions(db'.conditions, category, today);
      ApplicableConditionsCount(db.conditions, category, today);
      ApplicableConditionsCount(db'.conditions, category, today);
      assert multiset(a) == multiset(b) by {
        forall c
          ensures multiset(a)[c] == multiset(b)[c]
        {
        }
      }
      MarketFactorOrderFree(a, b);
    }
  }

  /** `optimize_price` as the service runs it. */
  method OptimizePrice(db: Db, productId: int, marginTarget: real, priceSensitivity: real,
                       considerMarket: bool, today: Day) returns (r: Result<real, ArithmeticError>)
    ensures r == OptimizedPrice(db, productId, marginTarget, priceSensitivity, considerMarket, today)
  {
    var found := FindProduct(db.products, productId);
    if found.None? {
      return Ok(0.0);
    }
    var product := found.value;
    if considerMarket {
      var conditions := ApplicableConditions(db.conditions, product.category, today);
      var marketFactor := ComputeMarketFactor(conditions);
      if marketFactor.Err? {
        return Err(marketFactor.error);
      }
      r := Ok(PriceFrom(product, marginTarget, priceSensitivity, Some(marketFactor.value)));
    } else {
      r := Ok(PriceFrom(product, marginTarget, priceSensitivity, None));
    }
  }
}
