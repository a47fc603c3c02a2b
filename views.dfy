/**
 * The pricing API's function views (`api/views.py`): demand forecast, price
 * optimisation with its log row, bulk optimisation over a product filter, and the
 * demand-visualisation data. Authentication and permission classes run before a
 * view and are modelled in `Permissions`; a view here starts once they passed.
 */
module ApiViews {
  import opened Wrappers
  import opened Text
  import opened Calendar
  import opened Models
  import opened Market
  import opened Services
  import opened Filters
  import opened Http
  import ApiTypes

  /** How a view ends: a 200 body, `Http404`, or an exception DRF answers with 500. */
  datatype Outcome<T> = Answer(body: T) | NotFound | ServerError

  /** `request.query_params`, one text value per key. */
  type Query = map<string, string>

  /** Python's `float(text)`: None when it raises ValueError. */
  type FloatParser = string -> Option<real>

  const MarginTargetKey := "margin_target"
  const PriceSensitivityKey := "price_sensitivity"
  const ConsiderMarketKey := "consider_market"
  const DefaultMarginTarget := 0.3
  const DefaultPriceSensitivity := 1.0

  // ----- parameter decoding -----

  /** `float(query_params.get(key, default))`; the default is a float already and is not parsed. */
  function FloatParam(q: Query, key: string, default: real, parseFloat: FloatParser): (r: Option<real>)
    ensures key !in q ==> r == Some(default)
    ensures key in q ==> r == parseFloat(q[key])
  {
    if key in q then parseFloat(q[key]) else Some(default)
  }

  /** `query_params.get('consider_market', 'true').lower() == 'true'`. */
  function ConsiderMarket(q: Query): (b: bool)
    ensures ConsiderMarketKey !in q ==> b
    ensures ConsiderMarketKey in q ==> (b <==> Lower(q[ConsiderMarketKey]) == "true")
  {
    Lower(if ConsiderMarketKey in q then q[ConsiderMarketKey] else "true") == "true"
  }

  /** Any capitalisation of "true" switches the market on, and nothing else does. */
  lemma ConsiderMarketSpellings(q: Query)
    requires ConsiderMarketKey in q
    ensures ConsiderMarket(q) <==> EqualsIgnoreCase(q[ConsiderMarketKey], "true")
  {
    assert Lower("true") == "true";
  }

  /**
   * The three parameters, decoded in the order the view reads them; None is the
   * ValueError of a margin or sensitivity that is not a float.
   */
  function DecodeParameters(q: Query, parseFloat: FloatParser): (r: Option<OptimizationParameters>)
    ensures r.None? <==>
      (MarginTargetKey in q && parseFloat(q[MarginTargetKey]).None?) ||
      (PriceSensitivityKey in q && parseFloat(q[PriceSensitivityKey]).None?)
    ensures r.Some? && MarginTargetKey !in q ==> r.value.marginTarget == DefaultMarginTarget
    ensures r.Some? && MarginTargetKey in q ==> Some(r.value.marginTarget) == parseFloat(q[MarginTargetKey])
    ensures r.Some? && PriceSensitivityKey !in q ==> r.value.priceSensitivity == DefaultPriceSensitivity
    ensures r.Some? && PriceSensitivityKey in q ==> Some(r.value.priceSensitivity) == parseFloat(q[PriceSensitivityKey])
    ensures r.Some? ==> r.value.considerMarket == ConsiderMarket(q)
  {
    match FloatParam(q, MarginTargetKey, DefaultMarginTarget, parseFloat)
    case None => None
    case Some(marginTarget) =>
      match FloatParam(q, PriceSensitivityKey, DefaultPriceSensitivity, parseFloat)
      case None => None
      case Some(priceSensitivity) => Some(OptimizationParameters(marginTarget, priceSensitivity, ConsiderMarket(q)))
  }

  /** The query text the client's parameter object becomes; `numberText` is JavaScript's `String(x)`. */
  function QueryText(params: map<string, Param>, numberText: real -> string): (q: Query)
    ensures q.Keys == params.Keys
  {
    map k | k in params ::
      match params[k]
      case PNum(x) => numberText(x)
      case PBool(b) => ApiTypes.BoolText(b)
      case PStr(s) => s
  }

  /**
   * What the client asks for is what the server optimises with: every field the
   * client sets arrives with its value and every field it leaves out takes the
   * server's default, provided `float` reads back the client's number text.
   */
  lemma ClientParametersArrive(p: ApiTypes.OptimizationParams, numberText: real -> string, parseFloat: FloatParser)
    requires forall x :: parseFloat(numberText(x)) == Some(x)
    ensures DecodeParameters(QueryText(ApiTypes.ParamsObject(p), numberText), parseFloat)
         == Some(OptimizationParameters(p.marginTarget.GetOr(DefaultMarginTarget),
                                        p.priceSensitivity.GetOr(DefaultPriceSensitivity),
                                        p.considerMarket.GetOr(true)))
  {
    var q := QueryText(ApiTypes.ParamsObject(p), numberText);
    assert Lower("true") == "true";
    if p.considerMarket.Some? {
      assert q[ConsiderMarketKey] == ApiTypes.BoolText(p.considerMarket.value);
      if !p.considerMarket.value {
        assert |Lower("false")| == 5;
      }
    }
  }

  // ----- forecast -----

  datatype ForecastBody = ForecastBody(productId: int, demandForecast: int)

  /** `DemandForecastAPIView.get`. */
  function ForecastView(db: Db, pk: int, today: Day): (r: Outcome<ForecastBody>)
    ensures r.NotFound? <==> FindProduct(db.products, pk).None?
    ensures !r.ServerError?
    ensures r.Answer? ==> r.body.productId == pk && r.body.demandForecast >= 1
    ensures r.Answer? ==> r.body.demandForecast == Forecast(db, pk, today)
  {
    if FindProduct(db.products, pk).None? then NotFound
    else Answer(ForecastBody(pk, Forecast(db, pk, today)))
  }

  // ----- single optimisation -----

  datatype OptimizeBody = OptimizeBody(productId: int, productName: string, currentPrice: real, optimizedPrice: real)

  /**
   * The answer of `PriceOptimizationAPIView.get`: 404 for an unknown product
   * (checked before the parameters are read), 500 for a parameter `float` rejects
   * or a market condition that divides by zero, and otherwise the product's
   * current price beside its optimised price.
   */
  function OptimizeOutcome(db: Db, pk: int, q: Query, parseFloat: FloatParser, today: Day): (r: Outcome<OptimizeBody>)
    ensures r.NotFound? <==> FindProduct(db.products, pk).None?
    ensures r.ServerError? <==>
      FindProduct(db.products, pk).Some? &&
      (DecodeParameters(q, parseFloat).None? ||
       var params := DecodeParameters(q, parseFloat).value;
       OptimizedPrice(db, pk, params.marginTarget, params.priceSensitivity, params.considerMarket, today).Err?)
    ensures r.Answer? ==>
      var p := FindProduct(db.products, pk).value;
      && r.body.productId == pk
      && r.body.productName == p.name
      && r.body.currentPrice == p.sellingPrice
      && r.body.optimizedPrice >= MinimumPrice(p.costPrice)
    ensures r.Answer? ==>
      var params := DecodeParameters(q, parseFloat).value;
      OptimizedPrice(db, pk, params.marginTarget, params.priceSensitivity, params.considerMarket, today)
        == Ok(r.body.optimizedPrice)
  {
    match FindProduct(db.products, pk)
    case None => NotFound
    case Some(p) =>
      match DecodeParameters(q, parseFloat)
      case None => ServerError
      case Some(params) =>
        match OptimizedPrice(db, pk, params.marginTarget, params.priceSensitivity, params.considerMarket, today)
        case Err(_) => ServerError
        case Ok(price) => Answer(OptimizeBody(pk, p.name, p.sellingPrice, price))
  }

  /**
   * The log rows one optimisation request writes: one exactly when it answers with
   * a positive price, recording the current price, the forecast, the decoded
   * parameters and the requesting user.
   */
  function NewLogRows(db: Db, pk: int, q: Query, parseFloat: FloatParser, user: int, today: Day)
    : (rows: seq<OptimizationLog>)
    ensures |rows| <= 1
    ensures |rows| == 1 <==>
      OptimizeOutcome(db, pk, q, parseFloat, today).Answer? &&
      OptimizeOutcome(db, pk, q, parseFloat, today).body.optimizedPrice > 0.0
    ensures |rows| == 1 ==>
      var p := FindProduct(db.products, pk).value;
      && rows[0].productId == pk
      && rows[0].originalPrice == p.sellingPrice
      && rows[0].optimizedPrice == OptimizeOutcome(db, pk, q, parseFloat, today).body.optimizedPrice
      && OptimizedPrice(db, pk, rows[0].parameters.marginTarget, rows[0].parameters.priceSensitivity,
                        rows[0].parameters.considerMarket, today) == Ok(rows[0].optimizedPrice)
      && rows[0].demandForecast == Forecast(db, pk, today)
      && rows[0].demandForecast >= 1
      && Some(rows[0].parameters) == DecodeParameters(q, parseFloat)
      && rows[0].runBy == user
  {
    match OptimizeOutcome(db, pk, q, parseFloat, today)
    case Answer(body) =>
      if body.optimizedPrice > 0.0 then
        [OptimizationLog(pk, body.currentPrice, body.optimizedPrice, Forecast(db, pk, today),
                         DecodeParameters(q, parseFloat).value, user)]
      else []
    case _ => []
  }

  /** A product with a positive cost price always gets its optimisation logged. */
  lemma PositiveCostIsLogged(db: Db, pk: int, q: Query, parseFloat: FloatParser, user: int, today: Day)
    requires FindProduct(db.products, pk).Some? && FindProduct(db.products, pk).value.costPrice > 0.0
    requires OptimizeOutcome(db, pk, q, parseFloat, today).Answer?
    ensures |NewLogRows(db, pk, q, parseFloat, user, today)| == 1
  {
    var p := FindProduct(db.products, pk).value;
    var price := OptimizeOutcome(db, pk, q, parseFloat, today).body.optimizedPrice;
    PositiveMinimum(p.costPrice);
    assert price >= MinimumPrice(p.costPrice);
  }

  lemma PositiveMinimum(cost: real)
    requires cost > 0.0
    ensures MinimumPrice(cost) > 0.0
  {
  }

  /** The `PriceOptimizationLog` table, which the optimisation view appends to. */
  class LogTable {
    var rows: seq<OptimizationLog>

    constructor()
      ensures rows == []
    {
      rows := [];
    }

    /** `PriceOptimizationLog.objects.create(...)`. */
    method Create(entry: OptimizationLog)
      modifies this
      ensures rows == old(rows) + [entry]
    {
      rows := rows + [entry];
    }
  }

  /** `PriceOptimizationAPIView.get`, run by user `user`. */
  method OptimizeView(logs: LogTable, db: Db, pk: int, q: Query, parseFloat: FloatParser, user: int, today: Day)
    returns (r: Outcome<OptimizeBody>)
    modifies logs
    ensures r == OptimizeOutcome(db, pk, q, parseFloat, today)
    ensures logs.rows == old(logs.rows) + NewLogRows(db, pk, q, parseFloat, user, today)
  {
    var found := FindProduct(db.products, pk);
    if found.None? {
      return NotFound;
    }
    var product := found.value;
    var params := DecodeParameters(q, parseFloat);
    if params.None? {
      return ServerError;
    }
    var marginTarget, priceSensitivity, considerMarket :=
      params.value.marginTarget, params.value.priceSensitivity, params.value.considerMarket;
    var optimized := OptimizePrice(db, pk, marginTarget, priceSensitivity, considerMarket, today);
    if optimized.Err? {
      return ServerError;
    }
    var optimizedPrice := optimized.value;
    if optimizedPrice > 0.0 {
      var demandForecast := ForecastDemand(db, pk, today);
      logs.Create(OptimizationLog(pk, product.sellingPrice, optimizedPrice, demandForecast,
                                  OptimizationParameters(marginTarget, priceSensitivity, considerMarket), user));
    }
    return Answer(OptimizeBody(pk, product.name, product.sellingPrice, optimizedPrice));
  }

  // ----- bulk optimisation -----

  /** A serialised product with the two fields the bulk view adds. */
  datatype BulkEntry = BulkEntry(product: Product, demandForecast: int, optimizedPrice: real)

  /** Some filtered product's optimisation raises. */
  predicate SomeOptimizationFails(db: Db, products: seq<Product>, params: OptimizationParameters, today: Day)
  {
    exists p :: p in products && PriceOf(db, p, params, today).Err?
  }

  function PriceOf(db: Db, p: Product, params: OptimizationParameters, today: Day): Result<real, ArithmeticError>
  {
    OptimizedPrice(db, p.productId, params.marginTarget, params.priceSensitivity, params.considerMarket, today)
  }

  /** `e` is the bulk entry of product `p`: the product, its forecast and its optimised price. */
  predicate EntryFor(db: Db, params: OptimizationParameters, today: Day, p: Product, e: BulkEntry)
  {
    && e.product == p
    && e.demandForecast == Forecast(db, p.productId, today)
    && Ok(e.optimizedPrice) == PriceOf(db, p, params, today)
  }

  /** The bulk view's loop over the filtered products; None is the first optimisation that raises. */
  method OptimizeEach(db: Db, products: seq<Product>, params: OptimizationParameters, today: Day)
    returns (r: Option<seq<BulkEntry>>)
    ensures r.None? <==> SomeOptimizationFails(db, products, params, today)
    ensures r.Some? ==> |r.value| == |products|
    ensures r.Some? ==> forall i :: 0 <= i < |products| ==> EntryFor(db, params, today, products[i], r.value[i])
  {
    var result: seq<BulkEntry> := [];
    var i := 0;
    while i < |products|
      invariant 0 <= i <= |products|
      invariant |result| == i
      invariant forall j :: 0 <= j < i ==> EntryFor(db, params, today, products[j], result[j])
      invariant forall j :: 0 <= j < i ==> PriceOf(db, products[j], params, today).Ok?
    {
      var product := products[i];
      var demandForecast := ForecastDemand(db, product.productId, today);
      var optimized := OptimizePrice(db, product.productId, params.marginTarget, params.priceSensitivity,
                                     params.considerMarket, today);
      if optimized.Err? {
        assert product in products && PriceOf(db, product, params, today).Err?;
        return None;
      }
      result := result + [BulkEntry(product, demandForecast, optimized.value)];
      i := i + 1;
    }
    forall p | p in products
      ensures PriceOf(db, p, params, today).Ok?
    {
      var j :| 0 <= j < |products| && products[j] == p;
    }
    return Some(result);
  }

  /**
   * `ProductBulkOptimizationAPIView.get`: the products `filter` keeps, each with its
   * forecast and optimised price, in the order of the filtered queryset.
   */
  method BulkOptimizeView(db: Db, filter: ProductQuery, q: Query, parseFloat: FloatParser, today: Day)
    returns (r: Outcome<seq<BulkEntry>>)
    ensures !r.NotFound?
    ensures r.ServerError? <==>
      DecodeParameters(q, parseFloat).None? ||
      SomeOptimizationFails(db, FilterProducts(db.products, filter), DecodeParameters(q, parseFloat).value, today)
    ensures r.Answer? ==>
      var products := FilterProducts(db.products, filter);
      var params := DecodeParameters(q, parseFloat).value;
      && |r.body| == |products|
      && forall i :: 0 <= i < |products| ==>
           EntryFor(db, params, today, products[i], r.body[i]) && r.body[i].demandForecast >= 1
  {
    var products := FilterProducts(db.products, filter);
    var decoded := DecodeParameters(q, parseFloat);
    if decoded.None? {
      return ServerError;
    }
    var result := OptimizeEach(db, products, decoded.value, today);
    if result.None? {
      return ServerError;
    }
    forall i | 0 <= i < |products|
      ensures Forecast(db, products[i].productId, today) >= 1
    {
      assert products[i] in db.products;
    }
    return Answer(result.value);
  }

  // ----- demand visualisation -----

  datatype PricePoint = PricePoint(date: YearMonth, sellingPrice: real, unitsSold: int)

  datatype CurvePoint = CurvePoint(price: real, demand: real)

  datatype VisualizationBody = VisualizationBody(
    productId: int,
    productName: string,
    historicalData: seq<PricePoint>,
    demandCurve: seq<CurvePoint>,
    currentPrice: real,
    forecastedDemand: int)

  const CurveSize := 13

  /** The price multiplier of curve point `i`: `1 - 0.3 + i * 0.05`, from 0.7 to 1.3. */
  function CurveStep(i: int): (s: real)
    ensures 0 <= i < CurveSize ==> 0.7 <= s <= 1.3
    ensures i == 6 ==> s == 1.0
  {
    1.0 - 0.3 + i as real * 0.05
  }

  /** The point for row `h`; its date is `month.strftime('%Y-%m')`, kept as the pair it prints. */
  function PricePointOf(h: HistoryRow): PricePoint
  {
    var d := CivilFromDays(h.month);
    PricePoint(YearMonth(d.year, d.month), h.sellingPrice, h.unitsSold)
  }

  /** `points` are the history's rows as chart points, one per row and in the same order. */
  predicate HistoryPoints(history: seq<HistoryRow>, points: seq<PricePoint>)
  {
    |points| == |history| && forall i :: 0 <= i < |history| ==> points[i] == PricePointOf(history[i])
  }

  /** `curve` has the 13 points at base price times `CurveStep(i)`, with demand `baseDemand * pow(step)`. */
  predicate CurvePoints(basePrice: real, baseDemand: int, pow: real -> real, curve: seq<CurvePoint>)
  {
    |curve| == CurveSize &&
    forall i :: 0 <= i < CurveSize ==>
      curve[i] == CurvePoint(basePrice * CurveStep(i), baseDemand as real * pow(CurveStep(i)))
  }

  /** The middle point of a curve sits at the base price and, when `pow(1) = 1`, at the base demand. */
  lemma CurveMiddle(basePrice: real, baseDemand: int, pow: real -> real, curve: seq<CurvePoint>)
    requires CurvePoints(basePrice, baseDemand, pow, curve)
    ensures curve[6].price == basePrice
    ensures pow(1.0) == 1.0 ==> curve[6].demand == baseDemand as real
  {
    assert CurveStep(6) == 1.0;
  }

  /** The loop over the month-ordered history. */
  method HistoricalData(history: seq<HistoryRow>) returns (pricePoints: seq<PricePoint>)
    ensures HistoryPoints(history, pricePoints)
  {
    pricePoints := [];
    var i := 0;
    while i < |history|
      invariant 0 <= i <= |history|
      invariant HistoryPoints(history[..i], pricePoints)
    {
      pricePoints := pricePoints + [PricePointOf(history[i])];
      i := i + 1;
    }
    assert history[..i] == history;
  }

  lemma Cancel(basePrice: real, step: real)
    requires basePrice != 0.0
    ensures (basePrice * step) / basePrice == step
  {
  }

  /**
   * The loop over the price range: the demand at each price is the base demand
   * times `pow` of the price ratio, `pow` being `x ** -0.7`. None is the
   * ZeroDivisionError of a zero base price.
   */
  method DemandCurve(basePrice: real, baseDemand: int, pow: real -> real) returns (r: Option<seq<CurvePoint>>)
    ensures r.None? <==> basePrice == 0.0
    ensures r.Some? ==> CurvePoints(basePrice, baseDemand, pow, r.value)
  {
    var priceRange := seq(CurveSize, i => basePrice * CurveStep(i));
    var curvePoints: seq<CurvePoint> := [];
    var i := 0;
    while i < |priceRange|
      invariant 0 <= i <= CurveSize
      invariant basePrice != 0.0 || i == 0
      invariant |curvePoints| == i
      invariant forall j :: 0 <= j < i ==>
        curvePoints[j] == CurvePoint(basePrice * CurveStep(j), baseDemand as real * pow(CurveStep(j)))
    {
      var price := priceRange[i];
      if basePrice == 0.0 {
        return None;
      }
      var priceRatio := price / basePrice;
      assert price == basePrice * CurveStep(i);
      Cancel(basePrice, CurveStep(i));
      assert priceRatio == CurveStep(i);
      var demand := baseDemand as real * pow(priceRatio);
      curvePoints := curvePoints + [CurvePoint(price, demand)];
      i := i + 1;
    }
    return Some(curvePoints);
  }

  /** `DemandVisualizationDataAPIView.get`. */
  method VisualizationView(db: Db, pk: int, pow: real -> real, today: Day) returns (r: Outcome<VisualizationBody>)
    ensures r.NotFound? <==> FindProduct(db.products, pk).None?
    ensures r.ServerError? <==> FindProduct(db.products, pk).Some? && FindProduct(db.products, pk).value.sellingPrice == 0.0
    ensures r.Answer? ==>
      var p := FindProduct(db.products, pk).value;
      && r.body.productId == pk
      && r.body.productName == p.name
      && r.body.currentPrice == p.sellingPrice
      && r.body.forecastedDemand == Forecast(db, pk, today)
      && HistoryPoints(MonthHistory(db, pk), r.body.historicalData)
      && CurvePoints(p.sellingPrice, Forecast(db, pk, today), pow, r.body.demandCurve)
  {
    var found := FindProduct(db.products, pk);
    if found.None? {
      return NotFound;
    }
    var product := found.value;
    var history := MonthHistory(db, pk);
    var pricePoints := HistoricalData(history);
    var basePrice := product.sellingPrice;
    var baseDemand := ForecastDemand(db, pk, today);
    var curve := DemandCurve(basePrice, baseDemand, pow);
    if curve.None? {
      return ServerError;
    }
    return Answer(VisualizationBody(pk, product.name, pricePoints, curve.value, product.sellingPrice, baseDemand));
  }

  // ----- filters beside the optimiser -----

  /** Every condition the optimiser applies is one the `active=true` filter lists. */
  lemma AppliedConditionsAreActive(c: MarketCondition, category: string, today: Day)
    requires Applies(c, category, today)
    ensures ActiveFilter(c, true, today)
  {
  }

  /**
   * The converse fails: a condition with no end date is listed as active but
   * not applied by the optimiser.
   */
  lemma OpenEndedConditionIsActiveButNotApplied(c: MarketCondition, today: Day)
    requires c.startDate <= today && c.endDate.None?
    ensures ActiveFilter(c, true, today) && !Applies(c, c.category, today)
  {
  }
}
