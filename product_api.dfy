/**
 * The endpoints `api/productApi.ts` injects into `apiSlice`: their cache tags and the
 * two optimisation query builders, which forward only the parameters that are set.
 */
module ProductApi {
  import opened Wrappers
  import opened Json
  import opened Http
  import opened ApiTypes

  /** `providesTags` of each endpoint. */
  function Provides(e: Endpoint): (tags: set<Tag>)
    ensures tags == {} <==>
              IsMutation(e) || e in {GetDemandForecast, OptimizePrice, BulkOptimizePrices, GetVisualizationData}
    ensures |tags| <= 1
  {
    match e
    case GetProducts => {Products}
    case GetProductById => {Products}
    case GetProductHistory => {ProductHistory}
    case GetMarketConditions => {MarketConditions}
    case GetOptimizationLogs => {OptimizationLogs}
    case _ => {}
  }

  /** `invalidatesTags` of each endpoint; only mutations invalidate. */
  function Invalidates(e: Endpoint): (tags: set<Tag>)
    ensures tags != {} <==> IsMutation(e)
  {
    match e
    case CreateProduct => {Products}
    case UpdateProduct => {Products}
    case DeleteProduct => {Products}
    case CreateProductHistory => {ProductHistory, Products}
    case CreateMarketCondition => {MarketConditions}
    case _ => {}
  }

  /** The queries whose cached data a run of `m` makes stale: those sharing a tag with it. */
  function StaleQueries(m: Endpoint): (qs: set<Endpoint>)
    ensures forall q :: q in qs <==> Provides(q) * Invalidates(m) != {}
  {
    set q | q in AllEndpoints && Provides(q) * Invalidates(m) != {}
  }

  /**
   * What each mutation makes stale: a product mutation the two product queries, a new
   * history row also the history list, a new market condition only the condition list;
   * the forecast, optimisation and visualisation queries are never made stale.
   */
  lemma StaleByMutation(m: Endpoint)
    ensures m in {CreateProduct, UpdateProduct, DeleteProduct} ==> StaleQueries(m) == {GetProducts, GetProductById}
    ensures m == CreateProductHistory ==> StaleQueries(m) == {GetProducts, GetProductById, GetProductHistory}
    ensures m == CreateMarketCondition ==> StaleQueries(m) == {GetMarketConditions}
    ensures !IsMutation(m) ==> StaleQueries(m) == {}
    ensures forall q :: q in {GetDemandForecast, OptimizePrice, BulkOptimizePrices, GetVisualizationData} ==> q !in StaleQueries(m)
  {
    var qs := StaleQueries(m);
    if m in {CreateProduct, UpdateProduct, DeleteProduct} {
      forall q ensures q in qs <==> q in {GetProducts, GetProductById} {
        assert q in qs <==> Products in Provides(q);
      }
    } else if m == CreateProductHistory {
      forall q ensures q in qs <==> q in {GetProducts, GetProductById, GetProductHistory} {
        assert q in qs <==> Products in Provides(q) || ProductHistory in Provides(q);
      }
    } else if m == CreateMarketCondition {
      forall q ensures q in qs <==> q in {GetMarketConditions} {
        assert q in qs <==> MarketConditions in Provides(q);
      }
    }
  }

  /** `/api/products/{productId}/optimize/`. */
  function OptimizeUrl(productId: int): string
  {
    "/api/products/" + IntText(productId) + "/optimize/"
  }

  const BulkOptimizeUrl := "/api/products/bulk-optimize/"

  /**
   * `optimizePrice`'s query: a GET to the product's optimise URL whose parameters are the
   * fields of `params` that are set, `consider_market` as the boolean given; absent
   * `params` (the default `{}`) gives no parameters.
   */
  method OptimizePriceQuery(productId: int, params: Option<OptimizationParams>) returns (a: Args)
    ensures a == Args(OptimizeUrl(productId), "GET", ParamsObject(params.GetOr(NoParams)))
    ensures params.None? ==> a.params == map[]
  {
    var p := params.GetOr(NoParams);
    var queryParams: map<string, Param> := map[];
    if p.marginTarget.Some? {
      queryParams := queryParams["margin_target" := PNum(p.marginTarget.value)];
    }
    if p.priceSensitivity.Some? {
      queryParams := queryParams["price_sensitivity" := PNum(p.priceSensitivity.value)];
    }
    if p.considerMarket.Some? {
      queryParams := queryParams["consider_market" := PBool(p.considerMarket.value)];
    }
    a := Args(OptimizeUrl(productId), "GET", queryParams);
  }

  /**
   * `bulkOptimizePrices`'s query: the same keys as the parameters set, but
   * `consider_market` goes out as the text of `toString()`, so an explicit false is sent
   * as "false"; no parameters (void) gives an empty query.
   */
  method BulkOptimizePricesQuery(params: Option<OptimizationParams>) returns (a: Args)
    ensures a.url == BulkOptimizeUrl && a.verb == "GET"
    ensures a.params.Keys == ParamsObject(params.GetOr(NoParams)).Keys
    ensures forall k :: k in a.params && k != "consider_market" ==> a.params[k] == ParamsObject(params.GetOr(NoParams))[k]
    ensures "consider_market" in a.params ==>
              a.params["consider_market"] == PStr(BoolText(params.value.considerMarket.value))
    ensures params.None? ==> a.params == map[]
  {
    var queryParams: map<string, Param> := map[];
    if params.Some? && params.value.marginTarget.Some? {
      queryParams := queryParams["margin_target" := PNum(params.value.marginTarget.value)];
    }
    if params.Some? && params.value.priceSensitivity.Some? {
      queryParams := queryParams["price_sensitivity" := PNum(params.value.priceSensitivity.value)];
    }
    if params.Some? && params.value.considerMarket.Some? {
      queryParams := queryParams["consider_market" := PStr(BoolText(params.value.considerMarket.value))];
    }
    a := Args(BulkOptimizeUrl, "GET", queryParams);
  }
}
