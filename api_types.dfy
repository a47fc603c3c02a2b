/**
 * Shapes shared by the client's two RTK Query layers: the endpoints, the cache tags
 * and the optimisation parameters (`types/index.ts`).
 */
module ApiTypes {
  import opened Wrappers
  import opened Http

  datatype Tag = User | MarketConditions | ProductHistory | Products | OptimizationLogs

  datatype Endpoint =
    | GetProducts | GetProductById | CreateProduct | UpdateProduct | DeleteProduct
    | GetProductHistory | CreateProductHistory
    | GetMarketConditions | CreateMarketCondition
    | GetDemandForecast | OptimizePrice | BulkOptimizePrices
    | GetOptimizationLogs | GetVisualizationData

  const AllEndpoints: set<Endpoint> :=
    {GetProducts, GetProductById, CreateProduct, UpdateProduct, DeleteProduct,
     GetProductHistory, CreateProductHistory, GetMarketConditions, CreateMarketCondition,
     GetDemandForecast, OptimizePrice, BulkOptimizePrices, GetOptimizationLogs, GetVisualizationData}

  predicate IsMutation(e: Endpoint)
  {
    e in {CreateProduct, UpdateProduct, DeleteProduct, CreateProductHistory, CreateMarketCondition}
  }

  /** `PriceOptimizationParams`: None is a field left undefined. */
  datatype OptimizationParams = OptimizationParams(
    marginTarget: Option<real>, priceSensitivity: Option<real>, considerMarket: Option<bool>)

  /** `params = {}`. */
  const NoParams := OptimizationParams(None, None, None)

  /** The text `String(b)` gives a boolean, as `toString()` and the query string write it. */
  function BoolText(b: bool): string
  {
    if b then "true" else "false"
  }

  /**
   * The parameters object as the query string sees it: one entry per field that is set,
   * holding the value as given; `fetchBaseQuery` drops undefined entries.
   */
  function ParamsObject(p: OptimizationParams): (m: map<string, Param>)
    ensures "margin_target" in m <==> p.marginTarget.Some?
    ensures "price_sensitivity" in m <==> p.priceSensitivity.Some?
    ensures "consider_market" in m <==> p.considerMarket.Some?
    ensures m.Keys <= {"margin_target", "price_sensitivity", "consider_market"}
    ensures "margin_target" in m ==> m["margin_target"] == PNum(p.marginTarget.value)
    ensures "price_sensitivity" in m ==> m["price_sensitivity"] == PNum(p.priceSensitivity.value)
    ensures "consider_market" in m ==> m["consider_market"] == PBool(p.considerMarket.value)
  {
    var m1 := if p.marginTarget.Some? then map["margin_target" := PNum(p.marginTarget.value)] else map[];
    var m2 := if p.priceSensitivity.Some? then m1["price_sensitivity" := PNum(p.priceSensitivity.value)] else m1;
    if p.considerMarket.Some? then m2["consider_market" := PBool(p.considerMarket.value)] else m2
  }
}
