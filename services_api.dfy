/**
 * `services/api.ts`, the API layer the store registers: its bearer token comes from the
 * Redux auth state, its tag universe has no "User" tag, and the optimisation queries
 * hand their parameters object over as it is.
 */
module ServicesApi {
  import opened Wrappers
  import opened Json
  import opened Http
  import opened ApiTypes
  import ProductApi
  import AuthSlice

  /** `tagTypes`. */
  const TagTypes: set<Tag> := {Products, ProductHistory, MarketConditions, OptimizationLogs}

  function Provides(e: Endpoint): (tags: set<Tag>)
    ensures tags <= TagTypes
  {
    match e
    case GetProducts => {Products}
    case GetProductById => {Products}
    case GetProductHistory => {ProductHistory}
    case GetMarketConditions => {MarketConditions}
    case GetOptimizationLogs => {OptimizationLogs}
    case _ => {}
  }

  function Invalidates(e: Endpoint): (tags: set<Tag>)
    ensures tags <= TagTypes
  {
    match e
    case CreateProduct => {Products}
    case UpdateProduct => {Products}
    case DeleteProduct => {Products}
    case CreateProductHistory => {ProductHistory, Products}
    case CreateMarketCondition => {MarketConditions}
    case _ => {}
  }

  /** The registered layer and the injected one declare the same tags for every endpoint, and neither uses "User". */
  lemma SameTablesAsProductApi(e: Endpoint)
    ensures Provides(e) == ProductApi.Provides(e) && Invalidates(e) == ProductApi.Invalidates(e)
    ensures User !in Provides(e) + Invalidates(e)
  {
  }

  /** `Bearer ${token}` when `state.auth.token` is truthy, the token coerced to a string. */
  function Authorization(token: Json): (h: Option<string>)
    ensures h.Some? <==> Truthy(token)
    ensures h.Some? ==> h.value == "Bearer " + ToJsString(token)
  {
    if Truthy(token) then Some("Bearer " + ToJsString(token)) else None
  }

  /** Reads the token from the auth slice's state only; storage plays no part. */
  method PrepareHeaders(headers: Headers, auth: AuthSlice.AuthSlice)
    modifies headers
    ensures headers.entries ==
              match Authorization(auth.state.token)
              case None => old(headers.entries)
              case Some(v) => old(headers.entries)[AuthorizationHeader := v]
  {
    var token := auth.state.token;
    if Truthy(token) {
      headers.Set(AuthorizationHeader, "Bearer " + ToJsString(token));
    }
  }

  /** `optimizePrice`: the parameters object goes out as the query unchanged. */
  function OptimizePriceQuery(productId: int, params: OptimizationParams): (a: Args)
    ensures a.url == ProductApi.OptimizeUrl(productId) && a.verb == "GET"
    ensures a.params == ParamsObject(params)
  {
    Args(ProductApi.OptimizeUrl(productId), "GET", ParamsObject(params))
  }

  /** `bulkOptimizePrices`: the same, `consider_market` staying a boolean. */
  function BulkOptimizePricesQuery(params: OptimizationParams): (a: Args)
    ensures a.url == ProductApi.BulkOptimizeUrl && a.verb == "GET"
    ensures a.params == ParamsObject(params)
  {
    Args(ProductApi.BulkOptimizeUrl, "GET", ParamsObject(params))
  }
}
