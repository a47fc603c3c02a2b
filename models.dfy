/**
 * Record shapes of the pricing backend's tables (Product, ProductHistory,
 * MarketCondition, PriceOptimizationLog). Decimal and float columns are reals;
 * a nullable column is an Option. A table read by a request is a sequence in the
 * database's row order.
 */
module Models {
  import opened Wrappers
  import opened Calendar

  datatype Product = Product(
    productId: int,
    name: string,
    description: string,
    costPrice: real,
    sellingPrice: real,
    category: string,
    stockAvailable: int,
    unitsSold: int,
    customerRating: Option<real>)

  /** One month of sales; `month` is the first day of that month. */
  datatype HistoryRow = HistoryRow(
    productId: int,
    month: Day,
    unitsSold: int,
    sellingPrice: real,
    costPrice: real)

  /**
   * `trend` is the stored text; the admin form offers "up", "down" and "stable",
   * but the column itself holds any string.
   */
  datatype MarketCondition = MarketCondition(
    name: string,
    category: string,
    trend: string,
    impactFactor: real,
    startDate: Day,
    endDate: Option<Day>)

  /** The three decoded request parameters the optimiser ran with. */
  datatype OptimizationParameters = OptimizationParameters(
    marginTarget: real,
    priceSensitivity: real,
    considerMarket: bool)

  datatype OptimizationLog = OptimizationLog(
    productId: int,
    originalPrice: real,
    optimizedPrice: real,
    demandForecast: int,
    parameters: OptimizationParameters,
    runBy: int)

  /** What one request reads of the pricing tables. */
  datatype Db = Db(
    products: seq<Product>,
    history: seq<HistoryRow>,
    conditions: seq<MarketCondition>)

  /** `Product.objects.get(pk=id)`: None stands for `Product.DoesNotExist`. */
  function FindProduct(products: seq<Product>, id: int): (r: Option<Product>)
    ensures r.None? <==> forall p :: p in products ==> p.productId != id
    ensures r.Some? ==> r.value in products && r.value.productId == id
  {
    if products == [] then None
    else if products[0].productId == id then Some(products[0])
    else FindProduct(products[1..], id)
  }
}
