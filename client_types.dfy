/** The client's `Product` record (`types/index.ts`); numbers are reals, optional fields Options. */
module ClientTypes {
  import opened Wrappers

  datatype Product = Product(
    productId: int,
    name: string,
    description: string,
    costPrice: real,
    sellingPrice: real,
    category: Option<string>,
    stockAvailable: real,
    unitsSold: real,
    customerRating: Option<real>,
    demandForecast: Option<real>,
    optimizedPrice: Option<real>)

  /** `x || 0` for an optional number: undefined (and 0) read as 0. */
  function OrZero(x: Option<real>): (r: real)
    ensures x.Some? ==> r == x.value
    ensures x.None? ==> r == 0.0
  {
    if x.Some? then x.value else 0.0
  }
}
