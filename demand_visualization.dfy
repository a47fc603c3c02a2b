/**
 * The chart data derived in `components/pricing/DemandVisualization.tsx`: the history
 * series, the top-four comparison rows, the price/demand curve with its fallback, the
 * revenue points and the series colours.
 */
module DemandVisualization {
  import opened Wrappers
  import opened ClientTypes

  datatype HistoryPoint = HistoryPoint(date: string, sellingPrice: real, unitsSold: real)
  datatype CurvePoint = CurvePoint(price: real, demand: real)

  /** `DemandVisualizationData`, reduced to the two series the charts derive from. */
  datatype VisualizationData = VisualizationData(
    historicalData: Option<seq<HistoryPoint>>, demandCurve: Option<seq<CurvePoint>>)

  datatype ChartPoint = ChartPoint(date: string, price: real, sales: real)

  /** `Math.round`: halves round up. */
  function JsRound(x: real): int
  {
    (x + 0.5).Floor
  }

  /** `historicalChartData`: one chart point per history entry, in order; [] while absent. */
  function HistoricalChartData(data: Option<VisualizationData>): (r: seq<ChartPoint>)
    ensures data.None? || data.value.historicalData.None? ==> r == []
    ensures data.Some? && data.value.historicalData.Some? ==>
              var h := data.value.historicalData.value;
              |r| == |h| &&
              forall i :: 0 <= i < |h| ==> r[i] == ChartPoint(h[i].date, h[i].sellingPrice, h[i].unitsSold)
  {
    if data.None? || data.value.historicalData.None? then []
    else
      var h := data.value.historicalData.value;
      seq(|h|, i requires 0 <= i < |h| => ChartPoint(h[i].date, h[i].sellingPrice, h[i].unitsSold))
  }

  // ---------------------------------------------------------------------------
  // Sorting by units sold

  /** Non-increasing units sold, the order of the comparator `b.units_sold - a.units_sold`. */
  predicate SortedByUnits(s: seq<Product>)
  {
    forall i, j :: 0 <= i < j < |s| ==> s[i].unitsSold >= s[j].unitsSold
  }

  /** The products of `s` that sold exactly `units`, in order. */
  function WithUnits(s: seq<Product>, units: real): (r: seq<Product>)
    ensures |r| <= |s|
  {
    if s == [] then []
    else if s[0].unitsSold == units then [s[0]] + WithUnits(s[1..], units)
    else WithUnits(s[1..], units)
  }

  /** Inserts `x` before the first product that sold fewer, so after every product that sold as many. */
  function Insert(s: seq<Product>, x: Product): (r: seq<Product>)
    ensures |r| == |s| + 1
    ensures multiset(r) == multiset(s) + multiset{x}
  {
    if s == [] then [x]
    else if s[0].unitsSold < x.unitsSold then [x] + s
    else
      assert s == [s[0]] + s[1..];
      [s[0]] + Insert(s[1..], x)
  }

  /** The stable sort `Array.prototype.sort` performs on a copy: each product inserted after those before it. */
  function SortByUnits(s: seq<Product>): (r: seq<Product>)
    ensures |r| == |s|
    ensures multiset(r) == multiset(s)
  {
    if s == [] then []
    else
      assert s == s[..|s| - 1] + [s[|s| - 1]];
      Insert(SortByUnits(s[..|s| - 1]), s[|s| - 1])
  }

  lemma {:induction false} InsertSorted(s: seq<Product>, x: Product)
    requires SortedByUnits(s)
    ensures SortedByUnits(Insert(s, x))
  {
    if s != [] && s[0].unitsSold >= x.unitsSold {
      InsertSorted(s[1..], x);
      var r := Insert(s, x);
      var tail := Insert(s[1..], x);
      assert r == [s[0]] + tail;
      forall j | 0 <= j < |tail| ensures s[0].unitsSold >= tail[j].unitsSold {
        assert tail[j] in multiset(s[1..]) + multiset{x};
        if tail[j] != x {
          assert tail[j] in s[1..];
        }
      }
    }
  }

  lemma {:induction false} InsertWithUnits(s: seq<Product>, x: Product, units: real)
    requires SortedByUnits(s)
    ensures WithUnits(Insert(s, x), units) == WithUnits(s, units) + (if x.unitsSold == units then [x] else [])
  {
    if s == [] {
    } else if s[0].unitsSold < x.unitsSold {
      assert ([x] + s)[1..] == s;
      if x.unitsSold == units {
        NoneWithUnits(s, units);
      }
    } else {
      InsertWithUnits(s[1..], x, units);
      assert Insert(s, x)[1..] == Insert(s[1..], x);
    }
  }

  /** A sorted sequence whose first product sold fewer than `units` holds none that sold `units`. */
  lemma {:induction false} NoneWithUnits(s: seq<Product>, units: real)
    requires SortedByUnits(s)
    requires s != [] ==> s[0].unitsSold < units
    ensures WithUnits(s, units) == []
  {
    if s != [] {
      NoneWithUnits(s[1..], units);
    }
  }

  /**
   * The sorted copy is non-increasing in units sold, holds the same products, and keeps
   * the input order among products that sold the same number (the sort is stable).
   */
  lemma SortByUnitsCorrect(s: seq<Product>)
    ensures SortedByUnits(SortByUnits(s))
    ensures multiset(SortByUnits(s)) == multiset(s)
    ensures forall units :: WithUnits(SortByUnits(s), units) == WithUnits(s, units)
  {
    SortByUnitsSorted(s);
    forall units ensures WithUnits(SortByUnits(s), units) == WithUnits(s, units) {
      SortByUnitsStable(s, units);
    }
  }

  lemma {:induction false} SortByUnitsSorted(s: seq<Product>)
    ensures SortedByUnits(SortByUnits(s))
  {
    if s != [] {
      SortByUnitsSorted(s[..|s| - 1]);
      InsertSorted(SortByUnits(s[..|s| - 1]), s[|s| - 1]);
    }
  }

  lemma {:induction false} SortByUnitsStable(s: seq<Product>, units: real)
    ensures WithUnits(SortByUnits(s), units) == WithUnits(s, units)
  {
    if s != [] {
      var init, x := s[..|s| - 1], s[|s| - 1];
      assert init + [x] == s;
      assert SortByUnits(s) == Insert(SortByUnits(init), x);
      assert WithUnits(Insert(SortByUnits(init), x), units) == WithUnits(init + [x], units) by {
        SortByUnitsStable(init, units);
        InsertStable(init, x, units);
      }
    }
  }

  /** Inserting into the sorted copy keeps the products of each units value in input order. */
  lemma InsertStable(init: seq<Product>, x: Product, units: real)
    requires WithUnits(SortByUnits(init), units) == WithUnits(init, units)
    ensures WithUnits(Insert(SortByUnits(init), x), units) == WithUnits(init + [x], units)
  {
    SortByUnitsSorted(init);
    InsertWithUnits(SortByUnits(init), x, units);
    assert WithUnits([x], units) == if x.unitsSold == units then [x] else [];
    WithUnitsAppend(init, [x], units);
  }

  lemma {:induction false} WithUnitsAppend(a: seq<Product>, b: seq<Product>, units: real)
    ensures WithUnits(a + b, units) == WithUnits(a, units) + WithUnits(b, units)
  {
    if a == [] {
      assert a + b == b;
    } else {
      assert (a + b)[1..] == a[1..] + b;
      WithUnitsAppend(a[1..], b, units);
    }
  }

  /** `topProducts`: the first four of the sorted copy. */
  function TopProducts(products: seq<Product>): (top: seq<Product>)
    ensures |top| == if |products| < 4 then |products| else 4
    ensures multiset(top) <= multiset(products)
  {
    var sorted := SortByUnits(products);
    var top := if |sorted| < 4 then sorted else sorted[..4];
    assert sorted == top + sorted[|top|..];
    top
  }

  /** Every product left out of the top four sold no more than each one in it. */
  lemma TopProductsSoldMost(products: seq<Product>)
    ensures SortedByUnits(TopProducts(products))
    ensures forall t, p :: t in TopProducts(products) && p in SortByUnits(products)[|TopProducts(products)|..] ==>
              p.unitsSold <= t.unitsSold
  {
    var sorted := SortByUnits(products);
    var top := TopProducts(products);
    assert top == sorted[..|top|];
    SortByUnitsSorted(products);
    SortedSplit(sorted, |top|);
  }

  /** Cutting a sorted list leaves a sorted front whose every product sold at least as much as any behind it. */
  lemma SortedSplit(sorted: seq<Product>, k: nat)
    requires SortedByUnits(sorted) && k <= |sorted|
    ensures SortedByUnits(sorted[..k])
    ensures forall t, p :: t in sorted[..k] && p in sorted[k..] ==> p.unitsSold <= t.unitsSold
  {
    forall t, p | t in sorted[..k] && p in sorted[k..] ensures p.unitsSold <= t.unitsSold {
      var i :| 0 <= i < k && sorted[..k][i] == t;
      var j :| 0 <= j < |sorted| - k && sorted[k..][j] == p;
      assert sorted[i] == t && sorted[k + j] == p;
    }
  }

  // ---------------------------------------------------------------------------
  // Comparison rows

  /** A cell of a comparison row: the row's label, or a number of units. */
  datatype Cell = Label(text: string) | Units(amount: real)

  /** The Forecast value: `demand_forecast` when truthy, else `Math.round(units_sold * 1.1)`. */
  function ForecastUnits(p: Product): (v: real)
    ensures p.demandForecast.Some? && p.demandForecast.value != 0.0 ==> v == p.demandForecast.value
    ensures p.demandForecast.None? || p.demandForecast.value == 0.0 ==> v == JsRound(p.unitsSold * 1.1) as real
  {
    if p.demandForecast.Some? && p.demandForecast.value != 0.0 then p.demandForecast.value
    else JsRound(p.unitsSold * 1.1) as real
  }

  /** `reduce((acc, p) => { acc[p.name] = value(p); return acc }, {})`: a later product overwrites an earlier one of the same name. */
  function ByName(top: seq<Product>, forecast: bool): (m: map<string, Cell>)
    ensures m.Keys == set p | p in top :: p.name
  {
    if top == [] then map[]
    else
      var p := top[|top| - 1];
      assert forall q :: q in top <==> q in top[..|top| - 1] || q == p;
      ByName(top[..|top| - 1], forecast)[p.name := Units(if forecast then ForecastUnits(p) else p.unitsSold)]
  }

  /** `{ name: label, ...byName }`: the spread comes second, so a product called "name" replaces the label. */
  function Row(title: string, top: seq<Product>, forecast: bool): (row: map<string, Cell>)
    ensures row.Keys == {"name"} + set p | p in top :: p.name
    ensures (forall p :: p in top ==> p.name != "name") ==> row["name"] == Label(title)
  {
    map["name" := Label(title)] + ByName(top, forecast)
  }

  /** `yearlyComparisonData`: nothing without products, else the "Current Period" row then the "Forecast" row. */
  function YearlyComparisonData(products: Option<seq<Product>>): (rows: seq<map<string, Cell>>)
    ensures products.None? || products.value == [] ==> rows == []
    ensures products.Some? && products.value != [] ==>
              |rows| == 2 &&
              rows[0] == Row("Current Period", TopProducts(products.value), false) &&
              rows[1] == Row("Forecast", TopProducts(products.value), true)
  {
    if products.None? || products.value == [] then []
    else
      var top := TopProducts(products.value);
      [Row("Current Period", top, false), Row("Forecast", top, true)]
  }

  /** A row's entry for a name is the value of the last top product with that name. */
  lemma {:induction false} LastProductWins(top: seq<Product>, forecast: bool, i: nat)
    requires i < |top|
    requires forall j :: i < j < |top| ==> top[j].name != top[i].name
    ensures ByName(top, forecast)[top[i].name] == Units(if forecast then ForecastUnits(top[i]) else top[i].unitsSold)
  {
    if i < |top| - 1 {
      LastProductWins(top[..|top| - 1], forecast, i);
    }
  }

  // ---------------------------------------------------------------------------
  // Curve, revenue and colours

  /** The curve shown when the backend sent none. */
  const FallbackCurve: seq<CurvePoint> := [
    CurvePoint(1.5, 5000.0), CurvePoint(2.0, 4500.0), CurvePoint(2.5, 4000.0),
    CurvePoint(3.0, 3000.0), CurvePoint(3.5, 2000.0), CurvePoint(4.0, 1000.0)]

  /** `priceElasticityCurve`: the backend's curve when present (even an empty one), else the fallback. */
  function PriceElasticityCurve(data: Option<VisualizationData>): (curve: seq<CurvePoint>)
    ensures data.Some? && data.value.demandCurve.Some? ==> curve == data.value.demandCurve.value
    ensures data.None? || data.value.demandCurve.None? ==> curve == FallbackCurve
  {
    if data.None? || data.value.demandCurve.None? then FallbackCurve else data.value.demandCurve.value
  }

  /** Along the fallback curve the price rises and the demand falls. */
  lemma FallbackCurveFalls()
    ensures |FallbackCurve| == 6
    ensures forall i, j :: 0 <= i < j < 6 ==>
              FallbackCurve[i].price < FallbackCurve[j].price && FallbackCurve[i].demand > FallbackCurve[j].demand
  {
  }

  datatype RevenuePoint = RevenuePoint(price: real, demand: real, revenue: int)

  function Revenue(point: CurvePoint): (r: RevenuePoint)
    ensures r.price == point.price && r.demand == point.demand
    ensures r.revenue == JsRound(point.price * point.demand)
  {
    RevenuePoint(point.price, point.demand, JsRound(point.price * point.demand))
  }

  /** One revenue point per curve point, with revenue `Math.round(price * demand)`. */
  function RevenuePoints(curve: seq<CurvePoint>): (r: seq<RevenuePoint>)
    ensures |r| == |curve|
    ensures forall i :: 0 <= i < |curve| ==> r[i] == Revenue(curve[i])
  {
    seq(|curve|, i requires 0 <= i < |curve| => Revenue(curve[i]))
  }

  const Colors: seq<string> := ["#8884d8", "#82ca9d", "#ffc658", "#ff8042", "#0088FE", "#00C49F"]

  /** JavaScript's `%`: the remainder takes the sign of the dividend. */
  function JsRem(a: int, b: int): (r: int)
    requires b > 0
    ensures a >= 0 ==> 0 <= r < b && r == a % b
    ensures a < 0 ==> -b < r <= 0
  {
    if a >= 0 then a % b else -((-a) % b)
  }

  /** `getColorByIndex`: `colors[index % 6]`; a negative index can land before the array, giving undefined. */
  function ColorByIndex(index: int): (c: Option<string>)
    ensures index >= 0 ==> c == Some(Colors[index % 6])
    ensures c.Some? ==> c.value in Colors
  {
    var k := JsRem(index, |Colors|);
    if 0 <= k then Some(Colors[k]) else None
  }

  /** Colours repeat every six series. */
  lemma ColorsCycle(index: nat)
    ensures ColorByIndex(index + 6) == ColorByIndex(index)
    ensures ColorByIndex(index).Some?
  {
  }
}
