/** The comparison dashboard of compare.js: revenue per product and per
    region, the monthly revenue series with its linear forecast, the chart
    that lines the two up, and the three insights. */
module Compare {
  import opened Wrappers
  import opened Sums
  import opened Records
  import opened StringOrder
  import opened Tally
  import Regression

  /** A possibly missing value used as an object key: JavaScript turns
      `undefined` into the key "undefined". */
  function PropertyKey(k: Option<string>): string {
    match k
    case Some(s) => s
    case None => "undefined"
  }

  /** One element of `revenueByProduct`. */
  datatype ProductRevenue = ProductRevenue(
    name: Option<string>,
    revenue: real,
    region: Option<string>,
    monthly: seq<MonthlyEntry>)

  /** What `prepareData` returns; `regionRevenue` lists each region key at
      its first assignment, as a JavaScript object does for keys that are
      not integer-like. */
  datatype Prepared = Prepared(
    revenueByProduct: seq<ProductRevenue>,
    regionRevenue: Table,
    months: seq<string>,
    monthlySeries: seq<real>)

  /** The per-product figure: a missing price or unit count counts as 0. */
  function Summarize(p: Product): ProductRevenue {
    ProductRevenue(p.productName, p.sellingPrice.GetOr(0.0) * p.unitsSold.GetOr(0.0), p.region, EntriesOf(p))
  }

  function RevenueByProduct(ps: seq<Product>): seq<ProductRevenue> {
    seq(|ps|, i requires 0 <= i < |ps| => Summarize(ps[i]))
  }

  function Revenues(rs: seq<ProductRevenue>): seq<real> {
    seq(|rs|, i requires 0 <= i < |rs| => rs[i].revenue)
  }

  function RegionPairs(rs: seq<ProductRevenue>): seq<(string, real)> {
    seq(|rs|, i requires 0 <= i < |rs| => (PropertyKey(rs[i].region), rs[i].revenue))
  }

  /** The key each product's `region` gives, in product order. */
  function RegionKeys(ps: seq<Product>): seq<string> {
    seq(|ps|, i requires 0 <= i < |ps| => PropertyKey(ps[i].region))
  }

  // ---------------------------------------------------------------------
  // Monthly revenue
  // ---------------------------------------------------------------------

  /** An entry whose revenue is a number: stored, or computable from price
      and units (otherwise `m.sellingPrice * m.unitsSold` is NaN). */
  predicate Countable(m: MonthlyEntry) {
    m.revenue.Some? || (m.sellingPrice.Some? && m.unitsSold.Some?)
  }

  predicate AllCountable(ps: seq<Product>) {
    forall p | p in ps :: forall m | m in EntriesOf(p) :: Countable(m)
  }

  /** `m.revenue ?? (m.sellingPrice * m.unitsSold)`. */
  function EntryRevenue(m: MonthlyEntry): real
    requires Countable(m)
  {
    match m.revenue
    case Some(r) => r
    case None => m.sellingPrice.value * m.unitsSold.value
  }

  /** The (month key, revenue) pairs one product adds to `monthMap`. */
  function EntryPairs(ms: seq<MonthlyEntry>): seq<(string, real)>
    requires forall m | m in ms :: Countable(m)
  {
    seq(|ms|, i requires 0 <= i < |ms| => (PropertyKey(ms[i].month), EntryRevenue(ms[i])))
  }

  /** All pairs `monthMap` receives, product after product. */
  function MonthPairs(ps: seq<Product>): seq<(string, real)>
    requires AllCountable(ps)
    decreases |ps|
  {
    if |ps| == 0 then []
    else MonthPairs(ps[..|ps| - 1]) + EntryPairs(EntriesOf(ps[|ps| - 1]))
  }

  /** Reference definitions, stated per product and per entry. */
  function EntriesRevenue(ms: seq<MonthlyEntry>): real
    requires forall m | m in ms :: Countable(m)
    decreases |ms|
  {
    if |ms| == 0 then 0.0
    else EntriesRevenue(ms[..|ms| - 1]) + EntryRevenue(ms[|ms| - 1])
  }

  /** The revenue of all monthly entries of all products. */
  function AllEntriesRevenue(ps: seq<Product>): real
    requires AllCountable(ps)
    decreases |ps|
  {
    if |ps| == 0 then 0.0
    else AllEntriesRevenue(ps[..|ps| - 1]) + EntriesRevenue(EntriesOf(ps[|ps| - 1]))
  }

  function EntriesMonthRevenue(ms: seq<MonthlyEntry>, month: string): real
    requires forall m | m in ms :: Countable(m)
    decreases |ms|
  {
    if |ms| == 0 then 0.0
    else
      var m := ms[|ms| - 1];
      EntriesMonthRevenue(ms[..|ms| - 1], month) + (if PropertyKey(m.month) == month then EntryRevenue(m) else 0.0)
  }

  /** The revenue of the entries, of any product, whose month key is `month`. */
  function MonthRevenue(ps: seq<Product>, month: string): real
    requires AllCountable(ps)
    decreases |ps|
  {
    if |ps| == 0 then 0.0
    else MonthRevenue(ps[..|ps| - 1], month) + EntriesMonthRevenue(EntriesOf(ps[|ps| - 1]), month)
  }

  /** Some entry of some product has month key `month`. */
  predicate MonthOccurs(ps: seq<Product>, month: string) {
    exists p, m :: p in ps && m in EntriesOf(p) && PropertyKey(m.month) == month
  }

  /** The revenue of the products whose region key is `region`. */
  function RegionTotal(ps: seq<Product>, region: string): real
    decreases |ps|
  {
    if |ps| == 0 then 0.0
    else
      var p := ps[|ps| - 1];
      RegionTotal(ps[..|ps| - 1], region) + (if PropertyKey(p.region) == region then Summarize(p).revenue else 0.0)
  }

  /** `prepareData(products)`, compare.js lines 26-57. */
  function PrepareData(ps: seq<Product>): (d: Prepared)
    requires AllCountable(ps)
    ensures |d.revenueByProduct| == |ps|
    ensures forall i :: 0 <= i < |ps| ==> d.revenueByProduct[i] == Summarize(ps[i])
    ensures Distinct(Keys(d.regionRevenue))
    ensures Keys(d.regionRevenue) == FirstOccurrences(RegionKeys(ps))
    ensures StrictlySorted(d.months)
    ensures |d.monthlySeries| == |d.months|
  {
    var rs := RevenueByProduct(ps);
    assert Keys(RegionPairs(rs)) == RegionKeys(ps);
    var monthMap := Build(MonthPairs(ps));
    var months := SortStrings(Keys(monthMap));
    Prepared(rs, Build(RegionPairs(rs)), months, LookupAll(monthMap, months))
  }

  lemma {:induction false} EntryPairsSnoc(ms: seq<MonthlyEntry>)
    requires |ms| > 0 && forall m | m in ms :: Countable(m)
    ensures EntryPairs(ms) == EntryPairs(ms[..|ms| - 1])
                              + [(PropertyKey(ms[|ms| - 1].month), EntryRevenue(ms[|ms| - 1]))]
  {
    assert EntryPairs(ms)[..|ms| - 1] == EntryPairs(ms[..|ms| - 1]);
  }

  lemma {:induction false} EntryPairsMonth(ms: seq<MonthlyEntry>, month: string)
    requires forall m | m in ms :: Countable(m)
    ensures KeySum(EntryPairs(ms), month) == EntriesMonthRevenue(ms, month)
    ensures Sum(Values(EntryPairs(ms))) == EntriesRevenue(ms)
    decreases |ms|
  {
    if |ms| > 0 {
      var init := ms[..|ms| - 1];
      EntryPairsMonth(init, month);
      EntryPairsSnoc(ms);
      KeysSnoc(EntryPairs(init), (PropertyKey(ms[|ms| - 1].month), EntryRevenue(ms[|ms| - 1])));
      SumAppend(Values(EntryPairs(init)), [EntryRevenue(ms[|ms| - 1])]);
      SumCons(EntryRevenue(ms[|ms| - 1]), []);
    }
  }

  /** Each month total of `monthMap` is the revenue of that month's entries,
      and all of them together are the revenue of every entry. */
  lemma {:induction false} MonthPairsTotals(ps: seq<Product>, month: string)
    requires AllCountable(ps)
    ensures KeySum(MonthPairs(ps), month) == MonthRevenue(ps, month)
    ensures Sum(Values(MonthPairs(ps))) == AllEntriesRevenue(ps)
    decreases |ps|
  {
    if |ps| > 0 {
      var init := ps[..|ps| - 1];
      var last := EntriesOf(ps[|ps| - 1]);
      MonthPairsTotals(init, month);
      EntryPairsMonth(last, month);
      KeySumAppend(MonthPairs(init), EntryPairs(last), month);
      KeysAppend(MonthPairs(init), EntryPairs(last));
      SumAppend(Values(MonthPairs(init)), Values(EntryPairs(last)));
    }
  }

  /** The keys of `monthMap` are exactly the month keys of the entries. */
  lemma {:induction false} MonthPairsKeys(ps: seq<Product>, month: string)
    requires AllCountable(ps)
    ensures month in Keys(MonthPairs(ps)) <==> MonthOccurs(ps, month)
    decreases |ps|
  {
    if |ps| > 0 {
      var init := ps[..|ps| - 1];
      var p := ps[|ps| - 1];
      MonthPairsKeys(init, month);
      KeysAppend(MonthPairs(init), EntryPairs(EntriesOf(p)));
      EntryPairsKeys(EntriesOf(p), month);
      OccursSnoc(init, p, month);
      assert ps == init + [p];
    }
  }

  lemma {:induction false} EntryPairsKeys(ms: seq<MonthlyEntry>, month: string)
    requires forall m | m in ms :: Countable(m)
    ensures month in Keys(EntryPairs(ms)) <==> exists m :: m in ms && PropertyKey(m.month) == month
  {
    if month in Keys(EntryPairs(ms)) {
      var i :| 0 <= i < |ms| && Keys(EntryPairs(ms))[i] == month;
      assert ms[i] in ms;
    }
    if exists m :: m in ms && PropertyKey(m.month) == month {
      var m :| m in ms && PropertyKey(m.month) == month;
      var i :| 0 <= i < |ms| && ms[i] == m;
      assert Keys(EntryPairs(ms))[i] == month;
    }
  }

  lemma {:induction false} OccursSnoc(init: seq<Product>, p: Product, month: string)
    ensures MonthOccurs(init + [p], month) <==>
              MonthOccurs(init, month) || exists m :: m in EntriesOf(p) && PropertyKey(m.month) == month
  {
    var ps := init + [p];
    if MonthOccurs(ps, month) {
      var q, m :| q in ps && m in EntriesOf(q) && PropertyKey(m.month) == month;
      if q != p {
        assert q in init;
      }
    }
    if MonthOccurs(init, month) {
      var q, m :| q in init && m in EntriesOf(q) && PropertyKey(m.month) == month;
      assert q in ps;
    }
    if exists m :: m in EntriesOf(p) && PropertyKey(m.month) == month {
      var m :| m in EntriesOf(p) && PropertyKey(m.month) == month;
      assert p in ps;
    }
  }

  /** `months` lists each month key that occurs exactly once, ascending, and
      `monthlySeries[k]` is the revenue of the entries of month `months[k]`. */
  lemma {:induction false} MonthlySeriesContents(ps: seq<Product>)
    requires AllCountable(ps)
    ensures var d := PrepareData(ps);
            (forall y :: y in d.months <==> MonthOccurs(ps, y)) &&
            (forall k :: 0 <= k < |d.months| ==> d.monthlySeries[k] == MonthRevenue(ps, d.months[k]))
  {
    var d := PrepareData(ps);
    forall y
      ensures y in d.months <==> MonthOccurs(ps, y)
    {
      MonthPairsKeys(ps, y);
    }
    forall k | 0 <= k < |d.months|
      ensures d.monthlySeries[k] == MonthRevenue(ps, d.months[k])
    {
      MonthPairsTotals(ps, d.months[k]);
    }
  }

  /** Conservation: the monthly series adds up to the revenue of every
      monthly entry of every product. */
  lemma {:induction false} MonthlySeriesConserves(ps: seq<Product>)
    requires AllCountable(ps)
    ensures Sum(PrepareData(ps).monthlySeries) == AllEntriesRevenue(ps)
  {
    var pairs := MonthPairs(ps);
    var monthMap := Build(pairs);
    var months := SortStrings(Keys(monthMap));
    StrictlySortedIsDistinct(months);
    LookupAllConserves(pairs, months);
    MonthPairsTotals(ps, "");
  }

  /** The sorted month list is the only strictly ascending list of the
      occurring month keys. */
  lemma {:induction false} MonthsAreDetermined(ps: seq<Product>, months: seq<string>)
    requires AllCountable(ps)
    requires StrictlySorted(months)
    requires forall y :: y in months <==> MonthOccurs(ps, y)
    ensures PrepareData(ps).months == months
  {
    MonthlySeriesContents(ps);
    SortedUnique(PrepareData(ps).months, months);
  }

  lemma {:induction false} RegionPairsTotals(ps: seq<Product>, region: string)
    ensures KeySum(RegionPairs(RevenueByProduct(ps)), region) == RegionTotal(ps, region)
    ensures Values(RegionPairs(RevenueByProduct(ps))) == Revenues(RevenueByProduct(ps))
    decreases |ps|
  {
    if |ps| > 0 {
      var init := ps[..|ps| - 1];
      RegionPairsTotals(init, region);
      assert RegionPairs(RevenueByProduct(ps))[..|ps| - 1] == RegionPairs(RevenueByProduct(init));
    }
  }

  /** `regionRevenue` has one key per region key of the products. */
  lemma {:induction false} RegionRevenueKeys(ps: seq<Product>, y: string)
    requires AllCountable(ps)
    ensures y in Keys(PrepareData(ps).regionRevenue) <==> exists p :: p in ps && PropertyKey(p.region) == y
  {
    assert PrepareData(ps).regionRevenue == Build(RegionPairs(RevenueByProduct(ps)));
    RegionPairsKeys(ps, y);
  }

  lemma {:induction false} RegionPairsKeys(ps: seq<Product>, y: string)
    ensures y in Keys(RegionPairs(RevenueByProduct(ps))) <==> exists p :: p in ps && PropertyKey(p.region) == y
  {
    var pairs := RegionPairs(RevenueByProduct(ps));
    if y in Keys(pairs) {
      var i :| 0 <= i < |pairs| && Keys(pairs)[i] == y;
      assert ps[i] in ps;
    }
    if exists p :: p in ps && PropertyKey(p.region) == y {
      var p :| p in ps && PropertyKey(p.region) == y;
      var i :| 0 <= i < |ps| && ps[i] == p;
      assert Keys(pairs)[i] == y;
    }
  }

  /** Each region's total is the revenue of that region's products, and the
      totals add up to the products' revenue. */
  lemma {:induction false} RegionRevenueTotals(ps: seq<Product>, y: string)
    requires AllCountable(ps)
    ensures Lookup(PrepareData(ps).regionRevenue, y) == RegionTotal(ps, y)
    ensures Sum(Values(PrepareData(ps).regionRevenue)) == Sum(Revenues(PrepareData(ps).revenueByProduct))
  {
    var pairs := RegionPairs(RevenueByProduct(ps));
    assert PrepareData(ps).regionRevenue == Build(pairs);
    RegionPairsTotals(ps, y);
  }

  // ---------------------------------------------------------------------
  // The forecast chart, compare.js lines 161-179
  // ---------------------------------------------------------------------

  /** `data.months.concat(["F+1", "F+2", "F+3"])`. */
  function ChartLabels(months: seq<string>): seq<string> {
    months + ["F+1", "F+2", "F+3"]
  }

  /** `Array(n).fill(null).concat(forecast)` for the three-point forecast. */
  function ForecastLine(series: seq<real>): seq<Option<real>> {
    var f := Regression.Forecast(series, 3);
    seq(|series|, _ => None) + seq(3, j requires 0 <= j < 3 => Some(f[j]))
  }

  /** The forecast dataset is blank under every month, and under label
      "F+j" holds the j-th forecast point, which for two or more months is
      the fitted line at the label's own position. */
  lemma {:induction false} ForecastChartAligned(d: Prepared)
    requires |d.monthlySeries| == |d.months|
    ensures |ForecastLine(d.monthlySeries)| == |ChartLabels(d.months)| == |d.months| + 3
    ensures forall i :: 0 <= i < |d.months| ==>
              ForecastLine(d.monthlySeries)[i].None? && ChartLabels(d.months)[i] == d.months[i]
    ensures forall j :: 0 <= j < 3 ==>
              ChartLabels(d.months)[|d.months| + j] == ["F+1", "F+2", "F+3"][j] &&
              ForecastLine(d.monthlySeries)[|d.months| + j] == Some(Regression.Forecast(d.monthlySeries, 3)[j])
    ensures |d.months| >= 2 ==>
              forall i :: |d.months| <= i < |d.months| + 3 ==>
                ForecastLine(d.monthlySeries)[i] == Some(Regression.OlsFit(d.monthlySeries).At(i as real))
  {
  }

  // ---------------------------------------------------------------------
  // Insights, compare.js lines 204-217
  // ---------------------------------------------------------------------

  /** `k` is where a stable sort by descending value finds its first
      element: a maximum with every earlier value strictly smaller. */
  predicate IsFirstMax(vs: seq<real>, k: int) {
    0 <= k < |vs| &&
    (forall j :: 0 <= j < |vs| ==> vs[j] <= vs[k]) &&
    (forall j :: 0 <= j < k ==> vs[j] < vs[k])
  }

  /** At most one position is the first maximum. */
  lemma {:induction false} FirstMaxUnique(vs: seq<real>, k1: int, k2: int)
    requires IsFirstMax(vs, k1) && IsFirstMax(vs, k2)
    ensures k1 == k2
  {
    assert vs[k1] == vs[k2];
  }

  /** The head of `sort((a, b) => b - a)`, found in one pass. */
  method FirstMaxIndex(vs: seq<real>) returns (k: nat)
    requires |vs| > 0
    ensures IsFirstMax(vs, k)
  {
    k := 0;
    var i := 1;
    while i < |vs|
      invariant 1 <= i <= |vs| && k < i
      invariant forall j :: 0 <= j < i ==> vs[j] <= vs[k]
      invariant forall j :: 0 <= j < k ==> vs[j] < vs[k]
    {
      if vs[i] > vs[k] {
        k := i;
      }
      i := i + 1;
    }
  }

  datatype Insights = Insights(
    top: Option<ProductRevenue>,
    total: real,
    bestRegion: Option<string>,
    future: seq<real>)

  /** The three insights: the top product, the total revenue, the best
      region and the next three forecast months. The total is taken in the
      products' original order; the source adds them up after sorting, which
      over exact reals gives the same number. */
  method ShowInsights(d: Prepared) returns (ins: Insights)
    ensures ins.top.None? <==> |d.revenueByProduct| == 0
    ensures ins.top.Some? ==>
              exists k :: IsFirstMax(Revenues(d.revenueByProduct), k) && ins.top.value == d.revenueByProduct[k]
    ensures ins.total == Sum(Revenues(d.revenueByProduct))
    ensures ins.bestRegion.None? <==> |d.regionRevenue| == 0
    ensures ins.bestRegion.Some? ==>
              exists k :: IsFirstMax(Values(d.regionRevenue), k) && ins.bestRegion.value == d.regionRevenue[k].0
    ensures ins.future == Regression.Forecast(d.monthlySeries, 3)
  {
    var top: Option<ProductRevenue> := None;
    if |d.revenueByProduct| > 0 {
      var k := FirstMaxIndex(Revenues(d.revenueByProduct));
      top := Some(d.revenueByProduct[k]);
    }
    var total := TotalRevenue(d.revenueByProduct);
    var best: Option<string> := None;
    if |d.regionRevenue| > 0 {
      var k := FirstMaxIndex(Values(d.regionRevenue));
      best := Some(d.regionRevenue[k].0);
    }
    var future := Regression.RegressionForecast(d.monthlySeries, 3);
    ins := Insights(top, total, best, future);
  }

  /** `reduce((a, b) => a + b.revenue, 0)`. */
  method TotalRevenue(rs: seq<ProductRevenue>) returns (total: real)
    ensures total == Sum(Revenues(rs))
  {
    total := 0.0;
    var i := 0;
    while i < |rs|
      invariant 0 <= i <= |rs|
      invariant total == Sum(Revenues(rs)[..i])
    {
      assert Revenues(rs)[..i + 1] == Revenues(rs)[..i] + [rs[i].revenue];
      SumAppend(Revenues(rs)[..i], [rs[i].revenue]);
      SumCons(rs[i].revenue, []);
      total := total + rs[i].revenue;
      i := i + 1;
    }
    assert Revenues(rs)[..i] == Revenues(rs);
  }
}
