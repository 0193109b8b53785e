/** The product analysis page (analysis.js): the four parallel columns the
    charts plot, and the guard that decides whether any chart is drawn.
    Fetching the product and drawing the charts are not part of this
    model; the fetched product is a parameter. */
module Analysis {
  import opened Wrappers
  import opened Records
  import opened ProductModels

  /** `{ months, sales, revenue, profit }`: one column per chart series. */
  datatype ChartData = ChartData(
    months: seq<Option<string>>,
    sales: seq<Option<real>>,
    revenue: seq<Option<real>>,
    profit: seq<Option<real>>)

  /** `prepareData(product)`, analysis.js lines 167-183, on the product's
      `monthlySales`: four `map`s over the same array. */
  function PrepareChartData(ms: seq<MonthlyEntry>): (d: ChartData)
    ensures |d.months| == |d.sales| == |d.revenue| == |d.profit| == |ms|
    ensures forall i :: 0 <= i < |ms| ==>
              && d.months[i] == ms[i].month
              && d.sales[i] == ms[i].unitsSold
              && d.revenue[i] == ms[i].revenue
              && d.profit[i] == ms[i].profit
  {
    ChartData(
      seq(|ms|, i requires 0 <= i < |ms| => ms[i].month),
      seq(|ms|, i requires 0 <= i < |ms| => ms[i].unitsSold),
      seq(|ms|, i requires 0 <= i < |ms| => ms[i].revenue),
      seq(|ms|, i requires 0 <= i < |ms| => ms[i].profit))
  }

  /** Column-wise concatenation of two charts. */
  function Concat(a: ChartData, b: ChartData): ChartData {
    ChartData(a.months + b.months, a.sales + b.sales, a.revenue + b.revenue, a.profit + b.profit)
  }

  /** The columns keep the order of the entries: the chart of two runs of
      months is the chart of the first run followed by that of the second,
      with nothing sorted, merged or dropped. */
  lemma {:induction false} ChartDataAppend(a: seq<MonthlyEntry>, b: seq<MonthlyEntry>)
    ensures PrepareChartData(a + b) == Concat(PrepareChartData(a), PrepareChartData(b))
  {
    var d, da, db := PrepareChartData(a + b), PrepareChartData(a), PrepareChartData(b);
    var c := Concat(da, db);
    forall i | 0 <= i < |a| + |b|
      ensures d.months[i] == c.months[i] && d.sales[i] == c.sales[i]
      ensures d.revenue[i] == c.revenue[i] && d.profit[i] == c.profit[i]
    {
      if i < |a| {
        assert (a + b)[i] == a[i];
      } else {
        assert (a + b)[i] == b[i - |a|];
      }
    }
  }

  /** For a product as the pre-save hook stored it, every revenue bar is the
      selling price times the units on the sales chart, and every profit
      point is that revenue less the cost of those units. */
  lemma {:induction false} ChartOfSavedProduct(p: Product, i: int)
    requires forall m <- EntriesOf(p) :: Priced(m)
    requires 0 <= i < |EntriesOf(p)|
    ensures var d := PrepareChartData(EntriesOf(ProductPreSave(p)));
            var m := EntriesOf(p)[i];
            && d.months[i] == m.month
            && d.sales[i] == m.unitsSold
            && d.revenue[i] == Some(m.sellingPrice.value * m.unitsSold.value)
            && d.profit[i] == Some(d.revenue[i].value - m.costPrice.value * m.unitsSold.value)
  {
    var m := EntriesOf(p)[i];
    var s := EntriesOf(ProductPreSave(p))[i];
    assert SameInputs(s, m) && Consistent(s);
  }

  /** What the page ends up showing. */
  datatype Page = NoMonthlyData | Charts(data: ChartData)

  /** The main routine of analysis.js, lines 279-291: without a product, or
      with a missing or empty `monthlySales`, the page reports that there is
      no data; otherwise it charts the product's entries. `product` is None
      when `loadProduct` found nothing. */
  function AnalysisPage(product: Option<Product>): (page: Page)
    ensures page.Charts? <==> product.Some? && product.value.monthlySales.Some?
                              && |product.value.monthlySales.value| > 0
    ensures page.Charts? ==> |page.data.months| == |EntriesOf(product.value)| > 0
  {
    if product.None? || product.value.monthlySales.None? || |product.value.monthlySales.value| == 0 then
      NoMonthlyData
    else
      Charts(PrepareChartData(product.value.monthlySales.value))
  }
}
