/** The stored documents, as the front end and the Mongoose hooks see them.
    Every field of a plain JavaScript object may be missing, so each one is
    optional; the schemas say which ones a stored document must carry. */
module Records {
  import opened Wrappers

  /** One element of a product's `monthlySales` array. `month` is a
      `"YYYY-MM"` key; `revenue` and `profit` are derived on save. */
  datatype MonthlyEntry = MonthlyEntry(
    month: Option<string>,
    costPrice: Option<real>,
    sellingPrice: Option<real>,
    unitsSold: Option<real>,
    revenue: Option<real>,
    profit: Option<real>)

  /** A product document. `ownerId` stands for the owner's object id. */
  datatype Product = Product(
    productName: Option<string>,
    costPrice: Option<real>,
    sellingPrice: Option<real>,
    unitsSold: Option<real>,
    region: Option<string>,
    ownerId: Option<string>,
    monthlySales: Option<seq<MonthlyEntry>>)

  /** An entry whose cost, selling price and units are all present, so its
      revenue and profit can be computed. */
  predicate Priced(m: MonthlyEntry) {
    m.costPrice.Some? && m.sellingPrice.Some? && m.unitsSold.Some?
  }

  /** The monthly entries of a product, none when the array is missing. */
  function EntriesOf(p: Product): seq<MonthlyEntry> {
    p.monthlySales.GetOr([])
  }
}
