/** The two Mongoose product models (backend/models/Product.js and
    backend/models/ProductData.js): their required fields and the pre-save
    hooks that derive each monthly entry's revenue and profit.

    Mongoose runs schema validation as the first pre-save step, so the hooks
    only ever see entries whose cost, selling price and units are present;
    that is their precondition here. */
module ProductModels {
  import opened Wrappers
  import opened Records

  /** `required: true` on a String path: present and not the empty string. */
  predicate RequiredString(s: Option<string>) {
    s.Some? && |s.value| > 0
  }

  /** The monthly entry schema, the same in both model files. */
  predicate MonthlyValid(m: MonthlyEntry) {
    && RequiredString(m.month)
    && m.costPrice.Some? && m.sellingPrice.Some? && m.unitsSold.Some?
  }

  /** The product schema of Product.js: a name and an owner. */
  predicate ProductValid(p: Product) {
    && RequiredString(p.productName)
    && p.ownerId.Some?
    && forall m <- EntriesOf(p) :: MonthlyValid(m)
  }

  /** The stricter product schema of ProductData.js. */
  predicate ProductDataValid(p: Product) {
    && RequiredString(p.productName)
    && p.costPrice.Some? && p.sellingPrice.Some? && p.unitsSold.Some?
    && RequiredString(p.region)
    && p.ownerId.Some?
    && forall m <- EntriesOf(p) :: MonthlyValid(m)
  }

  /** Every document the stricter schema accepts, the looser one accepts too. */
  lemma {:induction false} StricterSchemaImpliesLooser(p: Product)
    requires ProductDataValid(p)
    ensures ProductValid(p)
  {
  }

  /** The looser schema lets through documents the stricter one refuses. */
  lemma {:induction false} LooserSchemaIsStrictlyLooser()
    ensures var p := Product(Some("Desk"), None, None, None, None, Some("owner"), None);
            ProductValid(p) && !ProductDataValid(p)
  {
  }

  /** An entry's derived fields agree with its inputs: revenue is price times
      units and profit is the margin times units. */
  predicate Consistent(m: MonthlyEntry)
    requires Priced(m)
  {
    && m.revenue.Some? && m.revenue.value == m.sellingPrice.value * m.unitsSold.value
    && m.profit.Some?
    && m.profit.value == (m.sellingPrice.value - m.costPrice.value) * m.unitsSold.value
  }

  /** Two entries carry the same month, cost, selling price and units. */
  predicate SameInputs(a: MonthlyEntry, b: MonthlyEntry) {
    a.month == b.month && a.costPrice == b.costPrice
    && a.sellingPrice == b.sellingPrice && a.unitsSold == b.unitsSold
  }

  /** `{ ...m, revenue: ..., profit: ... }` for one entry. */
  function Derive(m: MonthlyEntry): (d: MonthlyEntry)
    requires Priced(m)
    ensures SameInputs(d, m) && Priced(d) && Consistent(d)
    ensures d.profit.value == d.revenue.value - m.costPrice.value * m.unitsSold.value
    ensures Consistent(m) ==> d == m
  {
    var rev := m.sellingPrice.value * m.unitsSold.value;
    var prof := (m.sellingPrice.value - m.costPrice.value) * m.unitsSold.value;
    assert Consistent(m) ==> m.revenue == Some(rev) && m.profit == Some(prof) by {
      if Consistent(m) {
        assert m.revenue.value == rev && m.profit.value == prof;
        assert m.revenue == Some(rev) && m.profit == Some(prof);
      }
    }
    MonthlyEntry(m.month, m.costPrice, m.sellingPrice, m.unitsSold, Some(rev), Some(prof))
  }

  /** `monthlySales.map(...)`, one derived entry per input entry, in order. */
  function DeriveAll(ms: seq<MonthlyEntry>): (r: seq<MonthlyEntry>)
    requires forall m <- ms :: Priced(m)
    ensures |r| == |ms|
    ensures forall i :: 0 <= i < |ms| ==> SameInputs(r[i], ms[i]) && Priced(r[i]) && Consistent(r[i])
  {
    seq(|ms|, i requires 0 <= i < |ms| => Derive(ms[i]))
  }

  /** The pre-save hook of Product.js: any present `monthlySales` array, even
      an empty one, is replaced by its derived entries; nothing else changes. */
  function ProductPreSave(p: Product): (q: Product)
    requires forall m <- EntriesOf(p) :: Priced(m)
    ensures q.(monthlySales := p.monthlySales) == p
    ensures q.monthlySales.Some? <==> p.monthlySales.Some?
    ensures |EntriesOf(q)| == |EntriesOf(p)|
    ensures forall i :: 0 <= i < |EntriesOf(p)| ==>
              SameInputs(EntriesOf(q)[i], EntriesOf(p)[i]) && Priced(EntriesOf(q)[i])
              && Consistent(EntriesOf(q)[i])
  {
    if p.monthlySales.Some? then p.(monthlySales := Some(DeriveAll(p.monthlySales.value))) else p
  }

  /** The pre-save hook of ProductData.js: the same derivation, guarded so
      that a missing or empty array is left untouched. */
  function ProductDataPreSave(p: Product): (q: Product)
    requires forall m <- EntriesOf(p) :: Priced(m)
    ensures |EntriesOf(p)| == 0 ==> q == p
    ensures q.(monthlySales := p.monthlySales) == p
    ensures |EntriesOf(q)| == |EntriesOf(p)|
    ensures forall i :: 0 <= i < |EntriesOf(p)| ==>
              SameInputs(EntriesOf(q)[i], EntriesOf(p)[i]) && Priced(EntriesOf(q)[i])
              && Consistent(EntriesOf(q)[i])
  {
    if p.monthlySales.Some? && |p.monthlySales.value| > 0 then
      p.(monthlySales := Some(DeriveAll(p.monthlySales.value)))
    else p
  }

  /** The emptiness guard of ProductData.js changes nothing observable: both
      hooks save the same document. */
  lemma {:induction false} HooksAgree(p: Product)
    requires forall m <- EntriesOf(p) :: Priced(m)
    ensures ProductDataPreSave(p) == ProductPreSave(p)
  {
    if p.monthlySales.Some? && |p.monthlySales.value| == 0 {
      assert DeriveAll(p.monthlySales.value) == p.monthlySales.value;
    }
  }

  /** Saving twice stores the same entries as saving once. */
  lemma {:induction false} PreSaveIdempotent(p: Product)
    requires forall m <- EntriesOf(p) :: Priced(m)
    ensures forall m <- EntriesOf(ProductPreSave(p)) :: Priced(m)
    ensures ProductPreSave(ProductPreSave(p)) == ProductPreSave(p)
  {
    var q := ProductPreSave(p);
    if q.monthlySales.Some? {
      var ms := q.monthlySales.value;
      assert DeriveAll(ms) == ms by {
        forall i | 0 <= i < |ms|
          ensures DeriveAll(ms)[i] == ms[i]
        {
          assert Consistent(ms[i]);
        }
      }
    }
  }

  /** The same for the hook of ProductData.js. */
  lemma {:induction false} DataPreSaveIdempotent(p: Product)
    requires forall m <- EntriesOf(p) :: Priced(m)
    ensures forall m <- EntriesOf(ProductDataPreSave(p)) :: Priced(m)
    ensures ProductDataPreSave(ProductDataPreSave(p)) == ProductDataPreSave(p)
  {
    HooksAgree(p);
    PreSaveIdempotent(p);
    HooksAgree(ProductPreSave(p));
  }

  /** A document valid before the hook is still valid after it, under either
      schema. */
  lemma {:induction false} PreSaveKeepsValidity(p: Product)
    requires ProductValid(p)
    ensures forall m <- EntriesOf(p) :: Priced(m)
    ensures ProductValid(ProductPreSave(p))
    ensures ProductDataValid(p) ==> ProductDataValid(ProductPreSave(p))
  {
    var q := ProductPreSave(p);
    forall m | m in EntriesOf(q)
      ensures MonthlyValid(m)
    {
      var i :| 0 <= i < |EntriesOf(q)| && EntriesOf(q)[i] == m;
      assert MonthlyValid(EntriesOf(p)[i]);
    }
  }
}
