/** The generators of the seed script (backend/seed.js): the list of month
    keys ending at the current month, the seasonal sales multiplier, and
    the random monthly sales of one product. The clock is the `nowYear` and
    `nowMonth` parameters, and each `Math.random()` draw is a parameter in
    [0, 1). How the generated products are stored decides what the
    analysis page charts for them; the database itself is not modelled. */
module Seed {
  import opened Wrappers
  import opened Records
  import opened StringOrder
  import opened ProductModels
  import opened Calendar
  import opened Analysis

  /** `r` holds the keys of consecutive months, the last one being month
      number `last`. */
  predicate MonthRun(r: seq<string>, last: int) {
    forall k :: 0 <= k < |r| ==> r[k] == MonthKey(FromIndex(last - (|r| - 1 - k)))
  }

  /** `generateMonthList(totalMonths)`, backend/seed.js lines 56-66, with
      the clock reading year `nowYear` and zero-based month `nowMonth`: the
      key of `new Date(nowYear, nowMonth - i, 1)` for `i` counting down from
      `totalMonths - 1` to 0. */
  method GenerateMonthList(totalMonths: int, nowYear: int, nowMonth: int) returns (months: seq<string>)
    ensures |months| == if totalMonths > 0 then totalMonths else 0
    ensures MonthRun(months, FullYear(nowYear) * 12 + nowMonth)
  {
    var now := FullYear(nowYear) * 12 + nowMonth;
    months := [];
    var i := totalMonths - 1;
    while i >= 0
      invariant i < totalMonths
      invariant |months| == totalMonths - 1 - i
      invariant i >= -1 || |months| == 0
      invariant forall k :: 0 <= k < |months| ==> months[k] == MonthKey(FromIndex(now - (totalMonths - 1 - k)))
    {
      var d := DateMonth(nowYear, nowMonth - i);
      assert d == FromIndex(now - i);
      ghost var before := months;
      months := months + [MonthKey(d)];
      forall k | 0 <= k < |months|
        ensures months[k] == MonthKey(FromIndex(now - (totalMonths - 1 - k)))
      {
        if k < |before| {
          assert months[k] == before[k];
        } else {
          assert k == totalMonths - 1 - i;
        }
      }
      i := i - 1;
    }
  }

  /** The last key is the current month. */
  lemma {:induction false} MonthRunEndsNow(r: seq<string>, nowYear: int, nowMonth: int)
    requires 0 <= nowMonth < 12
    requires MonthRun(r, FullYear(nowYear) * 12 + nowMonth) && |r| > 0
    ensures r[|r| - 1] == MonthKey(YearMonth(FullYear(nowYear), nowMonth))
  {
    IndexInjective(FromIndex(FullYear(nowYear) * 12 + nowMonth), YearMonth(FullYear(nowYear), nowMonth));
  }

  /** Each key after the first is the key of the calendar month following
      the one before it. */
  lemma {:induction false} MonthRunConsecutive(r: seq<string>, last: int, k: int)
    requires MonthRun(r, last) && 0 <= k < |r| - 1
    ensures r[k + 1] == MonthKey(Next(FromIndex(last - (|r| - 1 - k))))
  {
    FromIndexSucc(last - (|r| - 1 - k));
    assert last - (|r| - 1 - (k + 1)) == last - (|r| - 1 - k) + 1;
  }

  /** While every year of the run has four digits, each key reads back as
      its month, and the keys are strictly ascending in string order, so
      sorting them (as the comparison page does) keeps them in place. */
  lemma {:induction false} MonthRunSorted(r: seq<string>, last: int)
    requires MonthRun(r, last)
    requires 12000 <= last - (|r| - 1) && last < 120000
    ensures forall k :: 0 <= k < |r| ==> ParseMonthKey(r[k]) == Some(FromIndex(last - (|r| - 1 - k)))
    ensures StrictlySorted(r)
  {
    forall k | 0 <= k < |r|
      ensures ParseMonthKey(r[k]) == Some(FromIndex(last - (|r| - 1 - k)))
    {
      MonthKeyParses(FromIndex(last - (|r| - 1 - k)));
    }
    forall i, j | 0 <= i < j < |r|
      ensures Less(r[i], r[j])
    {
      MonthKeyOrder(FromIndex(last - (|r| - 1 - i)), FromIndex(last - (|r| - 1 - j)));
    }
  }

  /** `a % b` in JavaScript for a positive divisor: the remainder takes the
      sign of `a`. */
  function JsRem(a: int, b: int): (r: int)
    requires b > 0
    ensures a >= 0 ==> r == a % b
    ensures a < 0 ==> -b < r <= 0
    ensures (a - r) % b == 0
  {
    if a >= 0 then
      var q := a / b;
      assert a == b * q + a % b;
      MultipleRem(b, q, a - a % b);
      a % b
    else
      var q := (-a) / b;
      assert -a == b * q + (-a) % b;
      assert b * -q == -(b * q);
      MultipleRem(b, -q, a + (-a) % b);
      -((-a) % b)
  }

  /** A multiple of `b` leaves no remainder. */
  lemma MultipleRem(b: int, q: int, x: int)
    requires b > 0 && x == b * q
    ensures x % b == 0
  {
    var d := q - x / b;
    assert x == b * (x / b) + x % b;
    assert b * d == x % b by {
      assert b * d == b * q - b * (x / b);
    }
  }

  /** `getSeasonalMultiplier(monthIndex)`, backend/seed.js lines 69-79. The
      final `return 1` cannot be reached by an integer: every remainder is
      at most 1 or at least 2. */
  function SeasonalMultiplier(monthIndex: int): (r: real)
    ensures r == 0.85 || r == 1.0 || r == 1.35 || r == 1.5
    ensures monthIndex < 0 ==> r == 0.85
  {
    var month := JsRem(monthIndex, 12);
    if month <= 1 then 0.85
    else if month >= 2 && month <= 4 then 1.0
    else if month >= 5 && month <= 7 then 1.35
    else if month >= 8 && month <= 9 then 1.0
    else if month >= 10 then 1.5
    else assert false; 1.0
  }

  /** For a non-negative index the multiplier depends only on the month of
      the year: January and February are low, June to August peak, and
      November and December spike. */
  lemma {:induction false} SeasonalTable(i: int)
    requires i >= 0
    ensures SeasonalMultiplier(i) == SeasonalMultiplier(i % 12)
    ensures SeasonalMultiplier(i + 12) == SeasonalMultiplier(i)
    ensures i % 12 <= 1 ==> SeasonalMultiplier(i) == 0.85
    ensures 2 <= i % 12 <= 4 || 8 <= i % 12 <= 9 ==> SeasonalMultiplier(i) == 1.0
    ensures 5 <= i % 12 <= 7 ==> SeasonalMultiplier(i) == 1.35
    ensures 10 <= i % 12 ==> SeasonalMultiplier(i) == 1.5
  {
    assert (i + 12) % 12 == i % 12;
    assert (i % 12) % 12 == i % 12;
  }

  /** The three `Math.random()` draws of one month, in call order. */
  datatype Draw = Draw(units: real, cost: real, margin: real)

  predicate InUnit(x: real) {
    0.0 <= x < 1.0
  }

  predicate ValidDraw(d: Draw) {
    InUnit(d.units) && InUnit(d.cost) && InUnit(d.margin)
  }

  /** `Math.round(x)`: the nearest integer, halves rounded up. */
  function Round(x: real): (n: int)
    ensures x - 0.5 < n as real <= x + 0.5
  {
    (x + 0.5).Floor
  }

  /** `Math.floor(u * 60 + 40)`. */
  function BaseUnits(u: real): (n: int)
    requires InUnit(u)
    ensures 40 <= n <= 99
  {
    (u * 60.0 + 40.0).Floor
  }

  /** The numbers every generated entry keeps to: whole-number prices, a
      cost from 50 to 89, a margin from 50 to 99 on top of it, and 34 to 149
      units. */
  predicate SeedBounds(e: MonthlyEntry) {
    && Priced(e)
    && e.costPrice.value == e.costPrice.value.Floor as real
    && e.sellingPrice.value == e.sellingPrice.value.Floor as real
    && e.unitsSold.value == e.unitsSold.value.Floor as real
    && 50.0 <= e.costPrice.value <= 89.0
    && 50.0 <= e.sellingPrice.value - e.costPrice.value <= 99.0
    && 34.0 <= e.unitsSold.value <= 149.0
  }

  /** The `units * season` rounding stays within bounds whatever the
      season. */
  lemma {:induction false} SeasonedUnits(base: int, season: real)
    requires 40 <= base <= 99
    requires season == 0.85 || season == 1.0 || season == 1.35 || season == 1.5
    ensures 34 <= Round(base as real * season) <= 149
  {
    var x := base as real * season;
    assert 34.0 <= x <= 148.5;
  }

  /** The units of `e` are the base units of draw `d` scaled by the
      multiplier of month `i`, rounded to the nearest whole unit. */
  predicate Seasoned(e: MonthlyEntry, d: Draw, i: int)
    requires ValidDraw(d) && e.unitsSold.Some?
  {
    var x := BaseUnits(d.units) as real * SeasonalMultiplier(i);
    x - 0.5 < e.unitsSold.value <= x + 0.5
  }

  /** The entry pushed for month `m` at position `i`. */
  function SeedEntry(m: string, i: int, d: Draw): (e: MonthlyEntry)
    requires ValidDraw(d)
    ensures e.month == Some(m) && e.revenue.None? && e.profit.None?
    ensures SeedBounds(e) && Seasoned(e, d, i)
  {
    var season := SeasonalMultiplier(i);
    var baseUnits := BaseUnits(d.units);
    var unitsSold := Round(baseUnits as real * season);
    SeasonedUnits(baseUnits, season);
    var cost := (d.cost * 40.0 + 50.0).Floor;
    var selling := cost + (d.margin * 50.0 + 50.0).Floor;
    MonthlyEntry(Some(m), Some(cost as real), Some(selling as real), Some(unitsSold as real), None, None)
  }

  /** `generateMonthlySales(months)`, backend/seed.js lines 82-104: one entry
      per month, in order, priced and within the seed bounds; `draws[i]`
      holds the three draws made for `months[i]`. */
  method GenerateMonthlySales(months: seq<string>, draws: seq<Draw>) returns (out: seq<MonthlyEntry>)
    requires |draws| == |months|
    requires forall i :: 0 <= i < |draws| ==> ValidDraw(draws[i])
    ensures |out| == |months|
    ensures forall i :: 0 <= i < |out| ==>
              && out[i].month == Some(months[i])
              && out[i].revenue.None? && out[i].profit.None?
              && SeedBounds(out[i])
              && (MonthlyValid(out[i]) <==> months[i] != "")
              && Seasoned(out[i], draws[i], i)
  {
    out := [];
    var i := 0;
    while i < |months|
      invariant 0 <= i <= |months| && |out| == i
      invariant forall k :: 0 <= k < i ==> out[k] == SeedEntry(months[k], k, draws[k])
    {
      out := out + [SeedEntry(months[i], i, draws[i])];
      i := i + 1;
    }
  }

  /** If a seeded entry passes through the pre-save hook, it sells above
      cost: a profit of at least 50 on each of at least 34 units, and less
      than the revenue, since every unit costs at least 50. */
  lemma {:induction false} SeededEntryProfitable(e: MonthlyEntry)
    requires SeedBounds(e)
    ensures Derive(e).profit.value >= 1700.0
    ensures Derive(e).revenue.value > e.costPrice.value * e.unitsSold.value
    ensures Derive(e).profit.value < Derive(e).revenue.value
  {
    var cost, price, units := e.costPrice.value, e.sellingPrice.value, e.unitsSold.value;
    var d := Derive(e);
    assert d.profit.value == price * units - cost * units;
    assert price * units - cost * units == (price - cost) * units;
    ProductBound(price - cost, units);
    ProductBound(cost, units);
  }

  /** A product of factors of at least 50 and 34 is at least 1700. */
  lemma {:induction false} ProductBound(x: real, y: real)
    requires x >= 50.0 && y >= 34.0
    ensures x * y >= 1700.0
  {
    assert x * y - 1700.0 == (x - 50.0) * y + 50.0 * (y - 34.0);
    NonNegativeProduct(x - 50.0, y);
  }

  lemma {:induction false} NonNegativeProduct(x: real, y: real)
    requires x >= 0.0 && y >= 0.0
    ensures x * y >= 0.0
  {
  }

  /** The month the seed script's comments mean by a multiplier: the
      calendar month of the entry's key. */
  function CalendarMonth(key: string): int
    requires ParseMonthKey(key).Some?
  {
    ParseMonthKey(key).value.month
  }

  /** As written, the multiplier follows the entry's position in the list,
      not its calendar month: for a two-year list ending in October 2026 the
      first entry is November 2024, yet it gets the January/February
      multiplier 0.85 instead of the November/December 1.5. */
  lemma {:induction false} SeasonFollowsPosition(r: seq<string>)
    requires MonthRun(r, 2026 * 12 + 9) && |r| == 24
    ensures ParseMonthKey(r[0]) == Some(YearMonth(2024, 10))
    ensures SeasonalMultiplier(0) == 0.85 && SeasonalMultiplier(CalendarMonth(r[0])) == 1.5
  {
    MonthRunSorted(r, 2026 * 12 + 9);
    assert FromIndex(2026 * 12 + 9 - 23) == YearMonth(2024, 10);
  }

  /** `generateMonthlySales` with the multiplier taken from each key's
      calendar month, as the comments of `getSeasonalMultiplier` intend. */
  method GenerateCalendarSales(months: seq<string>, draws: seq<Draw>) returns (out: seq<MonthlyEntry>)
    requires |draws| == |months|
    requires forall i :: 0 <= i < |draws| ==> ValidDraw(draws[i])
    requires forall i :: 0 <= i < |months| ==> ParseMonthKey(months[i]).Some?
    ensures |out| == |months|
    ensures forall i :: 0 <= i < |out| ==>
              && out[i].month == Some(months[i])
              && out[i].revenue.None? && out[i].profit.None?
              && SeedBounds(out[i])
              && Seasoned(out[i], draws[i], CalendarMonth(months[i]))
  {
    out := [];
    var i := 0;
    while i < |months|
      invariant 0 <= i <= |months| && |out| == i
      invariant forall k :: 0 <= k < i ==> out[k] == SeedEntry(months[k], CalendarMonth(months[k]), draws[k])
    {
      out := out + [SeedEntry(months[i], CalendarMonth(months[i]), draws[i])];
      i := i + 1;
    }
  }

  /** The month list feeds the (calendar-seasoned) sales generator: with
      four-digit years the entries come out one per month, oldest first,
      each scaled by the multiplier of its own calendar month, and their
      keys are in the order the comparison page sorts them into. */
  method SeedProductMonths(totalMonths: int, nowYear: int, nowMonth: int, draws: seq<Draw>) returns (out: seq<MonthlyEntry>)
    requires |draws| == if totalMonths > 0 then totalMonths else 0
    requires forall i :: 0 <= i < |draws| ==> ValidDraw(draws[i])
    requires 12000 <= FullYear(nowYear) * 12 + nowMonth - (|draws| - 1)
    requires FullYear(nowYear) * 12 + nowMonth < 120000
    ensures |out| == |draws|
    ensures forall i :: 0 <= i < |out| ==>
              && MonthlyValid(out[i]) && SeedBounds(out[i])
              && out[i].revenue.None? && out[i].profit.None?
              && Seasoned(out[i], draws[i], FromIndex(FullYear(nowYear) * 12 + nowMonth - (|out| - 1 - i)).month)
    ensures forall i, j :: 0 <= i < j < |out| ==>
              out[i].month.Some? && out[j].month.Some? && Less(out[i].month.value, out[j].month.value)
  {
    var months := GenerateMonthList(totalMonths, nowYear, nowMonth);
    MonthRunSorted(months, FullYear(nowYear) * 12 + nowMonth);
    forall k | 0 <= k < |months|
      ensures months[k] != ""
    {
      MonthKeyParses(FromIndex(FullYear(nowYear) * 12 + nowMonth - (|months| - 1 - k)));
    }
    out := GenerateCalendarSales(months, draws);
  }

  /** `Product.insertMany(products)`, backend/seed.js line 146, applied to
      `generateMonthList` and `generateMonthlySales` as written, and the
      analysis page's columns for the stored product. `insertMany` does not
      run `pre("save")` middleware, so the entries are stored as generated:
      the page charts no revenue and no profit for any seeded month. */
  method InsertSeededProduct(totalMonths: int, nowYear: int, nowMonth: int, draws: seq<Draw>) returns (chart: ChartData)
    requires |draws| == if totalMonths > 0 then totalMonths else 0
    requires forall i :: 0 <= i < |draws| ==> ValidDraw(draws[i])
    ensures |chart.months| == |chart.revenue| == |chart.profit| == |draws|
    ensures forall i :: 0 <= i < |draws| ==> chart.revenue[i].None? && chart.profit[i].None?
  {
    var months := GenerateMonthList(totalMonths, nowYear, nowMonth);
    var generated := GenerateMonthlySales(months, draws);
    chart := PrepareChartData(generated);
  }

  /** The seeded product saved through the pre-save hook (as `save` or
      `Product.create` do): every seeded month is charted with its revenue
      and a profit of at least 1700 that stays below the revenue. */
  method SaveSeededProduct(totalMonths: int, nowYear: int, nowMonth: int, draws: seq<Draw>) returns (chart: ChartData)
    requires |draws| == if totalMonths > 0 then totalMonths else 0
    requires forall i :: 0 <= i < |draws| ==> ValidDraw(draws[i])
    requires 12000 <= FullYear(nowYear) * 12 + nowMonth - (|draws| - 1)
    requires FullYear(nowYear) * 12 + nowMonth < 120000
    ensures |chart.months| == |chart.revenue| == |chart.profit| == |draws|
    ensures forall i :: 0 <= i < |draws| ==>
              && chart.revenue[i].Some? && chart.profit[i].Some?
              && 1700.0 <= chart.profit[i].value < chart.revenue[i].value
  {
    var generated := SeedProductMonths(totalMonths, nowYear, nowMonth, draws);
    var stored := DeriveAll(generated);
    forall i | 0 <= i < |generated|
      ensures stored[i].revenue.Some? && stored[i].profit.Some?
      ensures 1700.0 <= stored[i].profit.value < stored[i].revenue.value
    {
      assert stored[i] == Derive(generated[i]);
      SeededEntryProfitable(generated[i]);
    }
    chart := PrepareChartData(stored);
  }
}
