/** Calendar months and their `"YYYY-MM"` keys, as the seed script builds
    them with JavaScript's `Date`: a year and a zero-based month that may
    run past either end of the year and is carried into the year. */
module Calendar {
  import opened Wrappers
  import opened JsText
  import opened StringOrder

  /** A year and a zero-based month (0 is January). */
  datatype YearMonth = YearMonth(year: int, month: int)

  predicate Normal(ym: YearMonth) {
    0 <= ym.month < 12
  }

  /** Months since January of year 0. */
  function Index(ym: YearMonth): int {
    ym.year * 12 + ym.month
  }

  /** The month a month count denotes. */
  function FromIndex(k: int): (ym: YearMonth)
    ensures Normal(ym) && Index(ym) == k
  {
    YearMonth(k / 12, k % 12)
  }

  /** `Index` is one-to-one on normal months. */
  lemma {:induction false} IndexInjective(a: YearMonth, b: YearMonth)
    requires Normal(a) && Normal(b) && Index(a) == Index(b)
    ensures a == b
  {
  }

  /** The calendar month after `ym`: December rolls over into January. */
  function Next(ym: YearMonth): YearMonth {
    if ym.month == 11 then YearMonth(ym.year + 1, 0) else YearMonth(ym.year, ym.month + 1)
  }

  /** Counting one month further is stepping to the next calendar month. */
  lemma {:induction false} FromIndexSucc(k: int)
    ensures FromIndex(k + 1) == Next(FromIndex(k))
  {
    var a, b := FromIndex(k + 1), Next(FromIndex(k));
    assert Normal(b) && Index(b) == k + 1;
    IndexInjective(a, b);
  }

  /** The year `new Date(y, m, 1)` takes: 0 to 99 mean 1900 to 1999. */
  function FullYear(y: int): int {
    if 0 <= y <= 99 then 1900 + y else y
  }

  /** `new Date(y, m, 1)`: the month is carried into the year. */
  function DateMonth(y: int, m: int): (ym: YearMonth)
    ensures Normal(ym) && Index(ym) == FullYear(y) * 12 + m
  {
    FromIndex(FullYear(y) * 12 + m)
  }

  // Decimal digit strings.

  predicate IsDigit(c: char) {
    '0' <= c <= '9'
  }

  predicate AllDigits(s: string) {
    forall i :: 0 <= i < |s| ==> IsDigit(s[i])
  }

  function Digit(d: nat): (c: char)
    requires d < 10
    ensures IsDigit(c) && (c as int) - ('0' as int) == d
  {
    (('0' as int) + d) as char
  }

  /** `String(n)` for a non-negative integer: no leading zeros. */
  function NatToString(n: nat): (s: string)
    ensures |s| >= 1
    decreases n
  {
    if n < 10 then [Digit(n)] else NatToString(n / 10) + [Digit(n % 10)]
  }

  /** `String(n)` for any integer. */
  function IntToString(n: int): string {
    if n < 0 then "-" + NatToString(-n) else NatToString(n)
  }

  /** The number a digit string spells. */
  function DigitsValue(s: string): nat
    requires AllDigits(s)
    decreases |s|
  {
    if |s| == 0 then 0
    else DigitsValue(s[..|s| - 1]) * 10 + ((s[|s| - 1] as int) - ('0' as int))
  }

  /** Reading a number's decimal form gives the number back. */
  lemma {:induction false} NatToStringValue(n: nat)
    ensures AllDigits(NatToString(n)) && DigitsValue(NatToString(n)) == n
    decreases n
  {
    if n >= 10 {
      NatToStringValue(n / 10);
      var s := NatToString(n);
      assert s[..|s| - 1] == NatToString(n / 10);
    }
  }

  /** A number from 1000 to 9999 is written with four digits. */
  lemma {:induction false} FourDigits(n: nat)
    requires 1000 <= n <= 9999
    ensures |NatToString(n)| == 4
  {
    assert |NatToString(n / 1000)| == 1;
    assert |NatToString(n / 100)| == 2 by {
      assert (n / 100) / 10 == n / 1000;
    }
    assert |NatToString(n / 10)| == 3 by {
      assert (n / 10) / 10 == n / 100;
    }
  }

  /** Distinct digit strings of one length spell distinct numbers, and the
      smaller number comes first in string order. */
  lemma {:induction false} DigitsBound(s: string, t: string)
    requires AllDigits(s) && AllDigits(t) && |s| == |t|
    requires s != t
    ensures DigitsValue(s) != DigitsValue(t)
    ensures Less(s, t) <==> DigitsValue(s) < DigitsValue(t)
    decreases |s|
  {
    var n := |s|;
    assert n > 0;
    var s0, t0 := s[..n - 1], t[..n - 1];
    var ds, dt := (s[n - 1] as int) - ('0' as int), (t[n - 1] as int) - ('0' as int);
    assert s == s0 + [s[n - 1]] && t == t0 + [t[n - 1]];
    LessConcat(s0, [s[n - 1]], t0, [t[n - 1]]);
    assert AllDigits(s0) && AllDigits(t0);
    if s0 == t0 {
      assert s[n - 1] != t[n - 1];
      LessIrreflexive(s0);
      assert Less([s[n - 1]], [t[n - 1]]) <==> s[n - 1] < t[n - 1];
    } else {
      DigitsBound(s0, t0);
      if DigitsValue(s0) < DigitsValue(t0) {
        assert DigitsValue(s) < DigitsValue(t);
      } else {
        assert DigitsValue(t) < DigitsValue(s);
      }
    }
  }

  /** For digit strings of one length, string order is numeric order. */
  lemma {:induction false} DigitsOrder(s: string, t: string)
    requires AllDigits(s) && AllDigits(t) && |s| == |t|
    ensures Less(s, t) <==> DigitsValue(s) < DigitsValue(t)
  {
    if s == t {
      LessIrreflexive(s);
    } else {
      DigitsBound(s, t);
    }
  }

  /** The two-digit month number, `01` for January to `12` for December. */
  function MonthDigits(m: int): (s: string)
    requires 0 <= m < 12
    ensures |s| == 2
  {
    [Digit((m + 1) / 10), Digit((m + 1) % 10)]
  }

  /** It is what `String(m + 1).padStart(2, "0")` writes. */
  lemma {:induction false} MonthDigitsPadded(m: int)
    requires 0 <= m < 12
    ensures MonthDigits(m) == PadStart(NatToString(m + 1), 2, '0')
  {
    var d := NatToString(m + 1);
    if m + 1 >= 10 {
      assert d == NatToString((m + 1) / 10) + [Digit((m + 1) % 10)];
      assert NatToString((m + 1) / 10) == [Digit((m + 1) / 10)];
    } else {
      assert d == [Digit(m + 1)];
      assert PadStart(d, 2, '0') == ['0'] + d;
    }
  }

  /** The month number reads back from its two digits. */
  lemma {:induction false} MonthDigitsValue(m: int)
    requires 0 <= m < 12
    ensures AllDigits(MonthDigits(m)) && DigitsValue(MonthDigits(m)) == m + 1
  {
    var s := MonthDigits(m);
    var hi := [Digit((m + 1) / 10)];
    assert s[..1] == hi && hi[..0] == [];
    assert DigitsValue(hi) == (m + 1) / 10;
    assert DigitsValue(s) == (m + 1) / 10 * 10 + (m + 1) % 10;
  }

  /** The key the seed script writes for a month. */
  function MonthKey(ym: YearMonth): string
    requires Normal(ym)
  {
    IntToString(ym.year) + "-" + MonthDigits(ym.month)
  }

  /** A month key of a year from 1000 to 9999. */
  predicate FourDigitYear(ym: YearMonth) {
    Normal(ym) && 1000 <= ym.year <= 9999
  }

  /** Reads a `"YYYY-MM"` key back; None for anything else. */
  function ParseMonthKey(s: string): Option<YearMonth> {
    if |s| == 7 && s[4] == '-' && AllDigits(s[..4]) && AllDigits(s[5..]) && 1 <= DigitsValue(s[5..]) <= 12 then
      Some(YearMonth(DigitsValue(s[..4]), DigitsValue(s[5..]) - 1))
    else None
  }

  /** The key of a four-digit year is `YYYY-MM`, and reading it gives the
      month back. */
  lemma {:induction false} MonthKeyParses(ym: YearMonth)
    requires FourDigitYear(ym)
    ensures |MonthKey(ym)| == 7 && MonthKey(ym)[4] == '-'
    ensures ParseMonthKey(MonthKey(ym)) == Some(ym)
  {
    FourDigits(ym.year);
    NatToStringValue(ym.year);
    MonthDigitsValue(ym.month);
    var y, mm := NatToString(ym.year), MonthDigits(ym.month);
    var k := MonthKey(ym);
    assert k == y + "-" + mm;
    assert k[..4] == y;
    assert k[5..] == mm;
  }

  /** Keys of four-digit years sort as the months do: string order is
      chronological order. */
  lemma {:induction false} MonthKeyOrder(a: YearMonth, b: YearMonth)
    requires FourDigitYear(a) && FourDigitYear(b)
    ensures Less(MonthKey(a), MonthKey(b)) <==> Index(a) < Index(b)
  {
    FourDigits(a.year);
    FourDigits(b.year);
    NatToStringValue(a.year);
    NatToStringValue(b.year);
    MonthDigitsValue(a.month);
    MonthDigitsValue(b.month);
    var ya, yb := NatToString(a.year), NatToString(b.year);
    var ma, mb := MonthDigits(a.month), MonthDigits(b.month);
    assert MonthKey(a) == ya + ("-" + ma);
    assert MonthKey(b) == yb + ("-" + mb);
    LessConcat(ya, "-" + ma, yb, "-" + mb);
    LessConcat("-", ma, "-", mb);
    LessIrreflexive("-");
    DigitsOrder(ya, yb);
    DigitsOrder(ma, mb);
    if ya == yb {
      assert a.year == b.year;
    } else {
      assert a.year != b.year;
    }
  }
}
