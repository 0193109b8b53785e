/** The two parsing helpers of the product form (intake.js):
    `parseNumberList`, which turns "10, 20, 30" into [10, 20, 30], and
    `pctToDecimal`, which reads 62 and 0.62 alike as 0.62.

    JavaScript's `Number(string)` grammar is not modelled: it is the
    parameter `parseNum`, consulted only on a trimmed, non-blank string. */
module Intake {
  import opened Wrappers
  import opened JsText

  /** `Number(s)` for a string: surrounding whitespace is ignored, a blank
      string is 0, and anything else is whatever the grammar makes of it
      (None for NaN). */
  function ToNumber(s: string, parseNum: string -> Option<real>): Option<real> {
    var t := Trim(s);
    if |t| == 0 then Some(0.0) else parseNum(t)
  }

  /** `.map(s => Number(s.trim()))`: the value of each piece, None for NaN.
      `Number` trims on its own, so the explicit `trim` changes nothing. */
  function PieceValues(pieces: seq<string>, parseNum: string -> Option<real>): (vs: seq<Option<real>>)
    ensures |vs| == |pieces|
  {
    seq(|pieces|, i requires 0 <= i < |pieces| => ToNumber(pieces[i], parseNum))
  }

  /** `.filter(n => !isNaN(n))`: the present values, in order. */
  function Present(vs: seq<Option<real>>): (r: seq<real>)
    ensures |r| <= |vs|
    decreases |vs|
  {
    if |vs| == 0 then []
    else
      var init := Present(vs[..|vs| - 1]);
      match vs[|vs| - 1]
      case None => init
      case Some(x) => init + [x]
  }

  /** The numbers among `pieces`, in order. */
  function Numbers(pieces: seq<string>, parseNum: string -> Option<real>): seq<real> {
    Present(PieceValues(pieces, parseNum))
  }

  lemma {:induction false} PresentAppend(a: seq<Option<real>>, b: seq<Option<real>>)
    ensures Present(a + b) == Present(a) + Present(b)
    decreases |b|
  {
    if |b| == 0 {
      assert a + b == a;
    } else {
      assert (a + b)[..|a + b| - 1] == a + b[..|b| - 1];
      PresentAppend(a, b[..|b| - 1]);
    }
  }

  /** Exactly the present values survive the filter. */
  lemma {:induction false} PresentMembers(vs: seq<Option<real>>, x: real)
    ensures x in Present(vs) <==> Some(x) in vs
    decreases |vs|
  {
    if |vs| > 0 {
      var init := vs[..|vs| - 1];
      PresentMembers(init, x);
      assert vs == init + [vs[|vs| - 1]];
    }
  }

  /** With nothing absent, the filter keeps every value in place. */
  lemma {:induction false} PresentOfPresent(vs: seq<Option<real>>)
    requires forall i :: 0 <= i < |vs| ==> vs[i].Some?
    ensures |Present(vs)| == |vs|
    ensures forall i :: 0 <= i < |vs| ==> Some(Present(vs)[i]) == vs[i]
    decreases |vs|
  {
    if |vs| > 0 {
      var init := vs[..|vs| - 1];
      PresentOfPresent(init);
      forall i | 0 <= i < |vs|
        ensures Some(Present(vs)[i]) == vs[i]
      {
        if i < |vs| - 1 {
          assert init[i] == vs[i];
        }
      }
    }
  }

  /** The numbers of concatenated pieces are the numbers of each part, in
      order: nothing is reordered. */
  lemma {:induction false} NumbersAppend(a: seq<string>, b: seq<string>, parseNum: string -> Option<real>)
    ensures Numbers(a + b, parseNum) == Numbers(a, parseNum) + Numbers(b, parseNum)
  {
    var va, vb := PieceValues(a, parseNum), PieceValues(b, parseNum);
    assert PieceValues(a + b, parseNum) == va + vb by {
      forall i | 0 <= i < |a| + |b|
        ensures PieceValues(a + b, parseNum)[i] == (va + vb)[i]
      {
        if i < |a| {
          assert (a + b)[i] == a[i];
        } else {
          assert (a + b)[i] == b[i - |a|];
        }
      }
    }
    PresentAppend(va, vb);
  }

  /** A value is in the list exactly when some piece reads as it: only the
      pieces that are not numbers are dropped. */
  lemma {:induction false} NumbersMembers(pieces: seq<string>, parseNum: string -> Option<real>, x: real)
    ensures x in Numbers(pieces, parseNum) <==>
              exists i :: 0 <= i < |pieces| && ToNumber(pieces[i], parseNum) == Some(x)
  {
    var vs := PieceValues(pieces, parseNum);
    PresentMembers(vs, x);
    if Some(x) in vs {
      var i :| 0 <= i < |vs| && vs[i] == Some(x);
      assert ToNumber(pieces[i], parseNum) == Some(x);
    }
    if exists i :: 0 <= i < |pieces| && ToNumber(pieces[i], parseNum) == Some(x) {
      var i :| 0 <= i < |pieces| && ToNumber(pieces[i], parseNum) == Some(x);
      assert vs[i] == Some(x);
    }
  }

  /** `a.slice(0, end)` for an integer `end`: a prefix of `a`. A
      non-negative end keeps `end` items, or all of them when there are
      fewer; a negative end drops the last `-end` items, or all of them. */
  function SliceTo<T>(a: seq<T>, end: int): (r: seq<T>)
    ensures |r| <= |a| && forall i :: 0 <= i < |r| ==> r[i] == a[i]
    ensures end >= 0 ==> |r| == end || (|r| == |a| && |a| < end)
    ensures end < 0 ==> |a| - |r| == -end || (|r| == 0 && |a| < -end)
  {
    var k := if end < 0 then (if |a| + end < 0 then 0 else |a| + end) else (if end < |a| then end else |a|);
    a[..k]
  }

  /** `parseNumberList(input, expectedLength)`, intake.js lines 10-27.
      `input` is None for `undefined`/`null`, and `expectedLength` None when
      it is not given. */
  function ParseNumberList(input: Option<string>, expectedLength: Option<int>, parseNum: string -> Option<real>): (r: seq<real>)
    ensures input == None || input == Some("") ==> r == []
    ensures input.Some? ==> |r| <= Count(input.value, ',') + 1
    ensures input.Some? && input != Some("") ==>
              var all := Numbers(Split(input.value, ','), parseNum);
              var e := expectedLength.GetOr(0);
              && (e == 0 ==> r == all)
              && |r| <= |all| && r == all[..|r|]
              && (e > 0 ==> |r| == (if e < |all| then e else |all|))
              && (e < 0 ==> |r| == (if |all| + e > 0 then |all| + e else 0))
  {
    if input.None? || input.value == "" then []
    else
      SplitPieces(input.value, ',');
      var parts := Numbers(Split(input.value, ','), parseNum);
      var e := expectedLength.GetOr(0);
      if e != 0 && |parts| != e then SliceTo(parts, e) else parts
  }

  /** A list written out as separator-free pieces is read back in full: the
      parse undoes the comma join, as long as every piece is a number and
      no truncation applies. */
  lemma {:induction false} ParseJoinedList(pieces: seq<string>, xs: seq<real>, parseNum: string -> Option<real>)
    requires |pieces| == |xs| >= 1
    requires forall i :: 0 <= i < |pieces| ==> ',' !in pieces[i]
    requires forall i :: 0 <= i < |pieces| ==> ToNumber(pieces[i], parseNum) == Some(xs[i])
    requires Join(pieces, ',') != ""
    ensures ParseNumberList(Some(Join(pieces, ',')), None, parseNum) == xs
    ensures ParseNumberList(Some(Join(pieces, ',')), Some(|xs|), parseNum) == xs
  {
    var text := Join(pieces, ',');
    SplitJoin(pieces, ',');
    NumbersOfNumerals(pieces, xs, parseNum);
    assert Numbers(Split(text, ','), parseNum) == xs;
    var bounded := ParseNumberList(Some(text), Some(|xs|), parseNum);
    assert |bounded| == |xs| && bounded == xs[..|bounded|];
  }

  /** Pieces that all read as numbers give exactly those numbers. */
  lemma {:induction false} NumbersOfNumerals(pieces: seq<string>, xs: seq<real>, parseNum: string -> Option<real>)
    requires |pieces| == |xs|
    requires forall i :: 0 <= i < |pieces| ==> ToNumber(pieces[i], parseNum) == Some(xs[i])
    ensures Numbers(pieces, parseNum) == xs
  {
    var vs := PieceValues(pieces, parseNum);
    PresentOfPresent(vs);
    var r := Numbers(pieces, parseNum);
    forall i | 0 <= i < |xs|
      ensures r[i] == xs[i]
    {
      assert Some(r[i]) == vs[i] == Some(xs[i]);
    }
  }

  /** A value `pctToDecimal` may receive from a form field or a record. */
  datatype JsValue = Undefined | Null | Str(s: string) | Num(n: real)

  /** A percentage above 1 is divided by 100; anything else is taken to be
      a fraction already. */
  function Scale(n: real): real {
    if n > 1.0 then n / 100.0 else n
  }

  /** `pctToDecimal(num)`, intake.js lines 34-46; None is `null`. */
  function PctToDecimal(v: JsValue, parseNum: string -> Option<real>): (r: Option<real>)
    ensures r.None? <==> v == Undefined || v == Null || v == Str("")
                         || (v.Str? && ToNumber(v.s, parseNum).None?)
    ensures v.Num? && v.n > 1.0 ==> r.Some? && r.value * 100.0 == v.n
    ensures v.Num? && v.n <= 1.0 ==> r == Some(v.n)
  {
    if v == Str("") || v == Null || v == Undefined then None
    else
      var n := if v.Num? then Some(v.n) else ToNumber(v.s, parseNum);
      match n
      case None => None
      case Some(x) => Some(Scale(x))
  }

  /** A non-empty string reads as the number it spells. */
  lemma {:induction false} PctToDecimalOfText(s: string, n: real, parseNum: string -> Option<real>)
    requires s != "" && ToNumber(s, parseNum) == Some(n)
    ensures PctToDecimal(Str(s), parseNum) == PctToDecimal(Num(n), parseNum)
  {
  }

  /** Feeding the result back in changes nothing exactly when the input is
      at most 100: a value above 100 is divided a second time. */
  lemma {:induction false} PctToDecimalTwice(n: real, parseNum: string -> Option<real>)
    ensures var once := PctToDecimal(Num(n), parseNum);
            once.Some? &&
            (PctToDecimal(Num(once.value), parseNum) == once <==> n <= 100.0)
  {
    if n > 100.0 {
      assert n / 100.0 > 1.0;
      assert n / 100.0 / 100.0 != n / 100.0;
    } else if n > 1.0 {
      assert n / 100.0 <= 1.0;
    }
  }

  /** The two readings of the same share agree, a percentage lands in
      (0.01, 1], and a blank string counts as zero rather than null. */
  lemma {:induction false} PctToDecimalExamples(parseNum: string -> Option<real>)
    ensures PctToDecimal(Num(62.0), parseNum) == Some(0.62)
    ensures PctToDecimal(Num(0.62), parseNum) == Some(0.62)
    ensures PctToDecimal(Str("  "), parseNum) == Some(0.0)
  {
    assert !HasVisible("  ") by {
      assert forall i :: 0 <= i < |"  "| ==> "  "[i] == ' ';
    }
  }

  /** A percentage strictly above 1 and at most 100 becomes a fraction in
      (0.01, 1]. */
  lemma {:induction false} PercentRange(n: real, parseNum: string -> Option<real>)
    requires 1.0 < n <= 100.0
    ensures var r := PctToDecimal(Num(n), parseNum).value; 0.01 < r <= 1.0
  {
  }
}
