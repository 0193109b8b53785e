/** A plain JavaScript object used as a running total per key
    (`obj[k] = (obj[k] || 0) + v`): string keys in insertion order, each with
    the sum of the values added under it. */
module Tally {
  import opened Sums
  import opened StringOrder

  /** Key/value pairs; as a table the keys are distinct and in insertion order. */
  type Table = seq<(string, real)>

  function Keys(t: Table): (ks: seq<string>)
    ensures |ks| == |t|
  {
    seq(|t|, i requires 0 <= i < |t| => t[i].0)
  }

  function Values(t: Table): (vs: seq<real>)
    ensures |vs| == |t|
  {
    seq(|t|, i requires 0 <= i < |t| => t[i].1)
  }

  /** `t[k] || 0`: the total under `k`, or 0 when `k` is not a key. */
  function Lookup(t: Table, k: string): real
    decreases |t|
  {
    if |t| == 0 then 0.0 else if t[0].0 == k then t[0].1 else Lookup(t[1..], k)
  }

  /** `t[k] = (t[k] || 0) + v`: an existing key keeps its place, a new key goes last. */
  function Add(t: Table, k: string, v: real): (r: Table)
    requires Distinct(Keys(t))
    ensures Distinct(Keys(r))
    ensures Keys(r) == if k in Keys(t) then Keys(t) else Keys(t) + [k]
    decreases |t|
  {
    if |t| == 0 then [(k, v)]
    else if t[0].0 == k then
      var r := [(k, t[0].1 + v)] + t[1..];
      assert Keys(r) == Keys(t) && Keys(t)[0] == k;
      r
    else
      assert Keys(t[1..]) == Keys(t)[1..];
      var rest := Add(t[1..], k, v);
      var r := [t[0]] + rest;
      assert Keys(r) == [t[0].0] + Keys(rest);
      assert Keys(t) == [t[0].0] + Keys(t[1..]);
      r
  }

  /** Adding under `k` raises the total under `k` by `v` and no other total. */
  lemma {:induction false} AddLookup(t: Table, k: string, v: real, y: string)
    requires Distinct(Keys(t))
    ensures Lookup(Add(t, k, v), y) == Lookup(t, y) + (if y == k then v else 0.0)
    decreases |t|
  {
    if |t| > 0 && t[0].0 != k {
      assert Keys(t[1..]) == Keys(t)[1..];
      AddLookup(t[1..], k, v, y);
    }
  }

  /** Adding `v` under any key raises the sum of all totals by `v`. */
  lemma {:induction false} AddSum(t: Table, k: string, v: real)
    requires Distinct(Keys(t))
    ensures Sum(Values(Add(t, k, v))) == Sum(Values(t)) + v
    decreases |t|
  {
    if |t| == 0 {
      SumOfCons((k, v), []);
    } else if t[0].0 == k {
      AddSumAtHead(t, k, v);
    } else {
      assert Keys(t[1..]) == Keys(t)[1..];
      AddSum(t[1..], k, v);
      AddSumPastHead(t, k, v);
    }
  }

  lemma {:induction false} AddSumAtHead(t: Table, k: string, v: real)
    requires Distinct(Keys(t)) && |t| > 0 && t[0].0 == k
    ensures Sum(Values(Add(t, k, v))) == Sum(Values(t)) + v
  {
    assert t == [t[0]] + t[1..];
    assert Add(t, k, v) == [(k, t[0].1 + v)] + t[1..];
    SumOfCons(t[0], t[1..]);
    SumOfCons((k, t[0].1 + v), t[1..]);
  }

  lemma {:induction false} AddSumPastHead(t: Table, k: string, v: real)
    requires Distinct(Keys(t)) && |t| > 0 && t[0].0 != k
    requires Distinct(Keys(t[1..]))
    requires Sum(Values(Add(t[1..], k, v))) == Sum(Values(t[1..])) + v
    ensures Sum(Values(Add(t, k, v))) == Sum(Values(t)) + v
  {
    assert t == [t[0]] + t[1..];
    assert Add(t, k, v) == [t[0]] + Add(t[1..], k, v);
    SumOfCons(t[0], t[1..]);
    SumOfCons(t[0], Add(t[1..], k, v));
  }

  /** The values of a table with a first pair added sum to that pair's value
      plus the rest. */
  lemma {:induction false} SumOfCons(p: (string, real), t: Table)
    ensures Sum(Values([p] + t)) == p.1 + Sum(Values(t))
  {
    assert Values([p] + t) == [p.1] + Values(t);
    SumCons(p.1, Values(t));
  }

  /** Sum of the values of the pairs whose key is `k`. */
  function KeySum(pairs: seq<(string, real)>, k: string): real
    decreases |pairs|
  {
    if |pairs| == 0 then 0.0
    else KeySum(pairs[..|pairs| - 1], k)
         + (if pairs[|pairs| - 1].0 == k then pairs[|pairs| - 1].1 else 0.0)
  }

  /** Keys and values of concatenated pairs are the concatenated keys and values. */
  lemma {:induction false} KeysAppend(a: seq<(string, real)>, b: seq<(string, real)>)
    ensures Keys(a + b) == Keys(a) + Keys(b)
    ensures Values(a + b) == Values(a) + Values(b)
  {
  }

  /** The per-key sum splits over concatenation. */
  lemma {:induction false} KeySumAppend(a: seq<(string, real)>, b: seq<(string, real)>, k: string)
    ensures KeySum(a + b, k) == KeySum(a, k) + KeySum(b, k)
    decreases |b|
  {
    if |b| == 0 {
      assert a + b == a;
    } else {
      assert (a + b)[..|a + b| - 1] == a + b[..|b| - 1];
      KeySumAppend(a, b[..|b| - 1], k);
    }
  }

  lemma {:induction false} KeysSnoc(t: Table, p: (string, real))
    ensures Keys(t + [p]) == Keys(t) + [p.0]
    ensures Values(t + [p]) == Values(t) + [p.1]
  {
  }

  /** The keys in the order they first occur, each kept once: the order in
      which `Object.keys` lists the non-integer keys of an object they were
      assigned to. */
  function FirstOccurrences(ks: seq<string>): (r: seq<string>)
    ensures Distinct(r)
    ensures forall y :: y in r <==> y in ks
    decreases |ks|
  {
    if |ks| == 0 then []
    else
      var init := ks[..|ks| - 1];
      var k := ks[|ks| - 1];
      assert ks == init + [k];
      if k in init then FirstOccurrences(init) else FirstOccurrences(init) + [k]
  }

  /** Folds the pairs, in order, into a table. Its keys are those of the
      pairs, each once, in the order of their first occurrence; each key
      holds the sum of its pairs' values; and the table's values add up to
      the pairs' values. */
  function Build(pairs: seq<(string, real)>): (t: Table)
    ensures Distinct(Keys(t))
    ensures forall y :: y in Keys(t) <==> y in Keys(pairs)
    ensures Keys(t) == FirstOccurrences(Keys(pairs))
    ensures forall y :: Lookup(t, y) == KeySum(pairs, y)
    ensures Sum(Values(t)) == Sum(Values(pairs))
    decreases |pairs|
  {
    if |pairs| == 0 then []
    else
      var init := pairs[..|pairs| - 1];
      var last := pairs[|pairs| - 1];
      assert pairs == init + [last];
      KeysSnoc(init, last);
      assert Keys(pairs)[..|pairs| - 1] == Keys(init);
      var t := Build(init);
      AddSum(t, last.0, last.1);
      forall y
        ensures Lookup(Add(t, last.0, last.1), y) == KeySum(pairs, y)
      {
        AddLookup(t, last.0, last.1, y);
      }
      Add(t, last.0, last.1)
  }

  /** Sum, over the keys `ks`, of the per-key sums of `pairs`. */
  function SumOverKeys(pairs: seq<(string, real)>, ks: seq<string>): real
    decreases |ks|
  {
    if |ks| == 0 then 0.0
    else SumOverKeys(pairs, ks[..|ks| - 1]) + KeySum(pairs, ks[|ks| - 1])
  }

  lemma {:induction false} SumOverKeysSnoc(pre: seq<(string, real)>, p: (string, real), ks: seq<string>)
    requires Distinct(ks)
    ensures SumOverKeys(pre + [p], ks) == SumOverKeys(pre, ks) + (if p.0 in ks then p.1 else 0.0)
    decreases |ks|
  {
    if |ks| > 0 {
      var init := ks[..|ks| - 1];
      assert (pre + [p])[..|pre + [p]| - 1] == pre;
      SumOverKeysSnoc(pre, p, init);
      assert ks == init + [ks[|ks| - 1]];
    }
  }

  /** Conservation: summing the per-key sums over any duplicate-free list of
      keys that covers every key gives the total of all the pairs. */
  lemma {:induction false} KeySumsTotal(pairs: seq<(string, real)>, ks: seq<string>)
    requires Distinct(ks)
    requires forall y :: y in Keys(pairs) ==> y in ks
    ensures SumOverKeys(pairs, ks) == Sum(Values(pairs))
    decreases |pairs|
  {
    if |pairs| == 0 {
      KeySumsOfNothing(ks);
    } else {
      var init := pairs[..|pairs| - 1];
      var last := pairs[|pairs| - 1];
      assert pairs == init + [last];
      KeysSnoc(init, last);
      assert last.0 in Keys(pairs);
      KeySumsTotal(init, ks);
      SumOverKeysSnoc(init, last, ks);
    }
  }

  lemma {:induction false} KeySumsOfNothing(ks: seq<string>)
    ensures SumOverKeys([], ks) == 0.0
    decreases |ks|
  {
    if |ks| > 0 {
      KeySumsOfNothing(ks[..|ks| - 1]);
    }
  }

  /** `ks.map(k => t[k])`. */
  function LookupAll(t: Table, ks: seq<string>): (vs: seq<real>)
    ensures |vs| == |ks|
    ensures forall i :: 0 <= i < |ks| ==> vs[i] == Lookup(t, ks[i])
  {
    seq(|ks|, i requires 0 <= i < |ks| => Lookup(t, ks[i]))
  }

  /** Reading a built table along any duplicate-free cover of its keys loses
      nothing: the values read add up to the total of the pairs. */
  lemma {:induction false} LookupAllConserves(pairs: seq<(string, real)>, ks: seq<string>)
    requires Distinct(ks)
    requires forall y :: y in Keys(pairs) ==> y in ks
    ensures Sum(LookupAll(Build(pairs), ks)) == Sum(Values(pairs))
  {
    LookupAllIsSumOverKeys(pairs, ks);
    KeySumsTotal(pairs, ks);
  }

  lemma {:induction false} LookupAllIsSumOverKeys(pairs: seq<(string, real)>, ks: seq<string>)
    ensures Sum(LookupAll(Build(pairs), ks)) == SumOverKeys(pairs, ks)
    decreases |ks|
  {
    if |ks| > 0 {
      var init := ks[..|ks| - 1];
      LookupAllIsSumOverKeys(pairs, init);
      assert LookupAll(Build(pairs), ks)[..|ks| - 1] == LookupAll(Build(pairs), init);
    }
  }
}
