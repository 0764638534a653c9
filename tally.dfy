/**
  Counting by key, as Python does it with a dict that is filled in a loop: the keys in the order they
  first appear, how often each key occurs and the sum of the weights attached to it. Every
  dict-accumulating loop of the pipeline is proved against these functions.
 */
module Tally {

  predicate NoDuplicates<K(==,!new)>(ks: seq<K>)
  {
    forall i, j :: 0 <= i < j < |ks| ==> ks[i] != ks[j]
  }

  /** The distinct elements of `xs` in order of first appearance (the key order of a Python dict). */
  function Distinct<K(==,!new)>(xs: seq<K>): (ks: seq<K>)
    ensures NoDuplicates(ks)
    ensures forall k :: k in ks <==> k in xs
  {
    if |xs| == 0 then []
    else
      var init, last := xs[..|xs| - 1], xs[|xs| - 1];
      assert xs == init + [last];
      var d := Distinct(init);
      if last in d then d else d + [last]
  }

  /** Appending a key already seen leaves the order alone; appending a new key puts it last. */
  lemma DistinctAppend<K(!new)>(xs: seq<K>, x: K)
    ensures Distinct(xs + [x]) == if x in xs then Distinct(xs) else Distinct(xs) + [x]
  {
    assert (xs + [x])[..|xs|] == xs;
  }

  /** How many times `k` occurs in `xs`. */
  function Occurrences<K(==,!new)>(xs: seq<K>, k: K): nat
  {
    if |xs| == 0 then 0
    else Occurrences(xs[..|xs| - 1], k) + (if xs[|xs| - 1] == k then 1 else 0)
  }

  lemma {:induction false} OccurrencesPositive<K(!new)>(xs: seq<K>, k: K)
    ensures Occurrences(xs, k) > 0 <==> k in xs
  {
    if |xs| > 0 {
      var init := xs[..|xs| - 1];
      OccurrencesPositive(init, k);
      assert xs == init + [xs[|xs| - 1]];
    }
  }

  lemma {:induction false} OccurrencesAppend<K(!new)>(xs: seq<K>, ys: seq<K>, k: K)
    ensures Occurrences(xs + ys, k) == Occurrences(xs, k) + Occurrences(ys, k)
  {
    if |ys| > 0 {
      var ys', y := ys[..|ys| - 1], ys[|ys| - 1];
      assert (xs + ys)[..|xs + ys| - 1] == xs + ys';
      OccurrencesAppend(xs, ys', k);
    } else {
      assert xs + ys == xs;
    }
  }

  /** A key of a duplicate-free sequence occurs in it exactly once. */
  lemma {:induction false} OccurrencesNoDuplicates<K(!new)>(ks: seq<K>, k: K)
    requires NoDuplicates(ks)
    ensures Occurrences(ks, k) == if k in ks then 1 else 0
  {
    if |ks| > 0 {
      var init, last := ks[..|ks| - 1], ks[|ks| - 1];
      assert ks == init + [last];
      OccurrencesNoDuplicates(init, k);
      OccurrencesPositive(init, k);
    }
  }

  /** The elements of all chunks, in reading order. */
  function Flatten<K>(chunks: seq<seq<K>>): seq<K>
  {
    if |chunks| == 0 then [] else Flatten(chunks[..|chunks| - 1]) + chunks[|chunks| - 1]
  }

  /** The sum over the keys `ks` of how often each occurs in `xs`. */
  function CountsSum<K(==,!new)>(ks: seq<K>, xs: seq<K>): nat
  {
    if |ks| == 0 then 0 else CountsSum(ks[..|ks| - 1], xs) + Occurrences(xs, ks[|ks| - 1])
  }

  lemma {:induction false} CountsSumStep<K(!new)>(ks: seq<K>, xs: seq<K>, x: K)
    ensures CountsSum(ks, xs + [x]) == CountsSum(ks, xs) + Occurrences(ks, x)
  {
    if |ks| > 0 {
      CountsSumStep(ks[..|ks| - 1], xs, x);
      assert (xs + [x])[..|xs|] == xs;
    }
  }

  lemma {:induction false} CountsSumAppendKey<K(!new)>(ks: seq<K>, k: K, xs: seq<K>)
    ensures CountsSum(ks + [k], xs) == CountsSum(ks, xs) + Occurrences(xs, k)
  {
    assert (ks + [k])[..|ks|] == ks;
  }

  /** The counts of the distinct keys add up to the number of elements. */
  lemma {:induction false} CountsSumDistinct<K(!new)>(xs: seq<K>)
    ensures CountsSum(Distinct(xs), xs) == |xs|
  {
    if |xs| > 0 {
      var init, last := xs[..|xs| - 1], xs[|xs| - 1];
      assert xs == init + [last];
      var d := Distinct(init);
      CountsSumDistinct(init);
      CountsSumStep(d, init, last);
      OccurrencesNoDuplicates(d, last);
      if last !in d {
        CountsSumAppendKey(d, last, xs);
        OccurrencesPositive(init, last);
        assert Occurrences(xs, last) == Occurrences(init, last) + 1;
      }
    }
  }

  /** The sum of the weights `ws[i]` over the positions `i` where `xs[i] == k`. */
  function WeightOf<K(==,!new)>(xs: seq<K>, ws: seq<int>, k: K): int
    requires |ws| == |xs|
  {
    if |xs| == 0 then 0
    else WeightOf(xs[..|xs| - 1], ws[..|ws| - 1], k) + (if xs[|xs| - 1] == k then ws[|ws| - 1] else 0)
  }

  /** Non-negative weights give a non-negative total, and a total of 0 for a key that does not occur. */
  lemma {:induction false} WeightOfNonNegative<K(!new)>(xs: seq<K>, ws: seq<int>, k: K)
    requires |ws| == |xs|
    requires forall i :: 0 <= i < |ws| ==> ws[i] >= 0
    ensures WeightOf(xs, ws, k) >= 0
    ensures k !in xs ==> WeightOf(xs, ws, k) == 0
  {
    if |xs| > 0 {
      WeightOfNonNegative(xs[..|xs| - 1], ws[..|ws| - 1], k);
      assert k !in xs ==> k !in xs[..|xs| - 1];
    }
  }

  /** Counting one more element. */
  lemma OccurrencesSnoc<K(!new)>(xs: seq<K>, x: K, k: K)
    ensures Occurrences(xs + [x], k) == Occurrences(xs, k) + (if x == k then 1 else 0)
  {
    assert (xs + [x])[..|xs|] == xs;
  }

  /** Weighing one more element. */
  lemma WeightOfSnoc<K(!new)>(xs: seq<K>, ws: seq<int>, x: K, w: int, k: K)
    requires |ws| == |xs|
    ensures WeightOf(xs + [x], ws + [w], k) == WeightOf(xs, ws, k) + (if x == k then w else 0)
  {
    assert (xs + [x])[..|xs|] == xs;
    assert (ws + [w])[..|ws|] == ws;
  }

  /** With non-negative weights, a key's total is at least the weight of each of its positions. */
  lemma {:induction false} WeightOfAtLeast<K(!new)>(xs: seq<K>, ws: seq<int>, i: nat)
    requires |ws| == |xs| && i < |xs|
    requires forall j :: 0 <= j < |ws| ==> ws[j] >= 0
    ensures WeightOf(xs, ws, xs[i]) >= ws[i]
  {
    var n := |xs| - 1;
    WeightOfNonNegative(xs[..n], ws[..n], xs[i]);
    if i < n {
      WeightOfAtLeast(xs[..n], ws[..n], i);
    }
  }

  /** All-zero weights give every key a total of 0. */
  lemma {:induction false} WeightOfZero<K(!new)>(xs: seq<K>, ws: seq<int>, k: K)
    requires |ws| == |xs|
    requires forall j :: 0 <= j < |ws| ==> ws[j] == 0
    ensures WeightOf(xs, ws, k) == 0
  {
    if |xs| > 0 {
      WeightOfZero(xs[..|xs| - 1], ws[..|ws| - 1], k);
    }
  }

  /** A dictionary `totals` and its key order `keys` hold, for the keys seen in `xs`, the weights summed
      by key. */
  ghost predicate Weighed<K(!new)>(keys: seq<K>, totals: map<K, int>, xs: seq<K>, ws: seq<int>)
    requires |ws| == |xs|
  {
    keys == Distinct(xs)
    && (forall k :: k in totals <==> k in xs)
    && (forall k :: k in totals ==> totals[k] == WeightOf(xs, ws, k))
  }

  /** `totals.setdefault(x, 0); totals[x] += w` keeps the dictionary equal to the weights by key. */
  lemma WeighedStep<K(!new)>(keys: seq<K>, totals: map<K, int>, xs: seq<K>, ws: seq<int>, x: K, w: int)
    requires |ws| == |xs| && Weighed(keys, totals, xs, ws)
    ensures Weighed(if x in totals then keys else keys + [x],
                    totals[x := (if x in totals then totals[x] else 0) + w], xs + [x], ws + [w])
  {
    DistinctAppend(xs, x);
    forall k
      ensures WeightOf(xs + [x], ws + [w], k) == WeightOf(xs, ws, k) + (if x == k then w else 0)
    {
      WeightOfSnoc(xs, ws, x, w, k);
    }
    var totals' := totals[x := (if x in totals then totals[x] else 0) + w];
    assert x in totals ==> WeightOf(xs, ws, x) == totals[x];
    assert x !in totals ==> WeightOf(xs, ws, x) == 0 by {
      if x !in totals {
        WeightOfAbsent(xs, ws, x);
      }
    }
    assert forall k :: k in totals' <==> k in xs + [x];
  }

  lemma {:induction false} WeightOfAbsent<K(!new)>(xs: seq<K>, ws: seq<int>, k: K)
    requires |ws| == |xs| && k !in xs
    ensures WeightOf(xs, ws, k) == 0
  {
    if |xs| > 0 {
      WeightOfAbsent(xs[..|xs| - 1], ws[..|ws| - 1], k);
    }
  }

  /** A dictionary `counts` holds, for the keys seen in `xs`, how often each occurs. */
  ghost predicate Counted<K(!new)>(counts: map<K, int>, xs: seq<K>)
  {
    (forall k :: k in counts <==> k in xs)
    && (forall k :: k in counts ==> counts[k] == Occurrences(xs, k))
  }

  /** `counts[x] += 1` (after creating the key with 0) keeps the dictionary equal to the occurrences. */
  lemma CountedStep<K(!new)>(counts: map<K, int>, xs: seq<K>, x: K)
    requires Counted(counts, xs)
    ensures Counted(counts[x := (if x in counts then counts[x] else 0) + 1], xs + [x])
  {
    var counts' := counts[x := (if x in counts then counts[x] else 0) + 1];
    forall k
      ensures k in counts' <==> k in xs + [x]
    {
    }
    forall k | k in counts'
      ensures counts'[k] == Occurrences(xs + [x], k)
    {
      OccurrencesSnoc(xs, x, k);
      if k == x && x !in counts {
        OccurrencesPositive(xs, x);
      }
    }
  }

  /** `d.setdefault(x, 0); d[x] += w` on a dictionary of integers. */
  method SetDefaultAdd<K(==)>(d: map<K, int>, x: K, w: int) returns (d': map<K, int>)
    ensures d' == d[x := (if x in d then d[x] else 0) + w]
  {
    d' := d;
    if x !in d' {
      d' := d'[x := 0];
    }
    d' := d'[x := d'[x] + w];
  }

  /** Extending a prefix of `ys` by one element, after a fixed `xs`. */
  lemma PrefixSnoc<K>(xs: seq<K>, ys: seq<K>, j: nat)
    requires j < |ys|
    ensures xs + ys[..j + 1] == (xs + ys[..j]) + [ys[j]]
  {
    assert ys[..j + 1] == ys[..j] + [ys[j]];
  }

  /** One weighted occurrence of `x` added to a dictionary of totals and its key order. */
  method AddWeight<K(==,!new)>(keys: seq<K>, totals: map<K, int>, x: K, w: int, ghost xs: seq<K>, ghost ws: seq<int>)
    returns (keys': seq<K>, totals': map<K, int>)
    requires |ws| == |xs| && Weighed(keys, totals, xs, ws)
    ensures Weighed(keys', totals', xs + [x], ws + [w])
  {
    WeighedStep(keys, totals, xs, ws, x, w);
    keys' := keys;
    if x !in totals {
      keys' := keys' + [x];
    }
    totals' := SetDefaultAdd(totals, x, w);
  }

  /** One weighted occurrence of `x` added to a dictionary holding both its count and its total. */
  method AddOccurrence<K(==,!new)>(keys: seq<K>, counts: map<K, int>, totals: map<K, int>, x: K, w: int,
                              ghost xs: seq<K>, ghost ws: seq<int>)
    returns (keys': seq<K>, counts': map<K, int>, totals': map<K, int>)
    requires |ws| == |xs| && Weighed(keys, totals, xs, ws) && Counted(counts, xs)
    ensures Weighed(keys', totals', xs + [x], ws + [w]) && Counted(counts', xs + [x])
  {
    CountedStep(counts, xs, x);
    assert x in counts <==> x in totals;
    keys', totals' := AddWeight(keys, totals, x, w, xs, ws);
    counts' := SetDefaultAdd(counts, x, 1);
  }

  /** One occurrence of `x` added to a dictionary of counts (`d[x] += 1` on a default dictionary, or
      `d.get(x, 0) + 1`) and its key order. */
  method AddOne<K(==,!new)>(keys: seq<K>, counts: map<K, int>, x: K, ghost xs: seq<K>)
    returns (keys': seq<K>, counts': map<K, int>)
    requires keys == Distinct(xs) && Counted(counts, xs)
    ensures keys' == Distinct(xs + [x]) && Counted(counts', xs + [x])
  {
    DistinctAppend(xs, x);
    CountedStep(counts, xs, x);
    keys' := keys;
    if x !in counts {
      keys' := keys' + [x];
    }
    counts' := SetDefaultAdd(counts, x, 1);
  }
}
