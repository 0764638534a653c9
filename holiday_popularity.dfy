/**
  Holiday popularity: the match rows are read in chunks, each chunk's `holiday_name` values are
  counted and added into one dictionary of totals, and the totals become a table sorted by count,
  largest first, with a 0-100 score: the count over the largest count, times 100, rounded to two
  places.
 */
module HolidayPopularity {
  import opened Numeric
  import opened Tally

  /** Rows per chunk when the match file is read. */
  const CHUNK_SIZE: nat := 1000000

  /** One `(holiday, count)` item of the totals dictionary. */
  datatype HolidayCount = HolidayCount(holiday: string, count: int)

  /** One output row. */
  datatype PopularityRow = PopularityRow(holidayName: string, matchCount: int, popularityScore: real)

  // ---------------------------------------------------------------------------------------------
  // Counting
  // ---------------------------------------------------------------------------------------------

  /** `chunk["holiday_name"].value_counts()`: each distinct name with its count. */
  method ValueCounts(chunk: seq<string>) returns (names: seq<string>, counts: map<string, int>)
    ensures names == Distinct(chunk)
    ensures Counted(counts, chunk)
  {
    names := [];
    counts := map[];
    for i := 0 to |chunk|
      invariant names == Distinct(chunk[..i])
      invariant Counted(counts, chunk[..i])
    {
      assert chunk[..i + 1] == chunk[..i] + [chunk[i]];
      names, counts := AddOne(names, counts, chunk[i], chunk[..i]);
    }
    assert chunk[..|chunk|] == chunk;
  }

  /** The totals after some chunks, while the next chunk's counts are being added: every name seen so
      far, with its occurrences before the chunk plus, for the names already merged, its occurrences
      in the chunk. */
  ghost predicate Merging(keys: seq<string>, totals: map<string, int>, before: seq<string>, chunk: seq<string>,
                          merged: seq<string>)
  {
    NoDuplicates(keys)
    && (forall h :: h in keys <==> h in totals)
    && (forall h :: h in totals <==> h in before || h in merged)
    && (forall h :: h in totals ==> totals[h] == Occurrences(before, h) + (if h in merged then Occurrences(chunk, h) else 0))
  }

  /** `holiday_counts[holiday] = holiday_counts.get(holiday, 0) + cnt` for one name of the chunk. */
  method MergeOne(keys: seq<string>, totals: map<string, int>, h: string, cnt: int,
                  ghost before: seq<string>, ghost chunk: seq<string>, ghost merged: seq<string>)
    returns (keys': seq<string>, totals': map<string, int>)
    requires Merging(keys, totals, before, chunk, merged) && h !in merged && cnt == Occurrences(chunk, h)
    ensures Merging(keys', totals', before, chunk, merged + [h])
  {
    if h !in totals {
      OccurrencesPositive(before, h);
      keys' := keys + [h];
    } else {
      keys' := keys;
    }
    totals' := totals[h := (if h in totals then totals[h] else 0) + cnt];
  }

  /** The chunk loop: per chunk, `value_counts` and then the merge into `holiday_counts`. The keys are
      the distinct names, and each total is the name's number of rows over all chunks. */
  method CountChunks(chunks: seq<seq<string>>) returns (keys: seq<string>, totals: map<string, int>)
    ensures NoDuplicates(keys)
    ensures forall h :: h in keys <==> h in Flatten(chunks)
    ensures Counted(totals, Flatten(chunks))
  {
    keys, totals := [], map[];
    for c := 0 to |chunks|
      invariant NoDuplicates(keys)
      invariant forall h :: h in keys <==> h in totals
      invariant Counted(totals, Flatten(chunks[..c]))
    {
      ghost var before := Flatten(chunks[..c]);
      var chunk := chunks[c];
      var names, counts := ValueCounts(chunk);
      for j := 0 to |names|
        invariant Merging(keys, totals, before, chunk, names[..j])
      {
        assert names[..j + 1] == names[..j] + [names[j]];
        assert names[j] !in names[..j];
        keys, totals := MergeOne(keys, totals, names[j], counts[names[j]], before, chunk, names[..j]);
      }
      assert names[..|names|] == names;
      assert chunks[..c + 1][..c] == chunks[..c];
      assert Flatten(chunks[..c + 1]) == before + chunk;
      forall h
        ensures Occurrences(before + chunk, h) == Occurrences(before, h) + Occurrences(chunk, h)
      {
        OccurrencesAppend(before, chunk, h);
      }
      forall h | h !in names
        ensures Occurrences(chunk, h) == 0
      {
        OccurrencesPositive(chunk, h);
      }
    }
    assert chunks[..|chunks|] == chunks;
  }

  // ---------------------------------------------------------------------------------------------
  // Table: sort by count, largest first, and score
  // ---------------------------------------------------------------------------------------------

  predicate SortedDesc(ps: seq<HolidayCount>)
  {
    forall i, j :: 0 <= i < j < |ps| ==> ps[i].count >= ps[j].count
  }

  predicate DistinctNames(ps: seq<HolidayCount>)
  {
    forall i, j :: 0 <= i < j < |ps| ==> ps[i].holiday != ps[j].holiday
  }

  /** Puts `p` before the first item whose count is not larger. */
  function Insert(p: HolidayCount, ps: seq<HolidayCount>): (r: seq<HolidayCount>)
    ensures multiset(r) == multiset(ps) + multiset{p}
  {
    if |ps| == 0 then [p]
    else if p.count >= ps[0].count then [p] + ps
    else
      assert ps == [ps[0]] + ps[1..];
      [ps[0]] + Insert(p, ps[1..])
  }

  /** Inserting into a sorted sequence keeps it sorted. */
  lemma {:induction false} InsertSorted(p: HolidayCount, ps: seq<HolidayCount>)
    requires SortedDesc(ps)
    ensures SortedDesc(Insert(p, ps))
  {
    if |ps| > 0 && p.count < ps[0].count {
      var rest := Insert(p, ps[1..]);
      InsertSorted(p, ps[1..]);
      forall k | 0 <= k < |rest|
        ensures rest[k].count <= ps[0].count
      {
        assert rest[k] in multiset(rest);
        if rest[k] != p {
          assert rest[k] in multiset(ps[1..]);
        }
      }
    }
  }

  /** `sort_values("match_count", ascending=False)`. The source's sort is not stable, so rows with equal
      counts may come out in either order; this model is one of the allowed orders. */
  function SortDesc(ps: seq<HolidayCount>): (r: seq<HolidayCount>)
    ensures multiset(r) == multiset(ps)
    ensures SortedDesc(r)
  {
    if |ps| == 0 then [] else
      assert ps == [ps[0]] + ps[1..];
      InsertSorted(ps[0], SortDesc(ps[1..]));
      Insert(ps[0], SortDesc(ps[1..]))
  }

  /** A permutation of items with distinct names has distinct names. */
  lemma {:induction false} PermutationKeepsDistinctNames(a: seq<HolidayCount>, b: seq<HolidayCount>)
    requires multiset(a) == multiset(b) && DistinctNames(a)
    ensures DistinctNames(b)
  {
    forall i, j | 0 <= i < j < |b|
      ensures b[i].holiday != b[j].holiday
    {
      if b[i].holiday == b[j].holiday {
        assert b[i] in multiset(a) && b[j] in multiset(a);
        var k :| 0 <= k < |a| && a[k] == b[i];
        var l :| 0 <= l < |a| && a[l] == b[j];
        assert k == l;
        assert b == b[..j] + b[j..];
        assert b[i] in b[..j] && b[i] in b[j..];
        assert multiset(b)[b[i]] >= 2;
        SingleOccurrence(a, k);
        assert false;
      }
    }
  }

  /** In items with distinct names, every item occurs once. */
  lemma {:induction false} SingleOccurrence(a: seq<HolidayCount>, k: nat)
    requires DistinctNames(a) && k < |a|
    ensures multiset(a)[a[k]] == 1
  {
    if k == |a| - 1 {
      assert a == a[..k] + [a[k]];
      assert a[k] !in a[..k];
    } else {
      var n := |a| - 1;
      assert a == a[..n] + [a[n]];
      SingleOccurrence(a[..n], k);
    }
  }

  /** `round(count / max * 100, 2)`. */
  function Score(count: int, maxCount: int): real
    requires maxCount > 0
  {
    Round(count as real / maxCount as real * 100.0, 2)
  }

  /** The largest count scores exactly 100. */
  lemma ScoreOfMax(maxCount: int)
    requires maxCount > 0
    ensures Score(maxCount, maxCount) == 100.0
  {
    var m := maxCount as real;
    assert m / m * 100.0 == 100 as real;
    RoundOfInt(100, 2);
  }

  /** A larger count never scores less. */
  lemma ScoreMonotone(c1: int, c2: int, maxCount: int)
    requires c1 <= c2 && maxCount > 0
    ensures Score(c1, maxCount) <= Score(c2, maxCount)
  {
    var m := maxCount as real;
    DivMonotone(c1 as real, c2 as real, m);
    MulMonotone(c1 as real / m, c2 as real / m, 100.0);
    RoundMonotone(c1 as real / m * 100.0, c2 as real / m * 100.0, 2);
  }

  /** A count between 0 and the largest scores between 0 and 100. */
  lemma ScoreRange(c: int, maxCount: int)
    requires 0 <= c <= maxCount && maxCount > 0
    ensures 0.0 <= Score(c, maxCount) <= 100.0
  {
    var m := maxCount as real;
    var q := c as real / m;
    DivMonotone(c as real, m, m);
    DivMonotone(0.0, c as real, m);
    assert 0.0 <= q <= 1.0;
    MulMonotone(q, 1.0, 100.0);
    MulMonotone(0.0, q, 100.0);
    RoundWithin(q * 100.0, 0, 100, 2);
  }

  /** A holiday with a match scores 0.00 when the leader has more than 20000 matches: the score range is
      [0, 100], not (0, 100]. */
  lemma SmallCountScoresZero()
    ensures Score(1, 20001) == 0.0
  {
    RoundDef(1.0 / 20001.0 * 100.0, 2, 100.0);
    assert (1.0 / 20001.0 * 100.0 * 100.0 + 0.5).Floor == 0;
  }

  /** The scored table over sorted items: the first item's count is the largest. */
  function ScoreRows(sorted: seq<HolidayCount>, maxCount: int): (r: seq<PopularityRow>)
    requires maxCount > 0
    ensures |r| == |sorted|
    ensures forall i :: 0 <= i < |r| ==> r[i] == PopularityRow(sorted[i].holiday, sorted[i].count, Score(sorted[i].count, maxCount))
  {
    if |sorted| == 0 then [] else
      [PopularityRow(sorted[0].holiday, sorted[0].count, Score(sorted[0].count, maxCount))] + ScoreRows(sorted[1..], maxCount)
  }

  /** `compute_holiday_popularity` after the counting: the table of the totals dictionary's items. An
      empty dictionary gives an empty table. */
  function PopularityTable(items: seq<HolidayCount>): seq<PopularityRow>
    requires forall i :: 0 <= i < |items| ==> items[i].count > 0
  {
    var sorted := SortDesc(items);
    if |sorted| == 0 then []
    else
      assert sorted[0] in multiset(items);
      ScoreRows(sorted, sorted[0].count)
  }

  /** The table lists each item once, with its count. */
  lemma PopularityTableItems(items: seq<HolidayCount>)
    requires forall i :: 0 <= i < |items| ==> items[i].count > 0
    requires DistinctNames(items)
    ensures var r := PopularityTable(items);
      && |r| == |items|
      && (forall i :: 0 <= i < |r| ==> HolidayCount(r[i].holidayName, r[i].matchCount) in items)
      && (forall x :: x in items ==> exists i :: 0 <= i < |r| && r[i].holidayName == x.holiday && r[i].matchCount == x.count)
      && (forall i, j :: 0 <= i < j < |r| ==> r[i].holidayName != r[j].holidayName)
  {
    var sorted := SortDesc(items);
    var r := PopularityTable(items);
    TableRowsAreItems(items);
    PermutationKeepsDistinctNames(items, sorted);
    forall x | x in items
      ensures exists i :: 0 <= i < |r| && r[i].holidayName == x.holiday && r[i].matchCount == x.count
    {
      var i :| 0 <= i < |sorted| && sorted[i] == x;
      assert r[i].holidayName == x.holiday && r[i].matchCount == x.count;
    }
  }

  /** The table puts the largest count first, scores every row against it (the first row scores 100),
      and keeps every score in [0, 100]. */
  lemma PopularityTableScores(items: seq<HolidayCount>)
    requires forall i :: 0 <= i < |items| ==> items[i].count > 0
    ensures var r := PopularityTable(items);
      && (forall i, j :: 0 <= i < j < |r| ==> r[i].matchCount >= r[j].matchCount)
      && (forall i :: 0 <= i < |r| ==> r[i].popularityScore == Score(r[i].matchCount, r[0].matchCount))
      && (forall i :: 0 <= i < |r| ==> 0.0 <= r[i].popularityScore <= 100.0)
      && (|r| > 0 ==> r[0].popularityScore == 100.0)
  {
    var sorted := SortDesc(items);
    var r := PopularityTable(items);
    if |r| > 0 {
      TableRowsAreItems(items);
      var m := sorted[0].count;
      assert r == ScoreRows(sorted, m);
      ScoreOfMax(m);
      forall i | 0 <= i < |r|
        ensures 0.0 <= r[i].popularityScore <= 100.0
      {
        assert sorted[i] in items;
        ScoreRange(sorted[i].count, m);
      }
    }
  }

  /** The sorted items are the items: same length, and each one on either side is on the other. */
  lemma TableRowsAreItems(items: seq<HolidayCount>)
    ensures var sorted := SortDesc(items);
      && |sorted| == |items|
      && (forall i :: 0 <= i < |sorted| ==> sorted[i] in items)
      && (forall x :: x in items ==> exists i :: 0 <= i < |sorted| && sorted[i] == x)
  {
    var sorted := SortDesc(items);
    assert |sorted| == |multiset(sorted)| == |multiset(items)| == |items|;
    forall x | x in items
      ensures exists i :: 0 <= i < |sorted| && sorted[i] == x
    {
      assert x in multiset(sorted);
    }
    forall i | 0 <= i < |sorted|
      ensures sorted[i] in items
    {
      assert sorted[i] in multiset(items);
    }
  }

  // ---------------------------------------------------------------------------------------------
  // The whole computation
  // ---------------------------------------------------------------------------------------------

  /** `compute_holiday_popularity` over the chunks of the match file: one row per holiday name found,
      with its number of matches over all chunks, rows ordered by count, largest first, and each score
      the count against the largest count. No chunk at all gives an empty table. */
  method ComputeHolidayPopularity(chunks: seq<seq<string>>) returns (rows: seq<PopularityRow>)
    ensures var all := Flatten(chunks);
      && (forall i :: 0 <= i < |rows| ==> rows[i].holidayName in all && rows[i].matchCount == Occurrences(all, rows[i].holidayName))
      && (forall h :: h in all ==> exists i :: 0 <= i < |rows| && rows[i].holidayName == h)
    ensures forall i, j :: 0 <= i < j < |rows| ==> rows[i].holidayName != rows[j].holidayName
    ensures forall i, j :: 0 <= i < j < |rows| ==> rows[i].matchCount >= rows[j].matchCount
    ensures forall i :: 0 <= i < |rows| ==> 0.0 <= rows[i].popularityScore <= 100.0
    ensures forall i :: 0 <= i < |rows| ==> rows[i].matchCount > 0 && rows[i].popularityScore == Score(rows[i].matchCount, rows[0].matchCount)
    ensures |rows| > 0 ==> rows[0].popularityScore == 100.0
  {
    var keys, totals := CountChunks(chunks);
    var items := TotalsItems(keys, totals);
    TotalsItemsPositive(Flatten(chunks), keys, totals, items);
    rows := PopularityTable(items);
    TotalsItemsDistinct(keys, totals, items);
    PopularityTableItems(items);
    PopularityTableScores(items);
    TableRowsCounted(Flatten(chunks), keys, totals, items);
    TableCoversNames(Flatten(chunks), keys, totals, items);
  }

  /** `holiday_counts.items()`: the totals dictionary's items, in key insertion order. */
  method TotalsItems(keys: seq<string>, totals: map<string, int>) returns (items: seq<HolidayCount>)
    requires forall h :: h in keys ==> h in totals
    ensures |items| == |keys|
    ensures forall k :: 0 <= k < |keys| ==> items[k] == HolidayCount(keys[k], totals[keys[k]])
  {
    items := [];
    for i := 0 to |keys|
      invariant |items| == i
      invariant forall k :: 0 <= k < i ==> items[k] == HolidayCount(keys[k], totals[keys[k]])
    {
      items := items + [HolidayCount(keys[i], totals[keys[i]])];
    }
  }

  /** Every counted name was found at least once, so every total is positive. */
  lemma TotalsItemsPositive(all: seq<string>, keys: seq<string>, totals: map<string, int>, items: seq<HolidayCount>)
    requires forall h :: h in keys <==> h in all
    requires Counted(totals, all)
    requires |items| == |keys|
    requires forall k :: 0 <= k < |keys| ==> items[k] == HolidayCount(keys[k], totals[keys[k]])
    ensures forall k :: 0 <= k < |items| ==> items[k].count > 0
  {
    forall k | 0 <= k < |items|
      ensures items[k].count > 0
    {
      OccurrencesPositive(all, keys[k]);
    }
  }

  /** The totals' items have distinct names, as the keys do. */
  lemma TotalsItemsDistinct(keys: seq<string>, totals: map<string, int>, items: seq<HolidayCount>)
    requires NoDuplicates(keys)
    requires |items| == |keys|
    requires forall k :: 0 <= k < |keys| ==> items[k].holiday == keys[k]
    ensures DistinctNames(items)
  {
    forall i, j | 0 <= i < j < |items| ensures items[i].holiday != items[j].holiday {
      assert keys[i] != keys[j];
    }
  }

  /** Every row of the totals' table is a name found, with its number of occurrences. */
  lemma TableRowsCounted(all: seq<string>, keys: seq<string>, totals: map<string, int>, items: seq<HolidayCount>)
    requires forall h :: h in keys <==> h in all
    requires Counted(totals, all)
    requires |items| == |keys|
    requires forall k :: 0 <= k < |keys| ==> items[k] == HolidayCount(keys[k], totals[keys[k]])
    requires forall k :: 0 <= k < |items| ==> items[k].count > 0
    requires DistinctNames(items)
    ensures var rows := PopularityTable(items);
      forall i :: 0 <= i < |rows| ==> rows[i].holidayName in all && rows[i].matchCount == Occurrences(all, rows[i].holidayName)
  {
    var rows := PopularityTable(items);
    PopularityTableItems(items);
    forall i | 0 <= i < |rows|
      ensures rows[i].holidayName in all && rows[i].matchCount == Occurrences(all, rows[i].holidayName)
    {
      var k :| 0 <= k < |items| && items[k] == HolidayCount(rows[i].holidayName, rows[i].matchCount);
    }
  }

  /** Every name found has a row in the totals' table. */
  lemma TableCoversNames(all: seq<string>, keys: seq<string>, totals: map<string, int>, items: seq<HolidayCount>)
    requires forall h :: h in keys <==> h in all
    requires |items| == |keys|
    requires forall k :: 0 <= k < |keys| ==> items[k].holiday == keys[k]
    requires forall k :: 0 <= k < |items| ==> items[k].count > 0
    requires DistinctNames(items)
    ensures var rows := PopularityTable(items);
      forall h :: h in all ==> exists i :: 0 <= i < |rows| && rows[i].holidayName == h
  {
    var rows := PopularityTable(items);
    PopularityTableItems(items);
    forall h | h in all
      ensures exists i :: 0 <= i < |rows| && rows[i].holidayName == h
    {
      var k :| 0 <= k < |keys| && keys[k] == h;
      assert items[k] in items;
    }
  }
}
