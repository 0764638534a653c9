/**
  Top dishes per holiday: every match row's `(holiday_name, menu_item)` pair is counted in a
  dictionary, the dictionary's items are sorted by holiday name ascending and then by count
  descending, and the first five rows of each holiday are kept.
 */
module TopDishes {
  import opened Tally
  import opened Text

  /** Rows per chunk when the match file is read. */
  const CHUNK_SIZE: nat := 1000000

  /** Rows kept per holiday (`head(5)`). */
  const TOP_N: nat := 5

  /** The `(holiday_name, menu_item)` key of one match row. */
  datatype DishKey = DishKey(holiday: string, menuItem: string)

  /** One output row. */
  datatype DishRow = DishRow(holidayName: string, menuItem: string, matchCount: int)

  function KeyOf(r: DishRow): DishKey
  {
    DishKey(r.holidayName, r.menuItem)
  }

  // ---------------------------------------------------------------------------------------------
  // Counting
  // ---------------------------------------------------------------------------------------------

  /** The nested loop over chunks and their rows, `counts[(holiday, item)] += 1` on a default
      dictionary. The keys, in insertion order, are the distinct pairs, and each count is the number
      of rows with that pair. */
  method CountPairs(chunks: seq<seq<DishKey>>) returns (keys: seq<DishKey>, counts: map<DishKey, int>)
    ensures keys == Distinct(Flatten(chunks))
    ensures Counted(counts, Flatten(chunks))
  {
    keys, counts := [], map[];
    for c := 0 to |chunks|
      invariant keys == Distinct(Flatten(chunks[..c]))
      invariant Counted(counts, Flatten(chunks[..c]))
    {
      keys, counts := CountChunkRows(keys, counts, Flatten(chunks[..c]), chunks[c]);
      assert chunks[..c + 1][..c] == chunks[..c];
    }
    assert chunks[..|chunks|] == chunks;
  }

  /** The inner loop: the rows of one chunk, added to the counts of the rows `before` it. */
  method CountChunkRows(keys: seq<DishKey>, counts: map<DishKey, int>, ghost before: seq<DishKey>, chunk: seq<DishKey>)
    returns (keys': seq<DishKey>, counts': map<DishKey, int>)
    requires keys == Distinct(before) && Counted(counts, before)
    ensures keys' == Distinct(before + chunk) && Counted(counts', before + chunk)
  {
    keys', counts' := keys, counts;
    ghost var seen := before;
    for r := 0 to |chunk|
      invariant seen == before + chunk[..r]
      invariant keys' == Distinct(seen) && Counted(counts', seen)
    {
      var key := chunk[r];
      keys', counts' := AddOne(keys', counts', key, seen);
      PrefixSnoc(before, chunk, r);
      seen := seen + [key];
    }
    assert chunk[..|chunk|] == chunk;
  }

  /** The sum of the rows' counts. */
  function SumCounts(rows: seq<DishRow>): int
  {
    if |rows| == 0 then 0 else SumCounts(rows[..|rows| - 1]) + rows[|rows| - 1].matchCount
  }

  /** The rows `(h, m, c) for (h, m), c in counts.items()`, in key insertion order. */
  predicate ItemsOf(items: seq<DishRow>, keys: seq<DishKey>, counts: map<DishKey, int>)
  {
    |items| == |keys|
    && forall k :: 0 <= k < |keys| ==> keys[k] in counts && items[k] == DishRow(keys[k].holiday, keys[k].menuItem, counts[keys[k]])
  }

  /** Building the rows of the counts dictionary. */
  method CountItems(keys: seq<DishKey>, counts: map<DishKey, int>) returns (items: seq<DishRow>)
    requires forall k :: k in keys ==> k in counts
    ensures ItemsOf(items, keys, counts)
  {
    items := [];
    for i := 0 to |keys|
      invariant |items| == i
      invariant forall k :: 0 <= k < i ==> items[k] == DishRow(keys[k].holiday, keys[k].menuItem, counts[keys[k]])
    {
      items := items + [DishRow(keys[i].holiday, keys[i].menuItem, counts[keys[i]])];
    }
  }

  /** The items' counts add up like the key counts. */
  lemma {:induction false} SumCountsOfItems(items: seq<DishRow>, keys: seq<DishKey>, counts: map<DishKey, int>, all: seq<DishKey>)
    requires ItemsOf(items, keys, counts) && Counted(counts, all)
    ensures SumCounts(items) == CountsSum(keys, all)
  {
    if |items| > 0 {
      var n := |items| - 1;
      SumCountsOfItems(items[..n], keys[..n], counts, all);
    }
  }

  /** The counting step of the top-dishes computation: one row per distinct pair, each with its number
      of rows; before any truncation the counts add up to the number of match rows. */
  method CountDishPairs(chunks: seq<seq<DishKey>>) returns (items: seq<DishRow>)
    ensures NoDuplicates(items)
    ensures forall i :: 0 <= i < |items| ==> KeyOf(items[i]) in Flatten(chunks)
    ensures forall i :: 0 <= i < |items| ==> items[i].matchCount == Occurrences(Flatten(chunks), KeyOf(items[i]))
    ensures forall key :: key in Flatten(chunks) ==> DishRow(key.holiday, key.menuItem, Occurrences(Flatten(chunks), key)) in items
    ensures SumCounts(items) == |Flatten(chunks)|
  {
    var keys, counts := CountPairs(chunks);
    items := CountItems(keys, counts);
    ghost var all := Flatten(chunks);
    SumCountsOfItems(items, keys, counts, all);
    CountsSumDistinct(all);
    forall i, j | 0 <= i < j < |items|
      ensures items[i] != items[j]
    {
      assert keys[i] != keys[j];
    }
    forall key | key in all
      ensures DishRow(key.holiday, key.menuItem, Occurrences(all, key)) in items
    {
      var k :| 0 <= k < |keys| && keys[k] == key;
      assert items[k] == DishRow(key.holiday, key.menuItem, Occurrences(all, key));
    }
  }

  // ---------------------------------------------------------------------------------------------
  // Sorting: holiday name ascending, then count descending
  // ---------------------------------------------------------------------------------------------

  /** `a` may come before `b` in `sort_values(["holiday_name", "match_count"], ascending=[True, False])`. */
  predicate RowLe(a: DishRow, b: DishRow)
  {
    (StrLe(a.holidayName, b.holidayName) && a.holidayName != b.holidayName)
    || (a.holidayName == b.holidayName && a.matchCount >= b.matchCount)
  }

  predicate Ordered(rows: seq<DishRow>)
  {
    forall i, j :: 0 <= i < j < |rows| ==> RowLe(rows[i], rows[j])
  }

  /** The row order is total and transitive. */
  lemma RowLeTotal(a: DishRow, b: DishRow)
    ensures RowLe(a, b) || RowLe(b, a)
  {
    StrLeTotal(a.holidayName, b.holidayName);
  }

  lemma RowLeTransitive(a: DishRow, b: DishRow, c: DishRow)
    requires RowLe(a, b) && RowLe(b, c)
    ensures RowLe(a, c)
  {
    if a.holidayName != b.holidayName && b.holidayName != c.holidayName {
      StrLeTransitive(a.holidayName, b.holidayName, c.holidayName);
      if a.holidayName == c.holidayName {
        StrLeAntisymmetric(a.holidayName, b.holidayName);
      }
    }
  }

  /** Puts `r` before the first row it may precede. */
  function InsertRow(r: DishRow, rows: seq<DishRow>): (out: seq<DishRow>)
    ensures multiset(out) == multiset(rows) + multiset{r}
  {
    if |rows| == 0 then [r]
    else if RowLe(r, rows[0]) then [r] + rows
    else
      assert rows == [rows[0]] + rows[1..];
      [rows[0]] + InsertRow(r, rows[1..])
  }

  lemma {:induction false} InsertRowOrdered(r: DishRow, rows: seq<DishRow>)
    requires Ordered(rows)
    ensures Ordered(InsertRow(r, rows))
  {
    if |rows| > 0 {
      if RowLe(r, rows[0]) {
        forall k | 0 <= k < |rows| ensures RowLe(r, rows[k]) {
          if k > 0 {
            RowLeTransitive(r, rows[0], rows[k]);
          }
        }
      } else {
        var rest := InsertRow(r, rows[1..]);
        InsertRowOrdered(r, rows[1..]);
        RowLeTotal(r, rows[0]);
        forall k | 0 <= k < |rest|
          ensures RowLe(rows[0], rest[k])
        {
          assert rest[k] in multiset(rest);
          if rest[k] != r {
            assert rest[k] in multiset(rows[1..]);
          }
        }
      }
    }
  }

  /** The sort. Rows that agree on both sort columns, which the source leaves in no guaranteed order,
      keep their dictionary order here. */
  function SortRows(rows: seq<DishRow>): (out: seq<DishRow>)
    ensures multiset(out) == multiset(rows)
    ensures Ordered(out)
  {
    if |rows| == 0 then [] else
      assert rows == [rows[0]] + rows[1..];
      InsertRowOrdered(rows[0], SortRows(rows[1..]));
      InsertRow(rows[0], SortRows(rows[1..]))
  }

  // ---------------------------------------------------------------------------------------------
  // groupby("holiday_name").head(n)
  // ---------------------------------------------------------------------------------------------

  /** How many rows belong to holiday `h`. */
  function CountHoliday(rows: seq<DishRow>, h: string): nat
  {
    if |rows| == 0 then 0
    else CountHoliday(rows[..|rows| - 1], h) + (if rows[|rows| - 1].holidayName == h then 1 else 0)
  }

  /** The position of row `i` within its holiday's group: the number of earlier rows of that holiday. */
  function Rank(rows: seq<DishRow>, i: nat): nat
    requires i < |rows|
  {
    CountHoliday(rows[..i], rows[i].holidayName)
  }

  /** `groupby("holiday_name").head(n)`: the rows, in order, whose position within their holiday's
      group is below `n`. */
  function GroupHead(rows: seq<DishRow>, n: nat): seq<DishRow>
  {
    if |rows| == 0 then []
    else
      var init := rows[..|rows| - 1];
      var last := rows[|rows| - 1];
      GroupHead(init, n) + (if CountHoliday(init, last.holidayName) < n then [last] else [])
  }

  lemma {:induction false} CountHolidayPrefix(rows: seq<DishRow>, a: nat, b: nat, h: string)
    requires a <= b <= |rows|
    ensures CountHoliday(rows[..a], h) <= CountHoliday(rows[..b], h)
  {
    if a < b {
      CountHolidayPrefix(rows, a, b - 1, h);
      assert rows[..b][..b - 1] == rows[..b - 1];
    }
  }

  /** Each row of a holiday comes after fewer rows of it than any later row of the same holiday, and
      after fewer than the holiday's total. */
  lemma RankGrows(rows: seq<DishRow>, i: nat, j: nat)
    requires i < j < |rows| && rows[i].holidayName == rows[j].holidayName
    ensures Rank(rows, i) < Rank(rows, j)
  {
    assert rows[..i + 1][..i] == rows[..i];
    CountHolidayPrefix(rows, i + 1, j, rows[i].holidayName);
  }

  lemma RankBelowCount(rows: seq<DishRow>, i: nat)
    requires i < |rows|
    ensures Rank(rows, i) < CountHoliday(rows, rows[i].holidayName)
  {
    assert rows[..i + 1][..i] == rows[..i];
    CountHolidayPrefix(rows, i + 1, |rows|, rows[i].holidayName);
    assert rows[..|rows|] == rows;
  }

  /** The head keeps `min(n, count)` rows of every holiday. */
  lemma {:induction false} GroupHeadCount(rows: seq<DishRow>, n: nat, h: string)
    ensures CountHoliday(GroupHead(rows, n), h) == if CountHoliday(rows, h) < n then CountHoliday(rows, h) else n
  {
    if |rows| > 0 {
      var init := rows[..|rows| - 1];
      GroupHeadCount(init, n, h);
      GroupHeadCount(init, n, rows[|rows| - 1].holidayName);
      var kept := if CountHoliday(init, rows[|rows| - 1].holidayName) < n then [rows[|rows| - 1]] else [];
      CountHolidayAppend(GroupHead(init, n), kept, h);
    }
  }

  lemma {:induction false} CountHolidayAppend(a: seq<DishRow>, b: seq<DishRow>, h: string)
    ensures CountHoliday(a + b, h) == CountHoliday(a, h) + CountHoliday(b, h)
  {
    if |b| > 0 {
      assert (a + b)[..|a + b| - 1] == a + b[..|b| - 1];
      CountHolidayAppend(a, b[..|b| - 1], h);
    } else {
      assert a + b == a;
    }
  }

  /** The rank of a row is the same in any prefix holding it. */
  lemma RankInPrefix(rows: seq<DishRow>, m: nat, j: nat)
    requires j < m <= |rows|
    ensures Rank(rows[..m], j) == Rank(rows, j)
  {
    assert rows[..m][..j] == rows[..j];
  }

  /** The head holds only rows whose rank is below `n`. */
  lemma {:induction false} GroupHeadMembers(rows: seq<DishRow>, n: nat)
    ensures forall x :: x in GroupHead(rows, n) ==> exists j :: 0 <= j < |rows| && rows[j] == x && Rank(rows, j) < n
  {
    if |rows| > 0 {
      var m := |rows| - 1;
      GroupHeadMembers(rows[..m], n);
      forall x | x in GroupHead(rows, n)
        ensures exists j :: 0 <= j < |rows| && rows[j] == x && Rank(rows, j) < n
      {
        if x in GroupHead(rows[..m], n) {
          var j :| 0 <= j < m && rows[..m][j] == x && Rank(rows[..m], j) < n;
          RankInPrefix(rows, m, j);
        } else {
          assert rows[m] == x && Rank(rows, m) < n;
        }
      }
    }
  }

  /** The head holds every row whose rank is below `n`. */
  lemma {:induction false} GroupHeadKeeps(rows: seq<DishRow>, n: nat, j: nat)
    requires j < |rows| && Rank(rows, j) < n
    ensures rows[j] in GroupHead(rows, n)
  {
    var m := |rows| - 1;
    if j < m {
      RankInPrefix(rows, m, j);
      GroupHeadKeeps(rows[..m], n, j);
    }
  }

  /** Ordered rows stay ordered in the head. */
  lemma {:induction false} GroupHeadOrdered(rows: seq<DishRow>, n: nat)
    requires Ordered(rows)
    ensures Ordered(GroupHead(rows, n))
  {
    if |rows| > 0 {
      var m := |rows| - 1;
      var init := rows[..m];
      GroupHeadOrdered(init, n);
      GroupHeadMembers(init, n);
      var head := GroupHead(init, n);
      forall k | 0 <= k < |head|
        ensures RowLe(head[k], rows[m])
      {
        assert head[k] in head;
      }
    }
  }

  /** A row left out of the head of ordered rows counts no more than any kept row of its holiday. */
  lemma DroppedNotAbove(rows: seq<DishRow>, n: nat, i: nat)
    requires Ordered(rows) && i < |rows| && Rank(rows, i) >= n
    ensures CountHoliday(GroupHead(rows, n), rows[i].holidayName) == n
    ensures forall y :: y in GroupHead(rows, n) && y.holidayName == rows[i].holidayName ==> y.matchCount >= rows[i].matchCount
  {
    RankBelowCount(rows, i);
    GroupHeadCount(rows, n, rows[i].holidayName);
    GroupHeadMembers(rows, n);
    forall y | y in GroupHead(rows, n) && y.holidayName == rows[i].holidayName
      ensures y.matchCount >= rows[i].matchCount
    {
      var j :| 0 <= j < |rows| && rows[j] == y && Rank(rows, j) < n;
      if i < j {
        RankGrows(rows, i, j);
      }
      assert RowLe(rows[j], rows[i]);
    }
  }

  // ---------------------------------------------------------------------------------------------
  // The whole computation
  // ---------------------------------------------------------------------------------------------

  /** The selection after counting: sort, then keep the first `TOP_N` rows of each holiday. */
  function TopPerHoliday(items: seq<DishRow>): seq<DishRow>
  {
    GroupHead(SortRows(items), TOP_N)
  }

  /** The selection keeps only given rows, in sorted order, at most `TOP_N` per holiday; a row it drops
      belongs to a holiday that keeps `TOP_N` rows, none of which counts less. */
  lemma TopPerHolidaySpec(items: seq<DishRow>)
    ensures var out := TopPerHoliday(items);
      && (forall y :: y in out ==> y in items)
      && Ordered(out)
      && (forall h :: CountHoliday(out, h) <= TOP_N)
    ensures var out := TopPerHoliday(items);
      forall x :: x in items ==> (
        x in out
        || (CountHoliday(out, x.holidayName) == TOP_N
            && forall y :: y in out && y.holidayName == x.holidayName ==> y.matchCount >= x.matchCount))
  {
    var sorted := SortRows(items);
    var out := TopPerHoliday(items);
    GroupHeadMembers(sorted, TOP_N);
    GroupHeadOrdered(sorted, TOP_N);
    forall h
      ensures CountHoliday(out, h) <= TOP_N
    {
      GroupHeadCount(sorted, TOP_N, h);
    }
    forall y | y in out
      ensures y in items
    {
      var j :| 0 <= j < |sorted| && sorted[j] == y && Rank(sorted, j) < TOP_N;
      assert y in multiset(items);
    }
    forall x | x in items && x !in out
      ensures CountHoliday(out, x.holidayName) == TOP_N
      ensures forall y :: y in out && y.holidayName == x.holidayName ==> y.matchCount >= x.matchCount
    {
      assert x in multiset(sorted);
      var j :| 0 <= j < |sorted| && sorted[j] == x;
      if Rank(sorted, j) < TOP_N {
        GroupHeadKeeps(sorted, TOP_N, j);
      } else {
        DroppedNotAbove(sorted, TOP_N, j);
      }
    }
  }

  /** The top-dishes computation over the chunks of the match file: every row is a (holiday, dish) pair
      found, with its number of rows; rows come by holiday name ascending, then by count descending;
      each holiday has at most five rows, and a pair left out belongs to a holiday with five rows, none
      of which counts less than it. */
  method ComputeTopDishes(chunks: seq<seq<DishKey>>) returns (rows: seq<DishRow>)
    ensures forall i :: 0 <= i < |rows| ==> KeyOf(rows[i]) in Flatten(chunks)
    ensures forall i :: 0 <= i < |rows| ==> rows[i].matchCount == Occurrences(Flatten(chunks), KeyOf(rows[i]))
    ensures Ordered(rows)
    ensures forall h :: CountHoliday(rows, h) <= TOP_N
    ensures forall key :: key in Flatten(chunks) ==> (
      var c := Occurrences(Flatten(chunks), key);
      DishRow(key.holiday, key.menuItem, c) in rows
      || (CountHoliday(rows, key.holiday) == TOP_N
          && forall y :: y in rows && y.holidayName == key.holiday ==> y.matchCount >= c))
  {
    var items := CountDishPairs(chunks);
    rows := TopPerHoliday(items);
    TopPerHolidaySpec(items);
    forall i | 0 <= i < |rows|
      ensures KeyOf(rows[i]) in Flatten(chunks)
      ensures rows[i].matchCount == Occurrences(Flatten(chunks), KeyOf(rows[i]))
    {
      assert rows[i] in rows;
      var k :| 0 <= k < |items| && items[k] == rows[i];
    }
  }
}
