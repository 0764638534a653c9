/**
  Matching holiday keywords against menu items (`normalize_text` and the streaming match loop of
  `match_holidays_to_menus.py`). The two database tables are in-memory lists and the CSV writer is
  the list of rows written.
 */
module MenuMatching {
  import opened Wrappers
  import opened Text

  /** The number of menu rows examined per chunk. */
  const CHUNK_SIZE: nat := 200000

  /** `normalize_text`: a value that is not a string (None here) gives "", otherwise punctuation is
      removed and the rest lower-cased. */
  function NormalizeText(text: Option<string>): string
  {
    match text
    case None => ""
    case Some(t) => Lower(KeepAlnumSpace(t))
  }

  /** Normalised text holds only lower-case ASCII letters, digits and whitespace, and normalising it
      again changes nothing. */
  lemma NormalizeTextShape(text: Option<string>)
    ensures var r := NormalizeText(text);
      forall i :: 0 <= i < |r| ==> IsAsciiLower(r[i]) || IsAsciiDigit(r[i]) || IsSpace(r[i])
    ensures NormalizeText(Some(NormalizeText(text))) == NormalizeText(text)
  {
    var r := NormalizeText(text);
    assert forall i :: 0 <= i < |r| ==> IsAlnumOrSpace(r[i]);
    LowerIdempotent(r);
  }

  /** One row of the holiday keyword table. */
  datatype Holiday = Holiday(name: string, date: string, keywords: string)

  /** One menu item; name and description may be missing. */
  datatype MenuItem = MenuItem(restaurantId: string, name: Option<string>, description: Option<string>, price: string)

  /** One CSV row written. */
  datatype MatchRow = MatchRow(holidayName: string, date: string, matchedKeyword: string,
                               restaurantId: string, menuItem: Option<string>, price: string)

  /** The keyword as used: stripped and lower-cased. */
  function CleanKeyword(kw: string): string
  {
    Lower(Strip(kw))
  }

  /** A keyword that is skipped: empty or shorter than four characters. */
  predicate Skipped(kw: string)
  {
    |kw| < 4
  }

  /** A menu item with the `clean_name` and `clean_description` columns added before matching. */
  datatype CleanItem = CleanItem(item: MenuItem, cleanName: string, cleanDescription: string)

  /** The two normalised columns, computed once for the whole table. */
  function PrepareMenus(menus: seq<MenuItem>): (cleaned: seq<CleanItem>)
    ensures |cleaned| == |menus|
    ensures forall j :: 0 <= j < |menus| ==>
      cleaned[j] == CleanItem(menus[j], NormalizeText(menus[j].name), NormalizeText(menus[j].description))
  {
    seq(|menus|, j requires 0 <= j < |menus| =>
      CleanItem(menus[j], NormalizeText(menus[j].name), NormalizeText(menus[j].description)))
  }

  /** A menu item matches a keyword when the keyword occurs in its normalised name or description.
      The program searches with `str.contains`, which reads the keyword as a regular expression; for
      keywords of lower-case letters, digits and spaces (`HolidayKeywords.PlainText`) that search is
      this literal containment. */
  predicate Matches(kw: string, m: CleanItem)
  {
    Contains(m.cleanName, kw) || Contains(m.cleanDescription, kw)
  }

  function RowFor(h: Holiday, kw: string, m: CleanItem): MatchRow
  {
    MatchRow(h.name, h.date, kw, m.item.restaurantId, m.item.name, m.item.price)
  }

  /** The rows written for one keyword over the first `n` menu items: one per matching item, in menu
      order. */
  function KeywordRows(h: Holiday, kw: string, menus: seq<CleanItem>, n: nat): (rows: seq<MatchRow>)
    requires n <= |menus|
    ensures |rows| <= n
  {
    if n == 0 then []
    else
      var m := menus[n - 1];
      KeywordRows(h, kw, menus, n - 1) + (if Matches(kw, m) then [RowFor(h, kw, m)] else [])
  }

  /** The rows written for the first `n` keywords of one holiday, each keyword cleaned, skipped keywords
      contributing nothing. */
  function HolidayRows(h: Holiday, kws: seq<string>, n: nat, menus: seq<CleanItem>): seq<MatchRow>
    requires n <= |kws|
  {
    if n == 0 then []
    else
      HolidayRows(h, kws, n - 1, menus) + RawKeywordRows(h, kws[n - 1], menus)
  }

  /** All rows written for the first `n` holidays, holiday by holiday. */
  function AllRows(holidays: seq<Holiday>, n: nat, menus: seq<CleanItem>): seq<MatchRow>
    requires n <= |holidays|
  {
    if n == 0 then []
    else
      var h := holidays[n - 1];
      var kws := KeywordList(h);
      AllRows(holidays, n - 1, menus) + HolidayRows(h, kws, |kws|, menus)
  }

  /** One chunk `menus[start..end]`: its matching rows written in order. */
  method MatchChunk(h: Holiday, kw: string, menus: seq<CleanItem>, start: nat, end: nat) returns (rows: seq<MatchRow>)
    requires start <= end <= |menus|
    ensures KeywordRows(h, kw, menus, start) + rows == KeywordRows(h, kw, menus, end)
  {
    rows := [];
    var j := start;
    while j < end
      invariant start <= j <= end
      invariant KeywordRows(h, kw, menus, start) + rows == KeywordRows(h, kw, menus, j)
    {
      var m := menus[j];
      ghost var before := rows;
      if Matches(kw, m) {
        rows := rows + [RowFor(h, kw, m)];
      }
      assert rows == before + (if Matches(kw, m) then [RowFor(h, kw, m)] else []);
      j := j + 1;
    }
  }

  /** The chunk loop for one keyword: chunks of CHUNK_SIZE from the start, the last one cut at the end
      of the table, so every menu item is examined exactly once. */
  method MatchKeyword(h: Holiday, kw: string, menus: seq<CleanItem>) returns (rows: seq<MatchRow>)
    ensures rows == KeywordRows(h, kw, menus, |menus|)
  {
    rows := [];
    var start := 0;
    while start < |menus|
      invariant 0 <= start && (start <= |menus| || start == 0)
      invariant rows == KeywordRows(h, kw, menus, if start < |menus| then start else |menus|)
    {
      var end := if start + CHUNK_SIZE < |menus| then start + CHUNK_SIZE else |menus|;
      var chunkRows := MatchChunk(h, kw, menus, start, end);
      rows := rows + chunkRows;
      start := end;
    }
  }

  /** `str(h["keywords"]).split(", ")`. */
  function KeywordList(h: Holiday): seq<string>
  {
    SplitOn(h.keywords, ", ")
  }

  /** The rows of one keyword as it comes from the split list: cleaned, then skipped or matched. */
  function RawKeywordRows(h: Holiday, raw: string, menus: seq<CleanItem>): seq<MatchRow>
  {
    var kw := CleanKeyword(raw);
    if Skipped(kw) then [] else KeywordRows(h, kw, menus, |menus|)
  }

  /** The body of the keyword loop. */
  method MatchRawKeyword(h: Holiday, raw: string, menus: seq<CleanItem>) returns (rows: seq<MatchRow>)
    ensures rows == RawKeywordRows(h, raw, menus)
  {
    var kw := CleanKeyword(raw);
    if Skipped(kw) {
      return [];
    }
    rows := MatchKeyword(h, kw, menus);
  }

  /** The keyword loop for one holiday. */
  method MatchHoliday(h: Holiday, menus: seq<CleanItem>) returns (rows: seq<MatchRow>)
    ensures var kws := KeywordList(h); rows == HolidayRows(h, kws, |kws|, menus)
  {
    var keywords := KeywordList(h);
    rows := [];
    var k := 0;
    while k < |keywords|
      invariant 0 <= k <= |keywords|
      invariant rows == HolidayRows(h, keywords, k, menus)
    {
      var kwRows := MatchRawKeyword(h, keywords[k], menus);
      rows := rows + kwRows;
      k := k + 1;
    }
  }

  /** The holiday loop over the prepared menu table, counting the rows written. */
  method MatchAll(holidays: seq<Holiday>, menus: seq<CleanItem>) returns (rows: seq<MatchRow>, totalWritten: nat)
    ensures rows == AllRows(holidays, |holidays|, menus)
    ensures totalWritten == |rows|
  {
    rows := [];
    totalWritten := 0;
    var i := 0;
    while i < |holidays|
      invariant 0 <= i <= |holidays|
      invariant rows == AllRows(holidays, i, menus)
      invariant totalWritten == |rows|
    {
      rows, totalWritten := MatchNextHoliday(holidays, i, menus, rows, totalWritten);
      i := i + 1;
    }
  }

  /** One turn of the holiday loop: the rows of holiday `i` appended, and their number added. */
  method MatchNextHoliday(holidays: seq<Holiday>, i: nat, menus: seq<CleanItem>, rows: seq<MatchRow>, totalWritten: nat)
    returns (rows': seq<MatchRow>, totalWritten': nat)
    requires i < |holidays| && rows == AllRows(holidays, i, menus) && totalWritten == |rows|
    ensures rows' == AllRows(holidays, i + 1, menus) && totalWritten' == |rows'|
  {
    var holidayRows := MatchHoliday(holidays[i], menus);
    rows' := rows + holidayRows;
    totalWritten' := totalWritten + |holidayRows|;
  }

  /** The matching part of `main`: the normalised columns added, then every holiday matched in order. */
  method MatchHolidaysToMenus(holidays: seq<Holiday>, rawMenus: seq<MenuItem>)
    returns (rows: seq<MatchRow>, totalWritten: nat)
    ensures rows == AllRows(holidays, |holidays|, PrepareMenus(rawMenus))
    ensures totalWritten == |rows|
  {
    var menus := PrepareMenus(rawMenus);
    rows, totalWritten := MatchAll(holidays, menus);
  }

  /** A row is written for a keyword exactly when some menu item matches it; each row carries the
      holiday, the keyword and that item. */
  lemma {:induction false} KeywordRowsIff(h: Holiday, kw: string, menus: seq<CleanItem>, n: nat)
    requires n <= |menus|
    ensures forall r :: r in KeywordRows(h, kw, menus, n) <==>
                          exists j :: 0 <= j < n && Matches(kw, menus[j]) && r == RowFor(h, kw, menus[j])
  {
    if n > 0 {
      KeywordRowsIff(h, kw, menus, n - 1);
    }
  }

  /** A keyword that is empty or shorter than four characters after cleaning writes no row. */
  lemma SkippedKeywordWritesNothing(h: Holiday, kw: string, menus: seq<CleanItem>)
    requires |CleanKeyword(kw)| < 4
    ensures HolidayRows(h, [kw], 1, menus) == []
  {
  }
}
