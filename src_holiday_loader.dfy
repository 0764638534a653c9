/**
  The older static holiday loader: its column-mapping loop, the fallbacks and the required-column
  check that follow it, the `year` fill, and its own nested `normalize_date_text`. Each column is
  renamed by a keyword test on its stripped lower-case name, so several columns can end up with the
  same name.
 */
module SrcHolidayLoader {
  import opened Wrappers
  import opened Text
  import opened DateText
  import Backend = BackendHolidayLoader

  const DEFAULT_YEAR: string := "2025"

  /** The date test as written: equal to "date", starting with "date", or containing "date". */
  predicate DateTest(lc: string)
  {
    lc == "date" || (|lc| >= 4 && lc[..4] == "date") || Contains(lc, "date")
  }

  /** The first two date tests are special cases of the third. */
  lemma DateTestIsContains(lc: string)
    ensures DateTest(lc) <==> Contains(lc, "date")
  {
    if |lc| >= 4 && lc[..4] == "date" {
      assert OccursAt(lc, "date", 0);
    }
  }

  /** The name a column gets: the first keyword test that holds on `c.strip().lower()` decides. */
  function ColumnTarget(c: string): string
  {
    var lc := Lower(Strip(c));
    if Contains(lc, "food") && Contains(lc, "holiday") then "name"
    else if DateTest(lc) then "date_raw"
    else if Contains(lc, "year") then "year"
    else if Contains(lc, "note") then "notes"
    else c
  }

  /** A column keeps its name only when none of the keywords occurs in its lower-case name; otherwise
      it gets one of the four canonical names. */
  lemma ColumnTargetCases(c: string)
    ensures var lc := Lower(Strip(c));
      ColumnTarget(c) == c || ColumnTarget(c) in {"name", "date_raw", "year", "notes"}
    ensures var lc := Lower(Strip(c));
      (!Contains(lc, "date") && !Contains(lc, "year") && !Contains(lc, "note")
       && !(Contains(lc, "food") && Contains(lc, "holiday")))
      ==> ColumnTarget(c) == c
    ensures var lc := Lower(Strip(c));
      !(Contains(lc, "food") && Contains(lc, "holiday")) && Contains(lc, "date") ==> ColumnTarget(c) == "date_raw"
  {
    DateTestIsContains(Lower(Strip(c)));
  }

  /** The loop that fills `col_map`, one entry per column. */
  method BuildColumnMap(columns: seq<string>) returns (colMap: map<string, string>)
    ensures colMap.Keys == set c | c in columns
    ensures forall c :: c in colMap ==> colMap[c] == ColumnTarget(c)
  {
    colMap := map[];
    for i := 0 to |columns|
      invariant colMap.Keys == set c | c in columns[..i]
      invariant forall c :: c in colMap ==> colMap[c] == ColumnTarget(c)
    {
      var c := columns[i];
      var lc := Lower(Strip(c));
      if Contains(lc, "food") && Contains(lc, "holiday") {
        colMap := colMap[c := "name"];
      } else if lc == "date" || (|lc| >= 4 && lc[..4] == "date") || Contains(lc, "date") {
        colMap := colMap[c := "date_raw"];
      } else if Contains(lc, "year") {
        colMap := colMap[c := "year"];
      } else if Contains(lc, "note") {
        colMap := colMap[c := "notes"];
      } else {
        colMap := colMap[c := c];
      }
      assert columns[..i + 1] == columns[..i] + [c];
    }
    assert columns[..|columns|] == columns;
  }

  /** The columns after `df.rename(columns=col_map)`. */
  function MappedColumns(columns: seq<string>): (r: seq<string>)
    ensures |r| == |columns|
  {
    seq(|columns|, i requires 0 <= i < |columns| => ColumnTarget(columns[i]))
  }

  /** The rename, column by column, with the map the loop built. */
  method RenameColumns(columns: seq<string>, colMap: map<string, string>) returns (mapped: seq<string>)
    requires forall c :: c in columns ==> c in colMap && colMap[c] == ColumnTarget(c)
    ensures mapped == MappedColumns(columns)
  {
    mapped := [];
    for i := 0 to |columns|
      invariant |mapped| == i
      invariant forall k :: 0 <= k < i ==> mapped[k] == ColumnTarget(columns[k])
    {
      mapped := mapped + [colMap[columns[i]]];
    }
  }

  /** The fallbacks: rename "Food Holidays" to `name` and "Date" to `date_raw` when those are still
      missing. */
  function Fallbacks(columns: seq<string>): seq<string>
  {
    var r := if "name" !in columns && "Food Holidays" in columns then ReplaceAll(columns, "Food Holidays", "name") else columns;
    if "date_raw" !in r && "Date" in r then ReplaceAll(r, "Date", "date_raw") else r
  }

  /** Every occurrence of `from` renamed to `to`. */
  function ReplaceAll(columns: seq<string>, from: string, to: string): (r: seq<string>)
    ensures |r| == |columns|
    ensures forall i :: 0 <= i < |columns| ==> r[i] == if columns[i] == from then to else columns[i]
  {
    seq(|columns|, i requires 0 <= i < |columns| => if columns[i] == from then to else columns[i])
  }

  /** Neither "Food Holidays" nor "Date" survives the mapping loop, so the fallbacks never rename
      anything. */
  lemma FallbacksNeverApply(columns: seq<string>)
    ensures "Food Holidays" !in MappedColumns(columns) && "Date" !in MappedColumns(columns)
    ensures Fallbacks(MappedColumns(columns)) == MappedColumns(columns)
  {
    var mapped := MappedColumns(columns);
    forall i | 0 <= i < |columns|
      ensures mapped[i] != "Food Holidays" && mapped[i] != "Date"
    {
      var c := columns[i];
      ColumnTargetCases(c);
      if ColumnTarget(c) == c {
        if c == "Food Holidays" {
          FoodHolidaysIsName();
        } else if c == "Date" {
          DateIsDateRaw();
        }
      }
    }
  }

  /** "Food Holidays" maps to `name`. */
  lemma FoodHolidaysIsName()
    ensures ColumnTarget("Food Holidays") == "name"
  {
    var c := "Food Holidays";
    StripUnchanged(c);
    assert c[..4] == "Food" && c[5..12] == "Holiday";
    FoodHolidaysKeywords(c);
  }

  /** A name spelled "Food Holidays" holds both keywords once lower-cased. */
  lemma FoodHolidaysKeywords(c: string)
    requires |c| >= 12 && c[..4] == "Food" && c[5..12] == "Holiday"
    ensures Contains(Lower(c), "food") && Contains(Lower(c), "holiday")
  {
    LowerSlice(c, 0, 4);
    LowerSlice(c, 5, 12);
    LowerWord(Lower(c)[..4], "Food", "food");
    LowerWord(Lower(c)[5..12], "Holiday", "holiday");
    assert OccursAt(Lower(c), "food", 0);
    assert OccursAt(Lower(c), "holiday", 5);
  }

  /** The two keywords lower-case as expected. */
  lemma LowerWord(lw: string, w: string, expected: string)
    requires lw == Lower(w) && ((w == "Food" && expected == "food") || (w == "Holiday" && expected == "holiday"))
    ensures lw == expected
  {
  }

  /** "Date" maps to `date_raw`. */
  lemma DateIsDateRaw()
    ensures ColumnTarget("Date") == "date_raw"
  {
    var c := "Date";
    StripUnchanged(c);
    assert Lower(c) == "date";
  }

  /** "date" maps to `date_raw` too, so a table with both "Date" and "date" gets two `date_raw` columns. */
  lemma TwoColumnsSameTarget()
    ensures ColumnTarget("date") == "date_raw"
    ensures MappedColumns(["Date", "date"]) == ["date_raw", "date_raw"]
  {
    DateIsDateRaw();
    StripUnchanged("date");
    assert Lower("date") == "date";
    assert ColumnTarget("date") == "date_raw";
  }

  /** Two columns carry the label `t`. Selecting `df[t]` then gives a DataFrame, which has no `.str`. */
  predicate Repeated(columns: seq<string>, t: string)
  {
    exists i, j :: 0 <= i < j < |columns| && columns[i] == t && columns[j] == t
  }

  /** The labels the whitespace cleaning and the year fill read through `.str`. */
  predicate StrColumn(t: string)
  {
    t == "name" || t == "date_raw" || t == "year"
  }

  /** The mapping, the fallbacks, the exit when `name` or `date_raw` is missing, and the crash of the
      whitespace cleaning and the year fill when `name`, `date_raw` or `year` labels two columns. */
  function LoadColumns(columns: seq<string>): Result<seq<string>>
  {
    var mapped := Fallbacks(MappedColumns(columns));
    if "name" !in mapped || "date_raw" !in mapped then Err(SystemExit(1))
    else if Repeated(mapped, "name") || Repeated(mapped, "date_raw") || Repeated(mapped, "year") then Err(AttributeError)
    else Ok(mapped)
  }

  /** The program exits exactly when no column maps to `name` or none maps to `date_raw`; past that
      check it crashes exactly when two columns map to the same one of `name`, `date_raw` and `year`;
      otherwise loading goes on with the mapped columns, each of those three labels held at most once. */
  lemma LoadColumnsOk(columns: seq<string>)
    ensures LoadColumns(columns) == Err(SystemExit(1)) <==>
      !((exists i :: 0 <= i < |columns| && ColumnTarget(columns[i]) == "name")
        && (exists j :: 0 <= j < |columns| && ColumnTarget(columns[j]) == "date_raw"))
    ensures LoadColumns(columns) == Err(AttributeError) <==>
      (exists i :: 0 <= i < |columns| && ColumnTarget(columns[i]) == "name")
      && (exists j :: 0 <= j < |columns| && ColumnTarget(columns[j]) == "date_raw")
      && (exists i, j :: 0 <= i < j < |columns| && ColumnTarget(columns[i]) == ColumnTarget(columns[j])
                         && StrColumn(ColumnTarget(columns[i])))
    ensures LoadColumns(columns).Ok? ==>
      LoadColumns(columns).value == MappedColumns(columns)
      && forall i, j :: 0 <= i < j < |columns| && StrColumn(ColumnTarget(columns[i])) ==>
           ColumnTarget(columns[i]) != ColumnTarget(columns[j])
  {
    FallbacksNeverApply(columns);
    var mapped := MappedColumns(columns);
    if "name" in mapped {
      var i :| 0 <= i < |mapped| && mapped[i] == "name";
      assert ColumnTarget(columns[i]) == "name";
    }
    if "date_raw" in mapped {
      var j :| 0 <= j < |mapped| && mapped[j] == "date_raw";
      assert ColumnTarget(columns[j]) == "date_raw";
    }
    if i :| 0 <= i < |columns| && ColumnTarget(columns[i]) == "name" {
      assert mapped[i] == "name";
    }
    if j :| 0 <= j < |columns| && ColumnTarget(columns[j]) == "date_raw" {
      assert mapped[j] == "date_raw";
    }
    RepeatedIff(columns);
  }

  /** A label among `name`, `date_raw` and `year` is repeated after the mapping exactly when two
      columns map to it. */
  lemma RepeatedIff(columns: seq<string>)
    ensures var mapped := MappedColumns(columns);
      (Repeated(mapped, "name") || Repeated(mapped, "date_raw") || Repeated(mapped, "year")) <==>
      exists i, j :: 0 <= i < j < |columns| && ColumnTarget(columns[i]) == ColumnTarget(columns[j])
                     && StrColumn(ColumnTarget(columns[i]))
  {
    var mapped := MappedColumns(columns);
    if i, j :| 0 <= i < j < |columns| && ColumnTarget(columns[i]) == ColumnTarget(columns[j])
               && StrColumn(ColumnTarget(columns[i])) {
      assert mapped[i] == mapped[j] == ColumnTarget(columns[i]);
      assert Repeated(mapped, ColumnTarget(columns[i]));
    }
  }

  /** A name column followed by two columns that both map to `date_raw` (such as "Food Holidays",
      "Date" and "date", by `FoodHolidaysIsName` and `TwoColumnsSameTarget`) passes the required-column
      check and then crashes. */
  lemma RepeatedDateRawCrashes(a: string, b: string, c: string)
    requires ColumnTarget(a) == "name" && ColumnTarget(b) == "date_raw" && ColumnTarget(c) == "date_raw"
    ensures LoadColumns([a, b, c]) == Err(AttributeError)
  {
    var columns := [a, b, c];
    LoadColumnsOk(columns);
    assert ColumnTarget(columns[0]) == "name";
    assert 0 <= 1 < 2 < |columns| && ColumnTarget(columns[1]) == ColumnTarget(columns[2]) == "date_raw";
  }

  /** The column part of the loader as it runs: the `col_map` loop, the rename, the fallbacks, the
      exit when a required column is missing, and the crash on a repeated `name`, `date_raw` or `year`. */
  method PrepareColumns(columns: seq<string>) returns (r: Result<seq<string>>)
    ensures r == LoadColumns(columns)
  {
    var colMap := BuildColumnMap(columns);
    var mapped := RenameColumns(columns, colMap);
    if "name" !in mapped && "Food Holidays" in mapped {
      mapped := ReplaceAll(mapped, "Food Holidays", "name");
    }
    if "date_raw" !in mapped && "Date" in mapped {
      mapped := ReplaceAll(mapped, "Date", "date_raw");
    }
    if "name" !in mapped || "date_raw" !in mapped {
      return Err(SystemExit(1));
    }
    if Repeated(mapped, "name") || Repeated(mapped, "date_raw") || Repeated(mapped, "year") {
      return Err(AttributeError);
    }
    r := Ok(mapped);
  }

  /** A row's year after the fill: "2025" when the table has no year column; otherwise the cell as
      text (NaN becomes "nan" before the fill can see it), stripped, with "" replaced by "2025". */
  function FilledYear(hasYearColumn: bool, cell: Option<string>): string
  {
    if !hasYearColumn then DEFAULT_YEAR
    else
      var t := Strip(if cell.None? then "nan" else cell.value);
      if t == "" then DEFAULT_YEAR else t
  }

  /** The filled year is never empty, is "2025" for a missing column or a blank cell, and keeps any other
      text without its surrounding whitespace. */
  lemma FilledYearShape(hasYearColumn: bool, cell: Option<string>)
    ensures FilledYear(hasYearColumn, cell) != ""
    ensures !hasYearColumn ==> FilledYear(hasYearColumn, cell) == "2025"
    ensures hasYearColumn && cell.Some? && Strip(cell.value) == "" ==> FilledYear(hasYearColumn, cell) == "2025"
    ensures hasYearColumn && cell.Some? && Strip(cell.value) != "" ==> FilledYear(hasYearColumn, cell) == Strip(cell.value)
    ensures FilledYear(true, None) == "nan"
  {
    StripUnchanged("nan");
  }

  /** The nested `normalize_date_text`, on the row's `date_raw` text and filled year. */
  function NormalizeDateText(dateRaw: string, year: string): string
  {
    var txt := Strip(dateRaw);
    var m := KnownMonthDay(txt);
    if m.Some? then
      var mon := Lower(m.value.word);
      match ParseInt(year)
      case Some(y) => IsoDate(y, MonthNumber(mon).value, m.value.day)
      case None => Capitalize(mon) + " " + IntToString(m.value.day) + " " + year
    else if MentionsMonth(txt) then txt + " " + year
    else txt + " " + year
  }

  /** Without a known "Month Day", the month-name branch and the fallback give the same text, so the
      result is always the stripped text, a space and the year; empty text gives " " and the year. */
  lemma NormalizeWithoutMonthDay(dateRaw: string, year: string)
    requires KnownMonthDay(Strip(dateRaw)).None?
    ensures NormalizeDateText(dateRaw, year) == Strip(dateRaw) + " " + year
    ensures Strip(dateRaw) == "" ==> NormalizeDateText(dateRaw, year) == " " + year
  {
  }

  /** A known "Month Day" with a year in 0..9999 gives a `YYYY-MM-DD` that reads back as that year, the
      month's number and the matched day. */
  lemma NormalizeIsoDate(dateRaw: string, year: string)
    requires KnownMonthDay(Strip(dateRaw)).Some?
    requires ParseInt(year).Some? && 0 <= ParseInt(year).value < 10000
    ensures var r := NormalizeDateText(dateRaw, year);
      var m := KnownMonthDay(Strip(dateRaw)).value;
      |r| == 10 && r[4] == '-' && r[7] == '-'
      && ParseInt(r[..4]) == ParseInt(year)
      && ParseInt(r[5..7]) == MonthNumber(Lower(m.word))
      && ParseInt(r[8..]) == Some(m.day)
  {
    var txt := Strip(dateRaw);
    var m := KnownMonthDay(txt).value;
    var at := SearchMonthDayFromSpec(txt, 0);
    MonthDayAtShape(txt, at);
    MonthTable();
    IsoDateReadsBack(ParseInt(year).value, MonthNumber(Lower(m.word)).value, m.day);
  }

  /** Against the backend loader, on the same date text and a non-blank year without surrounding
      whitespace: both give the same text for a known "Month Day" and for a text naming a month;
      they differ on empty text ("" against " " and the year) and on text that already holds a
      four-digit year and no month name (the backend keeps it, this loader appends the year). */
  lemma CompareWithBackend(d: string, y: string)
    requires y != "" && Strip(y) == y
    ensures Strip(d) != "" && (KnownMonthDay(Strip(d)).Some? || MentionsMonth(Strip(d))) ==>
      Backend.NormalizeDateText(Backend.DateRow(Some(d), None, Some(y))) == NormalizeDateText(d, y)
    ensures Strip(d) == "" ==>
      Backend.NormalizeDateText(Backend.DateRow(Some(d), None, Some(y))) == "" && NormalizeDateText(d, y) == " " + y
    ensures Strip(d) != "" && KnownMonthDay(Strip(d)).None? && !MentionsMonth(Strip(d)) && HasFourDigitYear(Strip(d)) ==>
      Backend.NormalizeDateText(Backend.DateRow(Some(d), None, Some(y))) == Strip(d)
      && NormalizeDateText(d, y) == Strip(d) + " " + y
  {
    var row := Backend.DateRow(Some(d), None, Some(y));
    assert Backend.RawDateText(row) == Strip(d);
    assert Backend.YearText(Some(y)) == y;
  }
}
