/**
  The backend static holiday loader's two transformations: `map_columns_case_insensitive`, which picks
  the source CSV's columns by their stripped lower-case names and renames them to the canonical ones,
  and `normalize_date_text`, which turns a row's free date text into `YYYY-MM-DD` where it can. The
  table is reduced to what these read: the list of column names, and per row the `date_raw`,
  `short_date` and `year` cells (None on `date_raw` and `short_date` when the column is missing or
  the cell is NaN; None on `year` only when the column is missing, a NaN year being the text "nan").
 */
module BackendHolidayLoader {
  import opened Wrappers
  import opened Text
  import opened DateText

  /** The year used when a row has none. */
  const DEFAULT_YEAR: string := "2025"

  // ---------------------------------------------------------------------------------------------
  // Column mapping
  // ---------------------------------------------------------------------------------------------

  const NAME_CANDIDATES: seq<string> := ["food holidays", "food_holidays", "food-holidays", "holiday", "name", "title"]
  const DATE_CANDIDATES: seq<string> := ["date", "short date", "short_date", "shortdate", "date_raw"]
  const YEAR_CANDIDATES: seq<string> := ["year"]
  const NOTES_CANDIDATES: seq<string> := ["notes", "note"]

  /** The key a column is looked up by: `c.strip().lower()`. */
  function LowerKey(c: string): string
  {
    Lower(Strip(c))
  }

  /** `{c.strip().lower(): c for c in columns[..n]}`: a later column with the same key replaces an
      earlier one. */
  function LowerMap(columns: seq<string>, n: nat): map<string, string>
    requires n <= |columns|
  {
    if n == 0 then map[] else LowerMap(columns, n - 1)[LowerKey(columns[n - 1]) := columns[n - 1]]
  }

  /** The keys are exactly the columns' keys, and each key leads back to a column with that key. */
  lemma {:induction false} LowerMapKeys(columns: seq<string>, n: nat)
    requires n <= |columns|
    ensures forall k :: k in LowerMap(columns, n) <==> exists i :: 0 <= i < n && LowerKey(columns[i]) == k
    ensures forall k :: k in LowerMap(columns, n) ==> LowerKey(LowerMap(columns, n)[k]) == k
  {
    if n > 0 {
      LowerMapKeys(columns, n - 1);
      var k0 := LowerKey(columns[n - 1]);
      assert LowerMap(columns, n) == LowerMap(columns, n - 1)[k0 := columns[n - 1]];
    }
  }

  /** Of several columns with the same key, the last one is the one looked up. */
  lemma {:induction false} LowerMapLastWins(columns: seq<string>, n: nat, i: nat)
    requires i < n <= |columns|
    requires forall j :: i < j < n ==> LowerKey(columns[j]) != LowerKey(columns[i])
    ensures LowerKey(columns[i]) in LowerMap(columns, n) && LowerMap(columns, n)[LowerKey(columns[i])] == columns[i]
  {
    if i < n - 1 {
      LowerMapLastWins(columns, n - 1, i);
    }
  }

  /** The first candidate, in the listed order, that names a column. */
  function FirstCandidate(candidates: seq<string>, lowerMap: map<string, string>): (r: Option<string>)
    ensures r.Some? ==> r.value in candidates && r.value in lowerMap
    ensures r.None? ==> forall c :: c in candidates ==> c !in lowerMap
  {
    if |candidates| == 0 then None
    else if candidates[0] in lowerMap then Some(candidates[0])
    else FirstCandidate(candidates[1..], lowerMap)
  }

  /** A present candidate wins exactly when no earlier candidate is present. */
  lemma {:induction false} FirstCandidateWins(candidates: seq<string>, lowerMap: map<string, string>, i: nat)
    requires i < |candidates| && candidates[i] in lowerMap
    requires forall j :: 0 <= j < i ==> candidates[j] !in lowerMap
    ensures FirstCandidate(candidates, lowerMap) == Some(candidates[i])
  {
    if i > 0 {
      assert candidates[0] !in lowerMap;
      FirstCandidateWins(candidates[1..], lowerMap, i - 1);
    }
  }

  /** One candidate loop: the first present candidate's column is renamed to `target`. */
  function RenameFirst(rename: map<string, string>, lowerMap: map<string, string>, candidates: seq<string>, target: string)
    : map<string, string>
  {
    match FirstCandidate(candidates, lowerMap)
    case None => rename
    case Some(k) => rename[lowerMap[k] := target]
  }

  /** The month rule: "month" with "month number" renames both; "month" alone renames one. */
  function RenameMonth(rename: map<string, string>, lowerMap: map<string, string>): map<string, string>
  {
    if "month" in lowerMap && "month number" in lowerMap then
      rename[lowerMap["month"] := "month_name"][lowerMap["month number"] := "month_number"]
    else if "month" in lowerMap then rename[lowerMap["month"] := "month_name"]
    else rename
  }

  /** The day-of-month and day-of-week columns. */
  function RenameDays(rename: map<string, string>, lowerMap: map<string, string>): map<string, string>
  {
    var r := if "day of month" in lowerMap then rename[lowerMap["day of month"] := "day_of_month"] else rename;
    if "day of week" in lowerMap then r[lowerMap["day of week"] := "day_of_week"] else r
  }

  /** The `rename` dictionary `map_columns_case_insensitive` builds. */
  function RenameMap(lowerMap: map<string, string>): map<string, string>
  {
    RenameDays(RenameMonth(RenameCandidates(lowerMap), lowerMap), lowerMap)
  }

  /** The candidate loops' dictionary, before the month and day rules. */
  function RenameCandidates(lowerMap: map<string, string>): map<string, string>
  {
    var r := RenameFirst(map[], lowerMap, NAME_CANDIDATES, "name");
    var r := RenameFirst(r, lowerMap, DATE_CANDIDATES, "date_raw");
    var r := RenameFirst(r, lowerMap, YEAR_CANDIDATES, "year");
    RenameFirst(r, lowerMap, NOTES_CANDIDATES, "notes")
  }

  /** `df.rename(columns=rename)` on the list of names. */
  function ApplyRename(columns: seq<string>, rename: map<string, string>): (r: seq<string>)
    ensures |r| == |columns|
    ensures forall i :: 0 <= i < |columns| ==> r[i] == (if columns[i] in rename then rename[columns[i]] else columns[i])
  {
    seq(|columns|, i requires 0 <= i < |columns| => if columns[i] in rename then rename[columns[i]] else columns[i])
  }

  /** The columns after `map_columns_case_insensitive`. */
  function MappedColumns(columns: seq<string>): seq<string>
  {
    ApplyRename(columns, RenameMap(LowerMap(columns, |columns|)))
  }

  /** One candidate loop as the source runs it: walk the candidates, rename on the first hit, stop. */
  method RenameFirstCandidate(rename: map<string, string>, lowerMap: map<string, string>, candidates: seq<string>, target: string)
    returns (rename': map<string, string>)
    ensures rename' == RenameFirst(rename, lowerMap, candidates, target)
  {
    rename' := rename;
    var i := 0;
    while i < |candidates|
      invariant 0 <= i <= |candidates|
      invariant FirstCandidate(candidates, lowerMap) == FirstCandidate(candidates[i..], lowerMap)
      invariant rename' == rename
    {
      if candidates[i] in lowerMap {
        rename' := rename[lowerMap[candidates[i]] := target];
        return;
      }
      assert candidates[i..][1..] == candidates[i + 1..];
      i := i + 1;
    }
  }

  /** Every lower-case name the mapping looks at. */
  const LISTED_KEYS: set<string> := set k | k in NAME_CANDIDATES + DATE_CANDIDATES + YEAR_CANDIDATES + NOTES_CANDIDATES
    + ["month", "month number", "day of month", "day of week"]

  /** A lookup whose entries lead back to columns with their key. */
  predicate KeysConsistent(lowerMap: map<string, string>, key: string -> string)
  {
    forall k :: k in lowerMap ==> key(lowerMap[k]) == k
  }

  /** A candidate loop renames only a column whose key is one of its candidates, and leaves every
      other entry as it was. */
  lemma RenameFirstFrame(r: map<string, string>, lowerMap: map<string, string>, key: string -> string,
                         candidates: seq<string>, target: string)
    requires KeysConsistent(lowerMap, key)
    ensures var r' := RenameFirst(r, lowerMap, candidates, target);
      (forall c :: c in r' ==> c in r || (key(c) in candidates && key(c) in lowerMap && lowerMap[key(c)] == c))
      && (forall c :: c in r && key(c) !in candidates ==> c in r' && r'[c] == r[c])
  {
  }

  /** The month rule touches only the "month" and "month number" columns. */
  lemma RenameMonthFrame(r: map<string, string>, lowerMap: map<string, string>, key: string -> string)
    requires KeysConsistent(lowerMap, key)
    ensures var r' := RenameMonth(r, lowerMap);
      (forall c :: c in r' ==> c in r || (key(c) in ["month", "month number"] && key(c) in lowerMap && lowerMap[key(c)] == c))
      && (forall c :: c in r && key(c) !in ["month", "month number"] ==> c in r' && r'[c] == r[c])
  {
  }

  /** The day rules touch only the "day of month" and "day of week" columns. */
  lemma RenameDaysFrame(r: map<string, string>, lowerMap: map<string, string>, key: string -> string)
    requires KeysConsistent(lowerMap, key)
    ensures var r' := RenameDays(r, lowerMap);
      (forall c :: c in r' ==> c in r || (key(c) in ["day of month", "day of week"] && key(c) in lowerMap && lowerMap[key(c)] == c))
      && (forall c :: c in r && key(c) !in ["day of month", "day of week"] ==> c in r' && r'[c] == r[c])
  {
  }

  /** Only columns whose key is listed are renamed, and only the one the lookup holds for that key. */
  lemma RenameMapListedOnly(lowerMap: map<string, string>, key: string -> string)
    requires KeysConsistent(lowerMap, key)
    ensures forall c :: c in RenameMap(lowerMap) ==>
      key(c) in LISTED_KEYS && key(c) in lowerMap && lowerMap[key(c)] == c
  {
    var r1 := RenameFirst(map[], lowerMap, NAME_CANDIDATES, "name");
    var r2 := RenameFirst(r1, lowerMap, DATE_CANDIDATES, "date_raw");
    var r3 := RenameFirst(r2, lowerMap, YEAR_CANDIDATES, "year");
    var r4 := RenameFirst(r3, lowerMap, NOTES_CANDIDATES, "notes");
    var r5 := RenameMonth(r4, lowerMap);
    RenameFirstFrame(map[], lowerMap, key, NAME_CANDIDATES, "name");
    RenameFirstFrame(r1, lowerMap, key, DATE_CANDIDATES, "date_raw");
    RenameFirstFrame(r2, lowerMap, key, YEAR_CANDIDATES, "year");
    RenameFirstFrame(r3, lowerMap, key, NOTES_CANDIDATES, "notes");
    RenameMonthFrame(r4, lowerMap, key);
    RenameDaysFrame(r5, lowerMap, key);
  }

  /** No name is listed in two groups. */
  lemma CandidateGroupsDisjoint()
    ensures forall k :: k in NAME_CANDIDATES ==> k !in DATE_CANDIDATES + YEAR_CANDIDATES + NOTES_CANDIDATES
    ensures forall k :: k in DATE_CANDIDATES ==> k !in YEAR_CANDIDATES + NOTES_CANDIDATES
    ensures forall k :: k in YEAR_CANDIDATES ==> k !in NOTES_CANDIDATES
    ensures forall k :: k in NAME_CANDIDATES + DATE_CANDIDATES + YEAR_CANDIDATES + NOTES_CANDIDATES ==>
      k !in ["month", "month number", "day of month", "day of week"]
  {
  }

  /** An entry for a column whose key the month and day rules do not look at survives them. */
  lemma SurvivesMonthAndDays(r: map<string, string>, lowerMap: map<string, string>, key: string -> string, c: string)
    requires KeysConsistent(lowerMap, key)
    requires c in r && key(c) !in ["month", "month number", "day of month", "day of week"]
    ensures var r' := RenameDays(RenameMonth(r, lowerMap), lowerMap); c in r' && r'[c] == r[c]
  {
    RenameMonthFrame(r, lowerMap, key);
    RenameDaysFrame(RenameMonth(r, lowerMap), lowerMap, key);
  }

  /** The name loop's column ends up named "name". */
  lemma RenameMapName(lowerMap: map<string, string>, key: string -> string)
    requires KeysConsistent(lowerMap, key)
    ensures var f := FirstCandidate(NAME_CANDIDATES, lowerMap);
      f.Some? ==> lowerMap[f.value] in RenameMap(lowerMap) && RenameMap(lowerMap)[lowerMap[f.value]] == "name"
  {
    var f := FirstCandidate(NAME_CANDIDATES, lowerMap);
    if f.Some? {
      var c := lowerMap[f.value];
      CandidateGroupsDisjoint();
      var r1 := RenameFirst(map[], lowerMap, NAME_CANDIDATES, "name");
      var r2 := RenameFirst(r1, lowerMap, DATE_CANDIDATES, "date_raw");
      var r3 := RenameFirst(r2, lowerMap, YEAR_CANDIDATES, "year");
      var r4 := RenameFirst(r3, lowerMap, NOTES_CANDIDATES, "notes");
      assert key(c) == f.value && f.value in NAME_CANDIDATES;
      assert c in r1 && r1[c] == "name";
      RenameFirstFrame(r1, lowerMap, key, DATE_CANDIDATES, "date_raw");
      RenameFirstFrame(r2, lowerMap, key, YEAR_CANDIDATES, "year");
      RenameFirstFrame(r3, lowerMap, key, NOTES_CANDIDATES, "notes");
      assert c in r4 && r4[c] == "name";
      SurvivesMonthAndDays(r4, lowerMap, key, c);
    }
  }

  /** The date loop's column ends up named "date_raw". */
  lemma RenameMapDate(lowerMap: map<string, string>, key: string -> string)
    requires KeysConsistent(lowerMap, key)
    ensures var f := FirstCandidate(DATE_CANDIDATES, lowerMap);
      f.Some? ==> lowerMap[f.value] in RenameMap(lowerMap) && RenameMap(lowerMap)[lowerMap[f.value]] == "date_raw"
  {
    var f := FirstCandidate(DATE_CANDIDATES, lowerMap);
    if f.Some? {
      var c := lowerMap[f.value];
      CandidateGroupsDisjoint();
      var r1 := RenameFirst(map[], lowerMap, NAME_CANDIDATES, "name");
      var r2 := RenameFirst(r1, lowerMap, DATE_CANDIDATES, "date_raw");
      var r3 := RenameFirst(r2, lowerMap, YEAR_CANDIDATES, "year");
      var r4 := RenameFirst(r3, lowerMap, NOTES_CANDIDATES, "notes");
      assert key(c) == f.value && f.value in DATE_CANDIDATES;
      assert c in r2 && r2[c] == "date_raw";
      RenameFirstFrame(r2, lowerMap, key, YEAR_CANDIDATES, "year");
      RenameFirstFrame(r3, lowerMap, key, NOTES_CANDIDATES, "notes");
      assert c in r4 && r4[c] == "date_raw";
      SurvivesMonthAndDays(r4, lowerMap, key, c);
    }
  }

  /** The year loop's column ends up named "year". */
  lemma RenameMapYear(lowerMap: map<string, string>, key: string -> string)
    requires KeysConsistent(lowerMap, key)
    ensures var f := FirstCandidate(YEAR_CANDIDATES, lowerMap);
      f.Some? ==> lowerMap[f.value] in RenameMap(lowerMap) && RenameMap(lowerMap)[lowerMap[f.value]] == "year"
  {
    var f := FirstCandidate(YEAR_CANDIDATES, lowerMap);
    if f.Some? {
      var c := lowerMap[f.value];
      CandidateGroupsDisjoint();
      var r1 := RenameFirst(map[], lowerMap, NAME_CANDIDATES, "name");
      var r2 := RenameFirst(r1, lowerMap, DATE_CANDIDATES, "date_raw");
      var r3 := RenameFirst(r2, lowerMap, YEAR_CANDIDATES, "year");
      var r4 := RenameFirst(r3, lowerMap, NOTES_CANDIDATES, "notes");
      assert key(c) == f.value && f.value in YEAR_CANDIDATES;
      assert c in r3 && r3[c] == "year";
      RenameFirstFrame(r3, lowerMap, key, NOTES_CANDIDATES, "notes");
      assert c in r4 && r4[c] == "year";
      SurvivesMonthAndDays(r4, lowerMap, key, c);
    }
  }

  /** The notes loop's column ends up named "notes". */
  lemma RenameMapNotes(lowerMap: map<string, string>, key: string -> string)
    requires KeysConsistent(lowerMap, key)
    ensures var f := FirstCandidate(NOTES_CANDIDATES, lowerMap);
      f.Some? ==> lowerMap[f.value] in RenameMap(lowerMap) && RenameMap(lowerMap)[lowerMap[f.value]] == "notes"
  {
    var f := FirstCandidate(NOTES_CANDIDATES, lowerMap);
    if f.Some? {
      var c := lowerMap[f.value];
      CandidateGroupsDisjoint();
      var r1 := RenameFirst(map[], lowerMap, NAME_CANDIDATES, "name");
      var r2 := RenameFirst(r1, lowerMap, DATE_CANDIDATES, "date_raw");
      var r3 := RenameFirst(r2, lowerMap, YEAR_CANDIDATES, "year");
      var r4 := RenameFirst(r3, lowerMap, NOTES_CANDIDATES, "notes");
      assert key(c) == f.value && f.value in NOTES_CANDIDATES;
      assert c in r4 && r4[c] == "notes";
      assert c in r4 && r4[c] == "notes";
      SurvivesMonthAndDays(r4, lowerMap, key, c);
    }
  }

  /** "month" becomes `month_name`, and "month number" becomes `month_number` when "month" is there too. */
  lemma RenameMapMonth(lowerMap: map<string, string>, key: string -> string)
    requires KeysConsistent(lowerMap, key)
    ensures "month" in lowerMap ==>
      lowerMap["month"] in RenameMap(lowerMap) && RenameMap(lowerMap)[lowerMap["month"]] == "month_name"
    ensures "month" in lowerMap && "month number" in lowerMap ==>
      lowerMap["month number"] in RenameMap(lowerMap) && RenameMap(lowerMap)[lowerMap["month number"]] == "month_number"
  {
    MonthRule(RenameCandidates(lowerMap), lowerMap, key);
  }

  /** The month and day rules, applied to any dictionary. */
  lemma MonthRule(r: map<string, string>, lowerMap: map<string, string>, key: string -> string)
    requires KeysConsistent(lowerMap, key)
    ensures var r' := RenameDays(RenameMonth(r, lowerMap), lowerMap);
      ("month" in lowerMap ==> lowerMap["month"] in r' && r'[lowerMap["month"]] == "month_name")
      && ("month" in lowerMap && "month number" in lowerMap ==>
            lowerMap["month number"] in r' && r'[lowerMap["month number"]] == "month_number")
  {
    var r5 := RenameMonth(r, lowerMap);
    RenameDaysFrame(r5, lowerMap, key);
    if "month" in lowerMap {
      var c := lowerMap["month"];
      assert key(c) == "month";
      if "month number" in lowerMap {
        assert key(lowerMap["month number"]) == "month number";
      }
      assert c in r5 && r5[c] == "month_name";
    }
  }

  /** A "month number" column without a "month" column keeps its own name. */
  lemma RenameMapMonthNumberAlone(lowerMap: map<string, string>, key: string -> string)
    requires KeysConsistent(lowerMap, key)
    ensures "month" !in lowerMap && "month number" in lowerMap ==> lowerMap["month number"] !in RenameMap(lowerMap)
  {
    if "month" !in lowerMap && "month number" in lowerMap {
      var c := lowerMap["month number"];
      assert key(c) == "month number";
      assert "month number" !in NAME_CANDIDATES && "month number" !in DATE_CANDIDATES;
      assert "month number" !in YEAR_CANDIDATES && "month number" !in NOTES_CANDIDATES;
      var r1 := RenameFirst(map[], lowerMap, NAME_CANDIDATES, "name");
      var r2 := RenameFirst(r1, lowerMap, DATE_CANDIDATES, "date_raw");
      var r3 := RenameFirst(r2, lowerMap, YEAR_CANDIDATES, "year");
      var r4 := RenameFirst(r3, lowerMap, NOTES_CANDIDATES, "notes");
      RenameFirstFrame(map[], lowerMap, key, NAME_CANDIDATES, "name");
      RenameFirstFrame(r1, lowerMap, key, DATE_CANDIDATES, "date_raw");
      RenameFirstFrame(r2, lowerMap, key, YEAR_CANDIDATES, "year");
      RenameFirstFrame(r3, lowerMap, key, NOTES_CANDIDATES, "notes");
      assert c !in r4;
      RenameDaysFrame(RenameMonth(r4, lowerMap), lowerMap, key);
    }
  }

  /** The four candidate groups, in the order their loops run, and their targets. */
  const CANDIDATE_GROUPS: seq<seq<string>> := [NAME_CANDIDATES, DATE_CANDIDATES, YEAR_CANDIDATES, NOTES_CANDIDATES]
  const GROUP_TARGETS: seq<string> := ["name", "date_raw", "year", "notes"]

  /** `LowerKey` keeps the lookup consistent. */
  lemma LookupConsistent(columns: seq<string>)
    ensures KeysConsistent(LowerMap(columns, |columns|), LowerKey)
    ensures forall k :: k in LowerMap(columns, |columns|) <==> exists i :: 0 <= i < |columns| && LowerKey(columns[i]) == k
  {
    LowerMapKeys(columns, |columns|);
  }

  /** The column `i` is the last one with its key. */
  predicate LastWithKey(columns: seq<string>, i: nat)
    requires i < |columns|
  {
    forall j :: i < j < |columns| ==> LowerKey(columns[j]) != LowerKey(columns[i])
  }

  /** In the lookup, the `j`-th candidate of a group, with no earlier candidate present, has its column
      renamed to the group's target. */
  lemma LookupCandidateRenamed(lowerMap: map<string, string>, key: string -> string, group: nat, j: nat)
    requires KeysConsistent(lowerMap, key)
    requires group < 4 && j < |CANDIDATE_GROUPS[group]|
    requires CANDIDATE_GROUPS[group][j] in lowerMap
    requires forall m :: 0 <= m < j ==> CANDIDATE_GROUPS[group][m] !in lowerMap
    ensures var c := lowerMap[CANDIDATE_GROUPS[group][j]];
      c in RenameMap(lowerMap) && RenameMap(lowerMap)[c] == GROUP_TARGETS[group]
  {
    var g := CANDIDATE_GROUPS[group];
    FirstCandidateWins(g, lowerMap, j);
    if group == 0 {
      RenameMapName(lowerMap, key);
    } else if group == 1 {
      RenameMapDate(lowerMap, key);
    } else if group == 2 {
      RenameMapYear(lowerMap, key);
    } else {
      RenameMapNotes(lowerMap, key);
    }
  }

  /** Column `i` whose key is the `j`-th candidate of a group, when no column has an earlier candidate
      of that group as its key, and no later column shares its key, gets the group's target name. */
  lemma MappedCandidateColumn(columns: seq<string>, i: nat, group: nat, j: nat)
    requires i < |columns| && group < 4 && j < |CANDIDATE_GROUPS[group]|
    requires LowerKey(columns[i]) == CANDIDATE_GROUPS[group][j] && LastWithKey(columns, i)
    requires forall m :: 0 <= m < |columns| ==> LowerKey(columns[m]) !in CANDIDATE_GROUPS[group][..j]
    ensures MappedColumns(columns)[i] == GROUP_TARGETS[group]
  {
    var g := CANDIDATE_GROUPS[group];
    var lowerMap := LowerMap(columns, |columns|);
    LookupConsistent(columns);
    LowerMapLastWins(columns, |columns|, i);
    forall m | 0 <= m < j
      ensures g[m] !in lowerMap
    {
      assert g[m] in g[..j];
    }
    LookupCandidateRenamed(lowerMap, LowerKey, group, j);
  }

  /** The last "month" column becomes `month_name`; the last "month number" column becomes
      `month_number` exactly when some column is "month", and keeps its name otherwise. */
  lemma MappedMonthColumns(columns: seq<string>, i: nat)
    requires i < |columns| && LastWithKey(columns, i)
    ensures LowerKey(columns[i]) == "month" ==> MappedColumns(columns)[i] == "month_name"
    ensures LowerKey(columns[i]) == "month number" ==>
      MappedColumns(columns)[i]
        == if exists m :: 0 <= m < |columns| && LowerKey(columns[m]) == "month" then "month_number" else columns[i]
  {
    var lowerMap := LowerMap(columns, |columns|);
    LookupConsistent(columns);
    LowerMapLastWins(columns, |columns|, i);
    RenameMapMonth(lowerMap, LowerKey);
    RenameMapMonthNumberAlone(lowerMap, LowerKey);
  }

  /** Column `j`, the last with column `i`'s key, is spelled differently from it. */
  predicate ShadowedBy(columns: seq<string>, i: nat, j: nat)
    requires i < j < |columns|
  {
    LastWithKey(columns, j) && LowerKey(columns[j]) == LowerKey(columns[i]) && columns[j] != columns[i]
  }

  /** A column whose key is not listed keeps its name; so does one shadowed by a later, differently
      spelled column with the same key. */
  lemma MappedColumnKept(columns: seq<string>, i: nat)
    requires i < |columns|
    ensures LowerKey(columns[i]) !in LISTED_KEYS ==> MappedColumns(columns)[i] == columns[i]
    ensures (exists j :: i < j < |columns| && ShadowedBy(columns, i, j)) ==> MappedColumns(columns)[i] == columns[i]
  {
    var lowerMap := LowerMap(columns, |columns|);
    LookupConsistent(columns);
    RenameMapListedOnly(lowerMap, LowerKey);
    if j :| i < j < |columns| && ShadowedBy(columns, i, j) {
      LowerMapLastWins(columns, |columns|, j);
    }
  }

  /** The lower-case lookup, built column by column. */
  method BuildLowerMap(columns: seq<string>) returns (lowerMap: map<string, string>)
    ensures lowerMap == LowerMap(columns, |columns|)
  {
    lowerMap := map[];
    for n := 0 to |columns|
      invariant lowerMap == LowerMap(columns, n)
    {
      lowerMap := lowerMap[LowerKey(columns[n]) := columns[n]];
    }
  }

  /** The `rename` dictionary, built step by step. */
  method BuildRename(lowerMap: map<string, string>) returns (rename: map<string, string>)
    ensures rename == RenameMap(lowerMap)
  {
    rename := map[];
    rename := RenameFirstCandidate(rename, lowerMap, NAME_CANDIDATES, "name");
    rename := RenameFirstCandidate(rename, lowerMap, DATE_CANDIDATES, "date_raw");
    rename := RenameFirstCandidate(rename, lowerMap, YEAR_CANDIDATES, "year");
    rename := RenameFirstCandidate(rename, lowerMap, NOTES_CANDIDATES, "notes");
    assert rename == RenameCandidates(lowerMap);
    ghost var candidates := rename;
    if "month" in lowerMap && "month number" in lowerMap {
      rename := rename[lowerMap["month"] := "month_name"];
      rename := rename[lowerMap["month number"] := "month_number"];
    } else if "month" in lowerMap {
      rename := rename[lowerMap["month"] := "month_name"];
    }
    assert rename == RenameMonth(candidates, lowerMap);
    if "day of month" in lowerMap {
      rename := rename[lowerMap["day of month"] := "day_of_month"];
    }
    if "day of week" in lowerMap {
      rename := rename[lowerMap["day of week"] := "day_of_week"];
    }
  }

  /** `df.rename(columns=rename)`, column by column. */
  method RenameColumns(columns: seq<string>, rename: map<string, string>) returns (mapped: seq<string>)
    ensures mapped == ApplyRename(columns, rename)
  {
    mapped := [];
    for i := 0 to |columns|
      invariant |mapped| == i
      invariant forall k :: 0 <= k < i ==> mapped[k] == (if columns[k] in rename then rename[columns[k]] else columns[k])
    {
      var c := columns[i];
      mapped := mapped + [if c in rename then rename[c] else c];
    }
  }

  /** `map_columns_case_insensitive` over the list of column names: the lower-case lookup, the four
      candidate loops, the month and day rules, then the rename. */
  method MapColumnsCaseInsensitive(columns: seq<string>) returns (mapped: seq<string>)
    ensures mapped == MappedColumns(columns)
  {
    var lowerMap := BuildLowerMap(columns);
    var rename := BuildRename(lowerMap);
    mapped := RenameColumns(columns, rename);
  }

  // ---------------------------------------------------------------------------------------------
  // Date text
  // ---------------------------------------------------------------------------------------------

  /** The cells `normalize_date_text` reads. On `dateRaw` and `shortDate`, None is a missing column or
      a NaN cell, both skipped by the `pd.notna` tests. On `year`, None is only a missing column: a NaN
      year is truthy, so `str(...)` makes it Some("nan"). */
  datatype DateRow = DateRow(dateRaw: Option<string>, shortDate: Option<string>, year: Option<string>)

  /** The date text: `date_raw` when present, else `short_date`, stripped; "" when neither is there. */
  function RawDateText(row: DateRow): string
  {
    if row.dateRaw.Some? then Strip(row.dateRaw.value)
    else if row.shortDate.Some? then Strip(row.shortDate.value)
    else ""
  }

  /** `str(row.get('year') or DEFAULT_YEAR).strip()`: a missing or empty year is the default. */
  function YearText(year: Option<string>): string
  {
    if year.None? || year.value == "" then DEFAULT_YEAR else Strip(year.value)
  }

  /** `normalize_date_text`. */
  function NormalizeDateText(row: DateRow): string
  {
    var raw := RawDateText(row);
    if raw == "" then ""
    else
      var year := YearText(row.year);
      var m := KnownMonthDay(raw);
      if m.Some? then
        var mon := Lower(m.value.word);
        match ParseInt(year)
        case Some(y) => IsoDate(y, MonthNumber(mon).value, m.value.day)
        case None => Capitalize(mon) + " " + IntToString(m.value.day) + " " + year
      else if MentionsMonth(raw) then raw + " " + year
      else if HasFourDigitYear(raw) then raw
      else raw + " " + year
  }

  /** The result is empty exactly when the row has no date text. */
  lemma NormalizeEmptyIff(row: DateRow)
    ensures NormalizeDateText(row) == "" <==> RawDateText(row) == ""
  {
    var raw := RawDateText(row);
    if raw != "" {
      var m := KnownMonthDay(raw);
      if m.Some? {
        match ParseInt(YearText(row.year))
        case Some(y) =>
          assert |IsoDate(y, MonthNumber(Lower(m.value.word)).value, m.value.day)| >= 10;
        case None =>
      }
    }
  }

  /** A present `date_raw` decides the text, whatever `short_date` holds, even when it strips to "". */
  lemma NormalizePrefersDateRaw(row: DateRow, shortDate: Option<string>)
    requires row.dateRaw.Some?
    ensures NormalizeDateText(row) == NormalizeDateText(row.(shortDate := shortDate))
  {
  }

  /** A missing or empty year is "2025"; a blank one is not empty, so it strips to "" instead. */
  lemma YearTextDefault()
    ensures YearText(None) == "2025" && YearText(Some("")) == "2025"
    ensures YearText(Some(" 2024 ")) == "2024" && YearText(Some("  ")) == ""
  {
    StripUnchanged("2024");
  }

  /** A known "Month Day" with a year in 0..9999 gives a ten-character `YYYY-MM-DD` that reads back as
      that year, the month's number and the matched day, whatever the day is (no range check). */
  lemma NormalizeIsoDate(row: DateRow)
    requires RawDateText(row) != "" && KnownMonthDay(RawDateText(row)).Some?
    requires ParseInt(YearText(row.year)).Some? && 0 <= ParseInt(YearText(row.year)).value < 10000
    ensures var r := NormalizeDateText(row);
      var m := KnownMonthDay(RawDateText(row)).value;
      |r| == 10 && r[4] == '-' && r[7] == '-'
      && ParseInt(r[..4]) == ParseInt(YearText(row.year))
      && ParseInt(r[5..7]) == Some(MonthNumber(Lower(m.word)).value)
      && ParseInt(r[8..]) == Some(m.day)
  {
    var raw := RawDateText(row);
    var m := KnownMonthDay(raw).value;
    var at := SearchMonthDayFromSpec(raw, 0);
    MonthDayAtShape(raw, at);
    MonthTable();
    IsoDateReadsBack(ParseInt(YearText(row.year)).value, MonthNumber(Lower(m.word)).value, m.day);
  }

  /** With no known "Month Day", a text naming a month gets the year appended; otherwise the text is
      returned as it is exactly when it already holds a stand-alone four-digit year. */
  lemma NormalizeWithoutMonthDay(row: DateRow)
    requires RawDateText(row) != "" && KnownMonthDay(RawDateText(row)).None?
    ensures var raw := RawDateText(row);
      MentionsMonth(raw) ==> NormalizeDateText(row) == raw + " " + YearText(row.year)
    ensures var raw := RawDateText(row);
      !MentionsMonth(raw) ==> (NormalizeDateText(row) == raw <==> HasFourDigitYear(raw))
  {
    var raw := RawDateText(row);
    assert |raw + " " + YearText(row.year)| > |raw|;
  }

  /** "Feb 31" is a known "Month Day" with day 31 in month 2, so by `NormalizeIsoDate` it becomes a date
      whose day reads back as 31: the day is not checked against the month. */
  lemma NoDayRangeCheck()
    ensures KnownMonthDay("Feb 31") == Some(MonthDay("Feb", 31))
    ensures MonthNumber(Lower("Feb")) == Some(2)
  {
    var s := "Feb 31";
    assert LetterRun(s, 3) == 0 && LetterRun(s, 2) == 1 && LetterRun(s, 1) == 2 && LetterRun(s, 0) == 3;
    assert SpaceRun(s, 4) == 0 && SpaceRun(s, 3) == 1;
    assert DigitRun(s, 6) == 0 && DigitRun(s, 5) == 1 && DigitRun(s, 4) == 2;
    assert s[0..3] == "Feb";
    assert MonthDayAt(s, 0) == Some(MonthDay("Feb", 31));
    assert Lower("Feb") == "feb";
  }

  /** A known "Month Day" with a year that is not an integer gives "Mon D year": the month word
      capitalised, the day, and the year text at the end. */
  lemma NormalizeNonIntegerYear(row: DateRow)
    requires RawDateText(row) != "" && KnownMonthDay(RawDateText(row)).Some?
    requires ParseInt(YearText(row.year)).None?
    ensures var r := NormalizeDateText(row);
      var m := KnownMonthDay(RawDateText(row)).value;
      var year := YearText(row.year);
      r == Capitalize(Lower(m.word)) + " " + IntToString(m.day) + " " + year
      && IsAsciiUpper(r[0])
      && r[|r| - |year| - 1..] == " " + year
  {
    var raw := RawDateText(row);
    var m := KnownMonthDay(raw).value;
    var year := YearText(row.year);
    var at := SearchMonthDayFromSpec(raw, 0);
    MonthDayAtShape(raw, at);
    var w := Lower(m.word);
    assert IsAsciiLetter(w[0]);
    var head := Capitalize(w) + " " + IntToString(m.day);
    assert IsAsciiUpper(head[0]);
    var r := head + (" " + year);
    assert r == Capitalize(w) + " " + IntToString(m.day) + " " + year;
    assert r[|r| - |year| - 1..] == " " + year;
    assert NormalizeDateText(row) == r;
  }
}
