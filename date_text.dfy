/**
  The date-text pieces both holiday loaders share: the month-name table, the search for the first
  "Month Day" (`re.search(r'([A-Za-z]+)\s+(\d{1,2})', text)`), the search for a stand-alone four-digit
  year (`re.search(r'\b\d{4}\b', text)`) and the zero-padded ISO rendering `f"{y:04d}-{m:02d}-{d:02d}"`.
 */
module DateText {
  import opened Wrappers
  import opened Text

  /** The keys of the month table: full and three-letter month names, lower-case. */
  const MONTH_KEYS: seq<string> := [
    "january", "jan", "february", "feb", "march", "mar", "april", "apr", "may", "june", "jun",
    "july", "jul", "august", "aug", "september", "sep", "october", "oct", "november", "nov", "december", "dec"]

  /** The month table: a key's month number, None for any other text. */
  function MonthNumber(k: string): Option<int>
  {
    if k == "january" || k == "jan" then Some(1)
    else if k == "february" || k == "feb" then Some(2)
    else if k == "march" || k == "mar" then Some(3)
    else if k == "april" || k == "apr" then Some(4)
    else if k == "may" then Some(5)
    else if k == "june" || k == "jun" then Some(6)
    else if k == "july" || k == "jul" then Some(7)
    else if k == "august" || k == "aug" then Some(8)
    else if k == "september" || k == "sep" then Some(9)
    else if k == "october" || k == "oct" then Some(10)
    else if k == "november" || k == "nov" then Some(11)
    else if k == "december" || k == "dec" then Some(12)
    else None
  }

  /** The table holds exactly the listed keys, and every month number is in 1..12. */
  lemma MonthTable()
    ensures forall k :: MonthNumber(k).Some? <==> k in MONTH_KEYS
    ensures forall k :: MonthNumber(k).Some? ==> 1 <= MonthNumber(k).value <= 12
  {
    MonthTableListed();
    MonthTableComplete();
  }

  lemma MonthTableListed()
    ensures forall k :: MonthNumber(k).Some? ==> k in MONTH_KEYS && 1 <= MonthNumber(k).value <= 12
  {
  }

  lemma MonthTableComplete()
    ensures forall k :: k in MONTH_KEYS ==> MonthNumber(k).Some?
  {
  }

  /** Length of the run of characters satisfying the class, starting at `i`. */
  function LetterRun(s: string, i: nat): (n: nat)
    requires i <= |s|
    ensures i + n <= |s|
    decreases |s| - i
  {
    if i < |s| && IsAsciiLetter(s[i]) then 1 + LetterRun(s, i + 1) else 0
  }

  function SpaceRun(s: string, i: nat): (n: nat)
    requires i <= |s|
    ensures i + n <= |s|
    decreases |s| - i
  {
    if i < |s| && IsSpace(s[i]) then 1 + SpaceRun(s, i + 1) else 0
  }

  function DigitRun(s: string, i: nat): (n: nat)
    requires i <= |s|
    ensures i + n <= |s|
    ensures n > 0 ==> IsAsciiDigit(s[i])
    ensures n > 1 ==> IsAsciiDigit(s[i + 1])
    decreases |s| - i
  {
    if i < |s| && IsAsciiDigit(s[i]) then 1 + DigitRun(s, i + 1) else 0
  }

  /** Each run is the longest one: every character in it is of the class, and the next one is not. */
  lemma {:induction false} RunsSpec(s: string, i: nat)
    requires i <= |s|
    ensures var n := LetterRun(s, i);
      (forall k :: i <= k < i + n ==> IsAsciiLetter(s[k])) && (i + n < |s| ==> !IsAsciiLetter(s[i + n]))
    ensures var n := SpaceRun(s, i);
      (forall k :: i <= k < i + n ==> IsSpace(s[k])) && (i + n < |s| ==> !IsSpace(s[i + n]))
    ensures var n := DigitRun(s, i);
      (forall k :: i <= k < i + n ==> IsAsciiDigit(s[k])) && (i + n < |s| ==> !IsAsciiDigit(s[i + n]))
    decreases |s| - i
  {
    if i < |s| {
      RunsSpec(s, i + 1);
    }
  }

  /** The two groups of a "Month Day" match: the letters, and the value of the one or two digits. */
  datatype MonthDay = MonthDay(word: string, day: nat)

  /** The pattern matched at `i`: letters (as many as there are), whitespace, then one or two digits
      (two when there are two). Backtracking cannot help: a shorter letter run is followed by a letter,
      and a shorter whitespace run by whitespace. */
  function MonthDayAt(s: string, i: nat): Option<MonthDay>
    requires i <= |s|
  {
    var l := LetterRun(s, i);
    if l == 0 then None
    else
      var w := SpaceRun(s, i + l);
      if w == 0 then None
      else
        var d := DigitRun(s, i + l + w);
        if d == 0 then None
        else
          var p := i + l + w;
          var day := if d >= 2 then 10 * DigitValue(s[p]) + DigitValue(s[p + 1]) else DigitValue(s[p]);
          Some(MonthDay(s[i..i + l], day))
  }

  /** The leftmost match at or after `i`. */
  function SearchMonthDayFrom(s: string, i: nat): Option<MonthDay>
    requires i <= |s|
    decreases |s| - i
  {
    if MonthDayAt(s, i).Some? then MonthDayAt(s, i)
    else if i == |s| then None
    else SearchMonthDayFrom(s, i + 1)
  }

  /** `re.search(r'([A-Za-z]+)\s+(\d{1,2})', s)`. */
  function SearchMonthDay(s: string): Option<MonthDay>
  {
    SearchMonthDayFrom(s, 0)
  }

  /** A match found at or after `i` is the match at some position from `i` on, and there is none
      before it. */
  lemma {:induction false} SearchMonthDayFromSpec(s: string, i: nat) returns (at: nat)
    requires i <= |s|
    requires SearchMonthDayFrom(s, i).Some?
    ensures i <= at <= |s| && SearchMonthDayFrom(s, i) == MonthDayAt(s, at)
    ensures forall j :: i <= j < at ==> MonthDayAt(s, j).None?
    decreases |s| - i
  {
    if MonthDayAt(s, i).Some? {
      at := i;
    } else {
      at := SearchMonthDayFromSpec(s, i + 1);
    }
  }

  /** A match's word is non-empty ASCII letters and its day is below 100. */
  lemma MonthDayAtShape(s: string, i: nat)
    requires i <= |s| && MonthDayAt(s, i).Some?
    ensures var m := MonthDayAt(s, i).value;
      |m.word| > 0 && (forall k :: 0 <= k < |m.word| ==> IsAsciiLetter(m.word[k])) && m.day < 100
  {
    RunsSpec(s, i);
  }

  /** The "Month Day" match whose word is a known month name, if the first match is one. */
  function KnownMonthDay(raw: string): Option<MonthDay>
  {
    var m := SearchMonthDay(raw);
    if m.Some? && MonthNumber(Lower(m.value.word)).Some? then m else None
  }

  /** A character of `\w`, on ASCII. */
  predicate IsWordChar(c: char)
  {
    IsAsciiAlnum(c) || c == '_'
  }

  /** Four digits at `i` with no word character touching either side. */
  predicate FourDigitYearAt(s: string, i: nat)
  {
    i + 4 <= |s|
    && (forall k :: i <= k < i + 4 ==> IsAsciiDigit(s[k]))
    && (i == 0 || !IsWordChar(s[i - 1]))
    && (i + 4 == |s| || !IsWordChar(s[i + 4]))
  }

  /** `re.search(r'\b\d{4}\b', s)` found something. */
  predicate HasFourDigitYear(s: string)
  {
    exists i: nat :: i + 4 <= |s| && FourDigitYearAt(s, i)
  }

  /** Some month name occurs anywhere in the lower-cased text (`k in raw.lower()` for a key `k`). */
  predicate MentionsMonth(s: string)
  {
    exists k :: k in MONTH_KEYS && Contains(Lower(s), k)
  }

  /** `f"{y:04d}-{m:02d}-{d:02d}"`. */
  function IsoDate(y: int, m: int, d: int): string
  {
    ZeroPad(y, 4) + "-" + ZeroPad(m, 2) + "-" + ZeroPad(d, 2)
  }

  function Pow10(n: nat): (p: nat)
    ensures p >= 1
  {
    if n == 0 then 1 else 10 * Pow10(n - 1)
  }

  /** `w` digits denote a number below 10^w. */
  lemma {:induction false} DigitsValueBound(s: string)
    requires AllDigits(s)
    ensures DigitsValue(s) < Pow10(|s|)
  {
    if |s| > 0 {
      DigitsValueBound(s[..|s| - 1]);
    }
  }

  /** `int(s)` of a non-empty string of digits is their value. */
  lemma ParseIntOfDigits(s: string)
    requires |s| > 0 && AllDigits(s)
    ensures ParseInt(s) == Some(DigitsValue(s))
  {
    assert !IsSpace(s[0]) && !IsSpace(s[|s| - 1]);
    StripUnchanged(s);
  }

  /** A number below 10^w has at most `w` digits. */
  lemma {:induction false} NatToStringLength(n: nat, w: nat)
    requires w >= 1 && n < Pow10(w)
    ensures |NatToString(n)| <= w
  {
    assert Pow10(1) == 10;
    if n >= 10 {
      NatToStringLength(n / 10, w - 1);
    }
  }

  /** `int(f"{n:0{w}d}")` gives back `n`, and the text is exactly `w` characters for `n < 10^w`. */
  lemma ParseIntOfZeroPad(n: nat, w: nat)
    requires w >= 1 && n < Pow10(w)
    ensures |ZeroPad(n, w)| == w
    ensures ParseInt(ZeroPad(n, w)) == Some(n)
  {
    var r := ZeroPad(n, w);
    NatToStringLength(n, w);
    ZeroPadNat(n, w);
    if |NatToString(n)| == w {
      assert r == NatToString(n);
    }
    ParseIntOfDigits(r);
  }

  /** An ISO date of a year in 0..9999, a month in 0..99 and a day in 0..99 has ten characters and
      reads back: the year from characters 0-3, the month from 5-6 and the day from 8-9. */
  lemma IsoDateReadsBack(y: nat, m: nat, d: nat)
    requires y < 10000 && m < 100 && d < 100
    ensures var t := IsoDate(y, m, d);
      |t| == 10 && t[4] == '-' && t[7] == '-'
      && ParseInt(t[..4]) == Some(y) && ParseInt(t[5..7]) == Some(m) && ParseInt(t[8..]) == Some(d)
  {
    assert Pow10(2) == 100 && Pow10(4) == 10000;
    ParseIntOfZeroPad(y, 4);
    ParseIntOfZeroPad(m, 2);
    ParseIntOfZeroPad(d, 2);
    DashJoinSlices(ZeroPad(y, 4), ZeroPad(m, 2), ZeroPad(d, 2));
  }

  /** The parts of `a-b-c` for a four-character `a` and two-character `b` and `c`. */
  lemma DashJoinSlices(a: string, b: string, c: string)
    requires |a| == 4 && |b| == 2 && |c| == 2
    ensures var t := a + "-" + b + "-" + c;
      |t| == 10 && t[4] == '-' && t[7] == '-' && t[..4] == a && t[5..7] == b && t[8..] == c
  {
  }
}
