/**
  Keyword extraction from food-holiday names (`clean_and_split`, `generate_keyword_list`): the name is
  lower-cased, stripped of punctuation, split into words and filtered against a stopword list; the
  keywords are the words of at least four characters and every pair of neighbouring words.
 */
module HolidayKeywords {
  import opened Text

  const STOPWORDS: set<string> := {
    "national", "international", "day", "week", "month",
    "the", "of", "and", "for", "world", "global",
    "food", "drink", "festival", "celebration",
    "cook", "cooking", "hot", "cold", "sweet",
    "healthy", "appreciation", "lover", "lovers"}

  /** The words of `ws` that are not stopwords, in order. */
  function DropStopwords(ws: seq<string>): (r: seq<string>)
    ensures forall k :: 0 <= k < |r| ==> r[k] !in STOPWORDS && r[k] in ws
    ensures forall w :: w in ws && w !in STOPWORDS ==> w in r
  {
    if |ws| == 0 then []
    else
      var rest := DropStopwords(ws[..|ws| - 1]);
      assert ws == ws[..|ws| - 1] + [ws[|ws| - 1]];
      if ws[|ws| - 1] in STOPWORDS then rest else rest + [ws[|ws| - 1]]
  }

  /** `clean_and_split`. */
  function CleanAndSplit(name: string): seq<string>
  {
    DropStopwords(Words(KeepAlnumSpace(Lower(name))))
  }

  /** A token as `clean_and_split` produces it: non-empty, lower-case ASCII letters and digits only. */
  predicate IsToken(w: string)
  {
    |w| > 0 && forall i :: 0 <= i < |w| ==> IsAsciiLower(w[i]) || IsAsciiDigit(w[i])
  }

  /** Every token is non-empty, made of lower-case ASCII letters and digits, and not a stopword; and
      every non-stopword word of the cleaned name is kept. */
  lemma CleanAndSplitTokens(name: string)
    ensures var parts := CleanAndSplit(name);
      forall k :: 0 <= k < |parts| ==> IsToken(parts[k]) && parts[k] !in STOPWORDS
    ensures forall w :: w in Words(KeepAlnumSpace(Lower(name))) && w !in STOPWORDS ==> w in CleanAndSplit(name)
  {
    var cleaned := KeepAlnumSpace(Lower(name));
    var ws := Words(cleaned);
    var parts := CleanAndSplit(name);
    forall k | 0 <= k < |parts|
      ensures IsToken(parts[k])
    {
      var w := parts[k];
      var j :| 0 <= j < |ws| && ws[j] == w;
      forall i | 0 <= i < |w|
        ensures IsAsciiLower(w[i]) || IsAsciiDigit(w[i])
      {
        assert w[i] in multiset(w);
        assert w[i] in multiset(cleaned);
        var n :| 0 <= n < |cleaned| && cleaned[n] == w[i];
        assert IsAlnumOrSpace(cleaned[n]);
        var m :| 0 <= m < |Lower(name)| && Lower(name)[m] == w[i];
        assert w[i] == LowerChar(name[m]);
      }
    }
  }

  /** The keywords of a token list: every token of at least four characters, and every neighbouring
      pair joined by one space. */
  function KeywordSet(parts: seq<string>): set<string>
  {
    (set p | p in parts && |p| >= 4)
    + (set i | 0 <= i < |parts| - 1 :: parts[i] + " " + parts[i + 1])
  }

  /** `generate_keyword_list`: the long tokens, then each neighbouring pair added one by one. The
      Python list built from the set has no duplicates and no defined order; it is modelled as the set. */
  method GenerateKeywordList(name: string) returns (keywords: set<string>)
    ensures keywords == KeywordSet(CleanAndSplit(name))
  {
    var parts := CleanAndSplit(name);
    if |parts| == 0 {
      return {};
    }
    keywords := set p | p in parts && |p| >= 4;
    var i := 0;
    while i < |parts| - 1
      invariant 0 <= i <= |parts| - 1
      invariant keywords == (set p | p in parts && |p| >= 4)
                            + (set j | 0 <= j < i :: parts[j] + " " + parts[j + 1])
    {
      keywords := keywords + {parts[i] + " " + parts[i + 1]};
      i := i + 1;
    }
  }

  /** Two words joined by a space contain whitespace. */
  lemma PairHasSpace(a: string, b: string)
    ensures !NoSpace(a + " " + b)
  {
    assert (a + " " + b)[|a|] == ' ' && IsSpace(' ');
  }

  /** Two words without whitespace joined by a space can be split back in only one way. */
  lemma PairInjective(a: string, b: string, c: string, d: string)
    requires NoSpace(a) && NoSpace(b) && NoSpace(c) && NoSpace(d)
    requires a + " " + b == c + " " + d
    ensures a == c && b == d
  {
    var x := a + " " + b;
    assert IsSpace(' ');
    assert forall i :: 0 <= i < |a| ==> x[i] == a[i];
    assert forall i :: 0 <= i < |c| ==> x[i] == c[i];
    assert x[|a|] == ' ' && x[|c|] == ' ';
    assert |a| == |c|;
    assert a == x[..|a|] == c;
    assert b == x[|a| + 1..] == d;
  }

  /** A single word is a keyword exactly when it is one of the tokens and has at least four characters. */
  lemma SingleKeywordIff(parts: seq<string>, w: string)
    requires NoSpace(w)
    ensures w in KeywordSet(parts) <==> w in parts && |w| >= 4
  {
    forall i | 0 <= i < |parts| - 1
      ensures w != parts[i] + " " + parts[i + 1]
    {
      PairHasSpace(parts[i], parts[i + 1]);
    }
  }

  /** "a b" is a keyword exactly when `a` is immediately followed by `b` in the token list, whatever
      their lengths. */
  lemma PairKeywordIff(parts: seq<string>, a: string, b: string)
    requires forall k :: 0 <= k < |parts| ==> NoSpace(parts[k])
    requires NoSpace(a) && NoSpace(b)
    ensures a + " " + b in KeywordSet(parts)
        <==> exists i :: 0 <= i < |parts| - 1 && parts[i] == a && parts[i + 1] == b
  {
    var w := a + " " + b;
    PairHasSpace(a, b);
    assert w !in parts;
    if w in KeywordSet(parts) {
      var i :| 0 <= i < |parts| - 1 && w == parts[i] + " " + parts[i + 1];
      PairInjective(a, b, parts[i], parts[i + 1]);
    }
  }

  /** Text made only of lower-case ASCII letters, digits and the space: no regular-expression
      metacharacter can occur in it. */
  predicate PlainText(w: string)
  {
    forall i :: 0 <= i < |w| ==> IsAsciiLower(w[i]) || IsAsciiDigit(w[i]) || w[i] == ' '
  }

  /** Every keyword generated for a name is non-empty plain text: a long token, or two tokens joined by
      one space. */
  lemma KeywordsArePlainText(name: string)
    ensures forall w :: w in KeywordSet(CleanAndSplit(name)) ==> |w| >= 3 && PlainText(w)
  {
    var parts := CleanAndSplit(name);
    CleanAndSplitTokens(name);
    forall w | w in KeywordSet(parts)
      ensures |w| >= 3 && PlainText(w)
    {
      if i :| 0 <= i < |parts| - 1 && w == parts[i] + " " + parts[i + 1] {
        var a, b := parts[i], parts[i + 1];
        assert IsToken(a) && IsToken(b);
        forall k | 0 <= k < |w|
          ensures IsAsciiLower(w[k]) || IsAsciiDigit(w[k]) || w[k] == ' '
        {
          if k < |a| {
            assert w[k] == a[k];
          } else if k > |a| {
            assert w[k] == b[k - |a| - 1];
          }
        }
      } else {
        var k :| 0 <= k < |parts| && parts[k] == w;
        assert IsToken(parts[k]);
      }
    }
  }

  /** A name with no surviving token has no keywords. */
  lemma NoTokensNoKeywords(name: string)
    requires CleanAndSplit(name) == []
    ensures KeywordSet(CleanAndSplit(name)) == {}
  {
  }
}
