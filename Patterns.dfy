/** The fixed regular expressions of the scrapers, each written out as a
    predicate over the string it is tested against. No general regular
    expression engine is modelled: every pattern is small, and its greedy
    quantifiers are followed by a character the quantified class cannot
    match, so the only way a match can continue is past the longest run. */
module Patterns {
  import opened JsText

  // ----- `/of\s+(\d+)/` (scrapeDice.js), as a leftmost match with its capture

  /** The pattern `of\s+(\d+)` matches at position `i`. */
  predicate OfCountAt(s: string, i: nat) {
    StartsAt(s, i, "of") &&
    var j := SkipSpaces(s, i + 2);
    j > i + 2 && j < |s| && IsDigit(s[j])
  }

  predicate AllSpaces(s: string, i: nat, n: nat)
    requires i + n <= |s|
  {
    forall k :: i <= k < i + n ==> IsSpace(s[k])
  }

  /** The textbook reading of `of\s+\d+` at `i`: "of", then `a >= 1` whitespace
      characters, then `d >= 1` digits. */
  predicate OfCountSplit(s: string, i: nat, a: nat, d: nat) {
    a >= 1 && d >= 1 && i + 2 + a + d <= |s| && StartsAt(s, i, "of") &&
    AllSpaces(s, i + 2, a) &&
    forall k :: i + 2 + a <= k < i + 2 + a + d ==> IsDigit(s[k])
  }

  /** A run of whitespace that is followed by something else ends where
      `SkipSpaces` says. */
  lemma {:induction false} SkipSpacesExact(s: string, i: nat, n: nat)
    requires i + n <= |s| && AllSpaces(s, i, n)
    requires i + n == |s| || !IsSpace(s[i + n])
    ensures SkipSpaces(s, i) == i + n
    decreases n
  {
    if n > 0 {
      SkipSpacesExact(s, i + 1, n - 1);
    }
  }

  /** The hand-coded test agrees with the textbook reading of the pattern. */
  lemma OfCountAtIff(s: string, i: nat)
    ensures OfCountAt(s, i) <==> exists a: nat, d: nat :: OfCountSplit(s, i, a, d)
  {
    if OfCountAt(s, i) {
      var j := SkipSpaces(s, i + 2);
      assert OfCountSplit(s, i, j - (i + 2), 1);
    }
    if exists a: nat, d: nat :: OfCountSplit(s, i, a, d) {
      var a: nat, d: nat :| OfCountSplit(s, i, a, d);
      assert !IsSpace(s[i + 2 + a]);
      SkipSpacesExact(s, i + 2, a);
    }
  }

  /** The leftmost position at or after `i` where `of\s+(\d+)` matches. */
  function FindOfCount(s: string, i: nat): (r: Option<nat>)
    requires i <= |s|
    ensures r.Some? ==> i <= r.value < |s| && OfCountAt(s, r.value)
    ensures r.Some? ==> forall k :: i <= k < r.value ==> !OfCountAt(s, k)
    ensures r.None? ==> forall k :: i <= k <= |s| ==> !OfCountAt(s, k)
    decreases |s| - i
  {
    if i == |s| then None
    else if OfCountAt(s, i) then Some(i)
    else FindOfCount(s, i + 1)
  }

  /** Capture group 1 of a match at `i`: the longest digit run after the
      longest whitespace run, as the greedy quantifiers take them. */
  function OfCountCapture(s: string, i: nat): (digits: string)
    requires OfCountAt(s, i)
    ensures digits != [] && AllDigits(digits)
  {
    var j := SkipSpaces(s, i + 2);
    s[j..SkipDigits(s, j)]
  }

  /** `text.match(/of\s+(\d+)/)`, read through `parseInt(match[1])`: the
      number after the leftmost "of" that is followed by whitespace and a
      digit, or `None` when the pattern does not match. */
  function PageCountMatch(text: string): (r: Option<nat>)
    ensures r.Some? <==> exists i | 0 <= i < |text| :: OfCountAt(text, i)
  {
    match FindOfCount(text, 0)
    case None => None
    case Some(i) => Some(DecimalValue(OfCountCapture(text, i)))
  }

  /** The usual label: a prefix without "of", then "of", whitespace, digits,
      and something that is not a digit. The match yields those digits. */
  lemma {:induction false} PageCountOfLabel(p: string, ws: string, digits: string, rest: string)
    requires forall k :: 0 <= k < |p| ==> !StartsAt(p, k, "of")
    requires ws != [] && forall k :: 0 <= k < |ws| ==> IsSpace(ws[k])
    requires digits != [] && AllDigits(digits)
    requires rest == [] || !IsDigit(rest[0])
    ensures PageCountMatch(p + "of" + ws + digits + rest) == Some(DecimalValue(digits))
  {
    var s := p + "of" + ws + digits + rest;
    var i := |p|;
    NoOfInPrefix(p, "of" + ws + digits + rest);
    assert s == p + ("of" + ws + digits + rest);
    LabelMatch(p, ws, digits, rest);
    FindOfCountSkips(s, 0, i);
  }

  /** The pattern matches such a label right after the prefix, capturing its
      digits. */
  lemma LabelMatch(p: string, ws: string, digits: string, rest: string)
    requires ws != [] && forall k :: 0 <= k < |ws| ==> IsSpace(ws[k])
    requires digits != [] && AllDigits(digits)
    requires rest == [] || !IsDigit(rest[0])
    ensures var s, i := p + "of" + ws + digits + rest, |p|;
      OfCountAt(s, i) && OfCountCapture(s, i) == digits
  {
    var s, i := p + "of" + ws + digits + rest, |p|;
    var j := i + 2 + |ws|;
    LabelLayout(p, ws, digits, rest);
    SkipSpacesExact(s, i + 2, |ws|);
    SkipDigitsExact(s, j, |digits|);
  }

  /** Where the pieces of such a label sit. */
  lemma LabelLayout(p: string, ws: string, digits: string, rest: string)
    requires ws != [] && forall k :: 0 <= k < |ws| ==> IsSpace(ws[k])
    requires digits != [] && AllDigits(digits)
    requires rest == [] || !IsDigit(rest[0])
    ensures var s, i := p + "of" + ws + digits + rest, |p|;
      var j := i + 2 + |ws|;
      StartsAt(s, i, "of") && AllSpaces(s, i + 2, |ws|) && j < |s| && !IsSpace(s[j]) &&
      IsDigit(s[j]) && (forall k :: j <= k < j + |digits| ==> IsDigit(s[k])) &&
      (j + |digits| == |s| || !IsDigit(s[j + |digits|])) &&
      s[j..j + |digits|] == digits
  {
    var s, i := p + "of" + ws + digits + rest, |p|;
    var j := i + 2 + |ws|;
    assert s[i..i + 2] == "of";
    forall k | i + 2 <= k < j ensures IsSpace(s[k]) {
      assert s[k] == ws[k - i - 2];
    }
    assert s[j..j + |digits|] == digits;
    forall k | j <= k < j + |digits| ensures IsDigit(s[k]) {
      assert s[k] == digits[k - j];
    }
    if rest != [] {
      assert s[j + |digits|] == rest[0];
    }
  }

  /** A prefix without "of", followed by text that starts with "o", holds no
      "of" that starts inside the prefix. */
  lemma NoOfInPrefix(p: string, t: string)
    requires forall k :: 0 <= k < |p| ==> !StartsAt(p, k, "of")
    requires t != [] && t[0] == 'o'
    ensures forall k :: 0 <= k < |p| ==> !StartsAt(p + t, k, "of")
  {
    var s := p + t;
    forall k | 0 <= k < |p| ensures !StartsAt(s, k, "of") {
      if k + 1 < |p| {
        assert s[k..k + 2] == p[k..k + 2];
        assert !StartsAt(p, k, "of");
      } else {
        assert s[k + 1] == t[0];
        assert s[k..k + 2][1] == s[k + 1];
      }
    }
  }

  /** When nothing matches before `i` and the pattern matches at `i`, the
      leftmost match is at `i`. */
  lemma {:induction false} FindOfCountSkips(s: string, from: nat, i: nat)
    requires from <= i < |s| && OfCountAt(s, i)
    requires forall k :: from <= k < i ==> !OfCountAt(s, k)
    ensures FindOfCount(s, from) == Some(i)
    decreases i - from
  {
    if from < i {
      FindOfCountSkips(s, from + 1, i);
    }
  }

  lemma {:induction false} SkipDigitsExact(s: string, i: nat, n: nat)
    requires i + n <= |s| && forall k :: i <= k < i + n ==> IsDigit(s[k])
    requires i + n == |s| || !IsDigit(s[i + n])
    ensures SkipDigits(s, i) == i + n
    decreases n
  {
    if n > 0 {
      SkipDigitsExact(s, i + 1, n - 1);
    }
  }

  /** "Page 1 of 11", the label the results page shows, gives 11. */
  lemma PageCountOfSampleLabel()
    ensures PageCountMatch("Page 1 of 11") == Some(11)
  {
    var p := "Page 1 ";
    forall k | 0 <= k < |p| ensures !StartsAt(p, k, "of") {
      assert p[k] != 'o';
      if k + 2 <= |p| {
        assert p[k..k + 2][0] == p[k];
      }
    }
    var d := "11";
    assert AllDigits(d);
    assert DecimalValue(d) == 11 by {
      assert d[..1] == "1";
    }
    assert "Page 1 of 11" == p + "of" + " " + d + "";
    PageCountOfLabel(p, " ", d, "");
  }

  // ----- `/of\\s+(\\d+)/` (ScrapeDiseAI.js): a literal backslash in the pattern

  /** The index just past the run of `c` that starts at `i`. */
  function SkipChar(s: string, i: nat, c: char): (j: nat)
    requires i <= |s|
    ensures i <= j <= |s|
    ensures forall k :: i <= k < j ==> s[k] == c
    ensures j == |s| || s[j] != c
    decreases |s| - i
  {
    if i < |s| && s[i] == c then SkipChar(s, i + 1, c) else i
  }

  /** The pattern written `of\\s+(\\d+)` matches at `i`. In a regular
      expression literal `\\` is one literal backslash, so the pattern asks for
      "of", a backslash, one or more `s`, a backslash, one or more `d`. */
  predicate BackslashOfCountAt(s: string, i: nat)
    ensures BackslashOfCountAt(s, i) ==> i + 6 <= |s| && s[i + 2] == '\\' && s[i + 3] == 's'
  {
    StartsAt(s, i, "of\\") &&
    var j := SkipChar(s, i + 3, 's');
    j > i + 3 && j + 1 < |s| && s[j] == '\\' && s[j + 1] == 'd'
  }

  predicate HasBackslashOfCount(s: string) {
    exists i | 0 <= i < |s| :: BackslashOfCountAt(s, i)
  }

  /** A label without a backslash never matches the pattern. */
  lemma BackslashPatternNeedsBackslash(s: string)
    requires forall k :: 0 <= k < |s| ==> s[k] != '\\'
    ensures !HasBackslashOfCount(s)
  {
    forall i | 0 <= i < |s| ensures !BackslashOfCountAt(s, i) {
      if StartsAt(s, i, "of\\") {
        assert s[i..i + 3][2] == s[i + 2];
      }
    }
  }

  // ----- `/c2c|corp\s*to\s*corp/i` (ScrapeDiseAI.js)

  /** `corp\s*to\s*corp` matches at `i`, ignoring case. */
  predicate CorpToCorpAt(s: string, i: nat) {
    StartsAtFolded(s, i, "corp") &&
    var j := SkipSpaces(s, i + 4);
    StartsAtFolded(s, j, "to") &&
    var k := SkipSpaces(s, j + 2);
    StartsAtFolded(s, k, "corp")
  }

  /** The textbook reading of `corp\s*to\s*corp` at `i` with `a` and `b`
      whitespace characters in the two gaps. */
  predicate CorpToCorpSplit(s: string, i: nat, a: nat, b: nat) {
    i + 4 + a + 2 + b + 4 <= |s| &&
    StartsAtFolded(s, i, "corp") && AllSpaces(s, i + 4, a) &&
    StartsAtFolded(s, i + 4 + a, "to") && AllSpaces(s, i + 6 + a, b) &&
    StartsAtFolded(s, i + 6 + a + b, "corp")
  }

  /** The hand-coded test agrees with the textbook reading of the pattern. */
  lemma CorpToCorpAtIff(s: string, i: nat)
    ensures CorpToCorpAt(s, i) <==> exists a: nat, b: nat :: CorpToCorpSplit(s, i, a, b)
  {
    if CorpToCorpAt(s, i) {
      var j := SkipSpaces(s, i + 4);
      var k := SkipSpaces(s, j + 2);
      assert CorpToCorpSplit(s, i, j - (i + 4), k - (j + 2));
    }
    if exists a: nat, b: nat :: CorpToCorpSplit(s, i, a, b) {
      var a: nat, b: nat :| CorpToCorpSplit(s, i, a, b);
      CorpToCorpFromSplit(s, i, a, b);
    }
  }

  lemma CorpToCorpFromSplit(s: string, i: nat, a: nat, b: nat)
    requires CorpToCorpSplit(s, i, a, b)
    ensures CorpToCorpAt(s, i)
  {
    var j, k := i + 4 + a, i + 6 + a + b;
    GapBeforeWord(s, i + 4, a, "to");
    GapBeforeWord(s, j + 2, b, "corp");
    assert SkipSpaces(s, i + 4) == j && StartsAtFolded(s, j, "to");
    assert SkipSpaces(s, j + 2) == k && StartsAtFolded(s, k, "corp");
  }

  /** A whitespace run followed by a word that starts with a letter ends where
      `SkipSpaces` says. */
  lemma GapBeforeWord(s: string, i: nat, a: nat, w: string)
    requires i + a <= |s| && AllSpaces(s, i, a)
    requires w != [] && 'a' <= w[0] <= 'z' && StartsAtFolded(s, i + a, w)
    ensures SkipSpaces(s, i) == i + a
  {
    FoldedHead(s, i + a, w);
    SkipSpacesExact(s, i, a);
  }

  lemma FoldedHead(s: string, i: nat, w: string)
    requires w != [] && StartsAtFolded(s, i, w)
    ensures i < |s| && Fold(s[i]) == w[0]
    ensures 'a' <= w[0] <= 'z' ==> !IsSpace(s[i])
  {
    assert Lower(s[i..i + |w|])[0] == Fold(s[i]);
  }

  predicate C2CAt(s: string, i: nat) {
    StartsAtFolded(s, i, "c2c") || CorpToCorpAt(s, i)
  }

  /** `/c2c|corp\s*to\s*corp/i.test(s)`. */
  predicate MentionsC2C(s: string) {
    exists i | 0 <= i <= |s| :: C2CAt(s, i)
  }

  /** "Java Developer (C2C only)" is a corp-to-corp listing. */
  lemma C2CInTitle()
    ensures MentionsC2C("Java Developer (C2C only)")
  {
    var s := "Java Developer (C2C only)";
    assert StartsAtFolded(s, 16, "c2c");
    assert C2CAt(s, 16);
  }

  /** "Corp To\tcorp" matches across a tab and mixed case. */
  lemma CorpToCorpAcrossWhitespace()
    ensures MentionsC2C("W2 or Corp To\tcorp")
  {
    var s := "W2 or Corp To\tcorp";
    assert StartsAtFolded(s, 6, "corp");
    SkipSpacesExact(s, 10, 1);
    assert StartsAtFolded(s, 11, "to");
    SkipSpacesExact(s, 13, 1);
    assert StartsAtFolded(s, 14, "corp");
    assert C2CAt(s, 6);
  }

  // ----- word boundaries and the LinkedIn categories

  /** `\b` at position `i`: a word character on exactly one side. */
  predicate WordBoundary(s: string, i: nat)
    requires i <= |s|
  {
    (i > 0 && IsWordChar(s[i - 1])) != (i < |s| && IsWordChar(s[i]))
  }

  /** `\bw\b` matches at `i`, ignoring case. */
  predicate WordAt(s: string, i: nat, w: string) {
    StartsAtFolded(s, i, w) && WordBoundary(s, i) && WordBoundary(s, i + |w|)
  }

  /** `/boston|massachusetts|\bma\b/i.test(loc)`. */
  predicate NamesBoston(loc: string) {
    exists i | 0 <= i <= |loc| ::
      StartsAtFolded(loc, i, "boston") || StartsAtFolded(loc, i, "massachusetts") || WordAt(loc, i, "ma")
  }

  /** The alternatives of `\b(ai|machine learning|artificial intelligence|ml)\b`. */
  const AiTerms: seq<string> := ["ai", "machine learning", "artificial intelligence", "ml"]

  /** `/\b(ai|machine learning|artificial intelligence|ml)\b/i.test(s)`. */
  predicate MentionsAi(s: string) {
    exists i, t | 0 <= i <= |s| && 0 <= t < |AiTerms| :: WordAt(s, i, AiTerms[t])
  }

  /** `/\banalyst\b/i.test(s)`. */
  predicate MentionsAnalyst(s: string) {
    exists i | 0 <= i <= |s| :: WordAt(s, i, "analyst")
  }

  /** "Boston, MA" is a Boston location, and an "AI Engineer" title is an AI
      title: a record can land in both buckets. */
  lemma BostonAiEngineer()
    ensures NamesBoston("Boston, MA")
    ensures MentionsAi("AI Engineer")
  {
    assert StartsAtFolded("Boston, MA", 0, "boston");
    var t := "AI Engineer";
    assert WordAt(t, 0, AiTerms[0]);
  }

  /** "ma" inside a word is not the state: `\b` rejects "Omaha, NE", while the
      stand-alone state code in "Cambridge, MA" is accepted. */
  lemma StateCodeNeedsBoundaries()
    ensures !NamesBoston("Omaha, NE")
    ensures NamesBoston("Cambridge, MA")
  {
    var s := "Omaha, NE";
    forall i | 0 <= i <= |s|
      ensures !StartsAtFolded(s, i, "boston") && !StartsAtFolded(s, i, "massachusetts") && !WordAt(s, i, "ma")
    {
      if i + 6 <= |s| {
        assert Lower(s[i..i + 6])[0] == Fold(s[i]);
      }
      if i + 2 <= |s| && i != 1 {
        assert Lower(s[i..i + 2])[0] == Fold(s[i]);
        assert Lower(s[i..i + 2])[1] == Fold(s[i + 1]);
      }
      if i == 1 {
        assert IsWordChar(s[0]);
      }
    }
    var t := "Cambridge, MA";
    assert t[10] == ' ';
    assert WordAt(t, 11, "ma");
  }

  /** "Data Analyst II" has the word; "Analysts Lead" does not have it at its
      start, where "analyst" runs on into a word character. */
  lemma AnalystIsAWord()
    ensures MentionsAnalyst("Data Analyst II")
    ensures !WordAt("Analysts Lead", 0, "analyst")
  {
    assert WordAt("Data Analyst II", 5, "analyst");
    assert IsWordChar("Analysts Lead"[7]);
  }
}
