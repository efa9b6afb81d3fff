// The first stage of the pipeline, `AnalyzerAgent.analyze_text`: numeric
// tokens, a keyword-based structure category, the leading sentences, a word
// count and a complexity flag, all read off the raw text.

module Analyzer {
  import opened AsciiText

  // ---------------------------------------------------------------------------
  // Numeric tokens: `re.findall(r'\d+(?:\.\d+)?%?', text)`
  // ---------------------------------------------------------------------------

  predicate AllDigits(t: string) {
    forall k :: 0 <= k < |t| ==> IsDigit(t[k])
  }

  /** A candidate token without its optional trailing `%`. */
  function TokenCore(t: string): string {
    if |t| > 0 && t[|t| - 1] == '%' then t[..|t| - 1] else t
  }

  /** The part of the language before the optional `%`: a digit run, or two digit runs
      joined by one `.`. */
  predicate NumberCore(core: string) {
    |core| > 0 &&
    if '.' in core then
      var p := IndexOf(core, '.');
      0 < p < |core| - 1 && AllDigits(core[..p]) && AllDigits(core[p + 1..])
    else
      AllDigits(core)
  }

  /** Membership in the language `\d+(\.\d+)?%?`, stated without reference to the scanner:
      an optional trailing `%` after either a digit run or two digit runs joined by one `.`. */
  predicate IsNumberToken(t: string) {
    NumberCore(TokenCore(t))
  }

  /** The core of a longer candidate still reaches past position `d` of the text,
      unless the one extra character is a `%` right at `d`. */
  lemma CoreReaches(s: string, i: nat, d: nat, longer: nat)
    requires i <= d < longer <= |s|
    requires !(longer == d + 1 && s[d] == '%')
    ensures var core := TokenCore(s[i..longer]);
      d - i < |core| && core == s[i..i + |core|]
  {
  }

  /** End of the digit run that starts at `i`. */
  function DigitsEnd(s: string, i: nat): (e: nat)
    requires i <= |s|
    ensures i <= e <= |s|
    ensures forall k :: i <= k < e ==> IsDigit(s[k])
    ensures e == |s| || !IsDigit(s[e])
    decreases |s| - i
  {
    if i == |s| || !IsDigit(s[i]) then i else DigitsEnd(s, i + 1)
  }

  lemma DotFree(t: string)
    requires AllDigits(t)
    ensures '.' !in t
  {
    assert forall k :: 0 <= k < |t| ==> t[k] != '.';
  }

  lemma DigitsToken(t: string)
    requires |t| > 0 && AllDigits(t)
    ensures IsNumberToken(t) && IsNumberToken(t + "%")
  {
    DotFree(t);
    assert (t + "%")[..|t|] == t;
  }

  lemma DecimalToken(t: string, p: nat)
    requires 0 < p < |t| - 1 && t[p] == '.'
    requires AllDigits(t[..p]) && AllDigits(t[p + 1..])
    ensures IsNumberToken(t) && IsNumberToken(t + "%")
  {
    DotFree(t[..p]);
    IndexOfFirst(t, '.', p);
    assert (t + "%")[..|t|] == t;
  }

  /** End of the regular-expression match that starts at the digit `s[i]`: the greedy
      digit run, then `.` and a digit run if a digit follows the `.`, then an optional `%`. */
  function MatchEnd(s: string, i: nat): (e: nat)
    requires i < |s| && IsDigit(s[i])
    ensures i < e <= |s|
  {
    var d := DigitsEnd(s, i);
    if d + 1 < |s| && s[d] == '.' && IsDigit(s[d + 1]) then
      var f := DigitsEnd(s, d + 1);
      if f < |s| && s[f] == '%' then f + 1 else f
    else
      if d < |s| && s[d] == '%' then d + 1 else d
  }

  /** The match found from a digit is a token of the language. */
  lemma MatchEndIsToken(s: string, i: nat)
    requires i < |s| && IsDigit(s[i])
    ensures IsNumberToken(s[i..MatchEnd(s, i)])
  {
    var d := DigitsEnd(s, i);
    if d + 1 < |s| && s[d] == '.' && IsDigit(s[d + 1]) {
      var f := DigitsEnd(s, d + 1);
      DecimalMatch(s, i, d, f, MatchEnd(s, i));
    } else {
      IntegerMatch(s, i, d, MatchEnd(s, i));
    }
  }

  /** A run of digits in the text, cut out, is all digits. */
  lemma DigitRun(s: string, lo: nat, hi: nat)
    requires lo <= hi <= |s| && forall k :: lo <= k < hi ==> IsDigit(s[k])
    ensures AllDigits(s[lo..hi])
  {
    var run := s[lo..hi];
    assert forall k :: 0 <= k < |run| ==> run[k] == s[lo + k];
  }

  /** A slice of a slice is a slice of the text. */
  lemma SliceOfSlice(s: string, lo: nat, hi: nat, a: nat, b: nat)
    requires lo <= hi <= |s| && a <= b <= hi - lo
    ensures s[lo..hi][a..b] == s[lo + a..lo + b]
  {
    var x, y := s[lo..hi][a..b], s[lo + a..lo + b];
    assert forall k :: 0 <= k < |x| ==> x[k] == y[k];
  }

  /** A match that ends in `%` is the match before it with the `%` appended. */
  lemma PercentAfter(s: string, i: nat, f: nat, e: nat)
    requires i <= f <= |s|
    requires e == if f < |s| && s[f] == '%' then f + 1 else f
    ensures s[i..e] == if e == f then s[i..f] else s[i..f] + "%"
  {
    if e != f {
      assert s[i..e] == s[i..f] + [s[f]];
    }
  }

  lemma IntegerMatch(s: string, i: nat, d: nat, e: nat)
    requires i < d <= |s| && forall k :: i <= k < d ==> IsDigit(s[k])
    requires e == if d < |s| && s[d] == '%' then d + 1 else d
    ensures IsNumberToken(s[i..e])
  {
    DigitRun(s, i, d);
    DigitsToken(s[i..d]);
    PercentAfter(s, i, d, e);
  }

  lemma DecimalMatch(s: string, i: nat, d: nat, f: nat, e: nat)
    requires i < d && d + 1 < f <= |s| && s[d] == '.'
    requires forall k :: i <= k < d ==> IsDigit(s[k])
    requires forall k :: d + 1 <= k < f ==> IsDigit(s[k])
    requires e == if f < |s| && s[f] == '%' then f + 1 else f
    ensures IsNumberToken(s[i..e])
  {
    var t := s[i..f];
    DigitRun(s, i, d);
    DigitRun(s, d + 1, f);
    SliceOfSlice(s, i, f, 0, d - i);
    SliceOfSlice(s, i, f, d - i + 1, f - i);
    assert t[..d - i] == t[0..d - i];
    assert t[d - i + 1..] == t[d - i + 1..f - i];
    DecimalToken(t, d - i);
    PercentAfter(s, i, f, e);
  }

  /** The match is the longest number token starting at `s[i]`: the regular expression's
      quantifiers are greedy and no longer prefix of `s[i..]` is in its language. */
  lemma MatchEndLongest(s: string, i: nat, longer: nat)
    requires i < |s| && IsDigit(s[i])
    requires MatchEnd(s, i) < longer <= |s|
    ensures !IsNumberToken(s[i..longer])
  {
    var d := DigitsEnd(s, i);
    if d + 1 < |s| && s[d] == '.' && IsDigit(s[d + 1]) {
      var f := DigitsEnd(s, d + 1);
      assert MatchEnd(s, i) == if f < |s| && s[f] == '%' then f + 1 else f;
      DecimalLongest(s, i, d, f, longer);
    } else {
      assert MatchEnd(s, i) == if d < |s| && s[d] == '%' then d + 1 else d;
      IntegerLongest(s, i, d, longer);
    }
  }

  lemma IntegerLongest(s: string, i: nat, d: nat, longer: nat)
    requires i < d <= |s| && forall k :: i <= k < d ==> IsDigit(s[k])
    requires d == |s| || !IsDigit(s[d])
    requires !(d + 1 < |s| && s[d] == '.' && IsDigit(s[d + 1]))
    requires (if d < |s| && s[d] == '%' then d + 1 else d) < longer <= |s|
    ensures !IsNumberToken(s[i..longer])
  {
    var core := TokenCore(s[i..longer]);
    CoreReaches(s, i, d, longer);
    assert core[d - i] == s[d];
    DigitRun(s, i, d);
    assert core[..d - i] == s[i..d];
    if s[d] == '.' {
      if d - i + 1 < |core| {
        assert core[d - i + 1] == s[d + 1];
      }
      DotWithoutFraction(core, d - i);
    } else {
      StrayCharacter(core, d - i);
    }
  }

  /** A core whose digit run ends in a `.` that no digit follows is not a number. */
  lemma DotWithoutFraction(core: string, q: nat)
    requires q < |core| && core[q] == '.' && AllDigits(core[..q])
    requires q == |core| - 1 || !IsDigit(core[q + 1])
    ensures !NumberCore(core)
  {
    DotFree(core[..q]);
    IndexOfFirst(core, '.', q);
    if q < |core| - 1 {
      assert core[q + 1..][0] == core[q + 1];
    }
  }

  /** A core whose digit run ends in a character other than `.` is not a number. */
  lemma StrayCharacter(core: string, q: nat)
    requires q < |core| && !IsDigit(core[q]) && core[q] != '.'
    requires AllDigits(core[..q])
    ensures !NumberCore(core)
  {
    if '.' in core {
      var p := IndexOf(core, '.');
      assert forall k :: 0 <= k < q ==> core[k] != '.' by {
        forall k | 0 <= k < q ensures core[k] != '.' {
          assert core[..q][k] == core[k];
        }
      }
      assert core[..p][q] == core[q];
    }
  }

  /** A core whose fraction stops at a character other than a digit is not a number. */
  lemma FractionStops(core: string, q: nat, r: nat)
    requires q < r < |core| && core[q] == '.' && AllDigits(core[..q]) && !IsDigit(core[r])
    ensures !NumberCore(core)
  {
    DotFree(core[..q]);
    IndexOfFirst(core, '.', q);
    assert core[q + 1..][r - q - 1] == core[r];
  }

  lemma DecimalLongest(s: string, i: nat, d: nat, f: nat, longer: nat)
    requires i < d && d + 1 < f <= |s| && s[d] == '.'
    requires forall k :: i <= k < d ==> IsDigit(s[k])
    requires forall k :: d + 1 <= k < f ==> IsDigit(s[k])
    requires f == |s| || !IsDigit(s[f])
    requires (if f < |s| && s[f] == '%' then f + 1 else f) < longer <= |s|
    ensures !IsNumberToken(s[i..longer])
  {
    var core := TokenCore(s[i..longer]);
    CoreReaches(s, i, f, longer);
    assert core[d - i] == '.';
    assert core[f - i] == s[f];
    DigitRun(s, i, d);
    assert core[..d - i] == s[i..d];
    FractionStops(core, d - i, f - i);
  }

  /** Position of one match in the text: `text[start..end]`. */
  datatype Span = Span(start: nat, end: nat)

  predicate MatchAt(s: string, sp: Span, from: nat) {
    from <= sp.start < sp.end <= |s| && IsDigit(s[sp.start]) && IsNumberToken(s[sp.start..sp.end])
  }

  /** The leftmost, non-overlapping matches in `s[i..]`, in text order; each one is the
      longest match from its first digit. */
  function Scan(s: string, i: nat): (r: seq<Span>)
    requires i <= |s|
    ensures forall k :: 0 <= k < |r| ==> MatchAt(s, r[k], i) && r[k].end == MatchEnd(s, r[k].start)
    ensures forall k :: 0 < k < |r| ==> r[k - 1].end <= r[k].start
    decreases |s| - i
  {
    if i == |s| then []
    else if !IsDigit(s[i]) then Scan(s, i + 1)
    else
      var e := MatchEnd(s, i);
      var rest := Scan(s, e);
      MatchEndIsToken(s, i);
      ScanCons(s, i, e, rest);
      [Span(i, e)] + rest
  }

  /** A match at `i` in front of the later matches keeps them ordered and greedy. */
  lemma ScanCons(s: string, i: nat, e: nat, rest: seq<Span>)
    requires i < |s| && IsDigit(s[i]) && e == MatchEnd(s, i) && IsNumberToken(s[i..e])
    requires forall k :: 0 <= k < |rest| ==> MatchAt(s, rest[k], e) && rest[k].end == MatchEnd(s, rest[k].start)
    requires forall k :: 0 < k < |rest| ==> rest[k - 1].end <= rest[k].start
    ensures var r := [Span(i, e)] + rest;
      && (forall k :: 0 <= k < |r| ==> MatchAt(s, r[k], i) && r[k].end == MatchEnd(s, r[k].start))
      && (forall k :: 0 < k < |r| ==> r[k - 1].end <= r[k].start)
  {
    var r := [Span(i, e)] + rest;
    forall k | 0 < k < |r|
      ensures r[k] == rest[k - 1]
    {
    }
  }

  predicate Covered(spans: seq<Span>, p: int) {
    exists k :: 0 <= k < |spans| && spans[k].start <= p < spans[k].end
  }

  /** No digit is skipped: every digit at or after `i` lies inside some match. */
  lemma {:induction false} ScanCovers(s: string, i: nat, p: nat)
    requires i <= p < |s| && IsDigit(s[p])
    ensures Covered(Scan(s, i), p)
    decreases |s| - i
  {
    var r := Scan(s, i);
    if !IsDigit(s[i]) {
      ScanCovers(s, i + 1, p);
    } else {
      var e := MatchEnd(s, i);
      if p < e {
        assert r[0] == Span(i, e);
      } else {
        ScanCovers(s, e, p);
        var k :| 0 <= k < |Scan(s, e)| && Scan(s, e)[k].start <= p < Scan(s, e)[k].end;
        assert r[k + 1] == Scan(s, e)[k];
      }
    }
  }

  lemma {:induction false} ScanNoDigits(s: string, i: nat)
    requires i <= |s|
    requires forall k :: i <= k < |s| ==> !IsDigit(s[k])
    ensures Scan(s, i) == []
    decreases |s| - i
  {
    if i < |s| {
      ScanNoDigits(s, i + 1);
    }
  }

  /** The matched text of each span, in order. */
  function Slices(s: string, spans: seq<Span>): (r: seq<string>)
    requires forall k :: 0 <= k < |spans| ==> spans[k].start <= spans[k].end <= |s|
    ensures |r| == |spans|
    ensures forall k :: 0 <= k < |spans| ==> r[k] == s[spans[k].start..spans[k].end]
  {
    if spans == [] then [] else [s[spans[0].start..spans[0].end]] + Slices(s, spans[1..])
  }

  /** `data_points`: every numeric token of the text, in text order. */
  function Numbers(s: string): seq<string>
  {
    Slices(s, Scan(s, 0))
  }

  /** The tokens are the texts of leftmost, non-overlapping matches that start with a
      digit, appear in text order, between them cover every digit of the text, and are
      each as long as a match from their first digit can be. */
  lemma NumbersAreMatches(s: string)
    ensures var spans := Scan(s, 0);
      && |Numbers(s)| == |spans|
      && (forall k :: 0 <= k < |spans| ==>
            MatchAt(s, spans[k], 0) && Numbers(s)[k] == s[spans[k].start..spans[k].end])
      && (forall k :: 0 < k < |spans| ==> spans[k - 1].end <= spans[k].start)
      && (forall p :: 0 <= p < |s| && IsDigit(s[p]) ==> Covered(spans, p))
      && (forall k, longer :: 0 <= k < |spans| && spans[k].end < longer <= |s| ==>
            !IsNumberToken(s[spans[k].start..longer]))
  {
    var spans := Scan(s, 0);
    forall k, longer | 0 <= k < |spans| && spans[k].end < longer <= |s|
      ensures !IsNumberToken(s[spans[k].start..longer])
    {
      MatchEndLongest(s, spans[k].start, longer);
    }
    forall p | 0 <= p < |s| && IsDigit(s[p])
      ensures Covered(Scan(s, 0), p)
    {
      ScanCovers(s, 0, p);
    }
  }

  /** A text yields no data points exactly when it has no digit. */
  lemma NumbersEmptyIffNoDigit(s: string)
    ensures Numbers(s) == [] <==> forall k :: 0 <= k < |s| ==> !IsDigit(s[k])
  {
    if forall k :: 0 <= k < |s| ==> !IsDigit(s[k]) {
      ScanNoDigits(s, 0);
    } else {
      var p :| 0 <= p < |s| && IsDigit(s[p]);
      ScanCovers(s, 0, p);
    }
  }

  // ---------------------------------------------------------------------------
  // Structure category
  // ---------------------------------------------------------------------------

  datatype Category = Sequential | Comparative | Hierarchical | Temporal | General

  /** The category's key in the analysis dictionary. */
  function CategoryName(c: Category): string
  {
    match c
    case Sequential => "sequential"
    case Comparative => "comparative"
    case Hierarchical => "hierarchical"
    case Temporal => "temporal"
    case General => "general"
  }

  const SequentialKeywords: seq<string> := ["first", "then", "next", "finally", "step"]
  const ComparativeKeywords: seq<string> := ["versus", "compared to", "better than", "vs"]
  const HierarchicalKeywords: seq<string> := ["top", "bottom", "level", "tier"]
  const TemporalKeywords: seq<string> := ["timeline", "history", "evolution", "year"]

  /** The keyword table in the dictionary's iteration order, which is the priority order. */
  const StructureKeywords: seq<(Category, seq<string>)> := [
    (Sequential, SequentialKeywords),
    (Comparative, ComparativeKeywords),
    (Hierarchical, HierarchicalKeywords),
    (Temporal, TemporalKeywords)
  ]

  /** `any(keyword in lowered for keyword in keywords)`. */
  function AnyKeyword(keywords: seq<string>, lowered: string): (b: bool)
    ensures b <==> exists k :: 0 <= k < |keywords| && Occurs(keywords[k], lowered)
  {
    if keywords == [] then false
    else Occurs(keywords[0], lowered) || AnyKeyword(keywords[1..], lowered)
  }

  /** The category of the first table row with a keyword in `lowered`, else `General`. */
  function FirstMatch(table: seq<(Category, seq<string>)>, lowered: string): Category
  {
    if table == [] then General
    else if AnyKeyword(table[0].1, lowered) then table[0].0
    else FirstMatch(table[1..], lowered)
  }

  /** The structure category the analyzer assigns to `text`. */
  function Classify(text: string): Category
  {
    FirstMatch(StructureKeywords, Lower(text))
  }

  /** First match wins: the result is the category of the earliest row that matches, and
      `General` exactly when no row matches. */
  lemma {:induction false} FirstMatchSpec(table: seq<(Category, seq<string>)>, lowered: string)
    requires forall j :: 0 <= j < |table| ==> table[j].0 != General
    ensures FirstMatch(table, lowered) == General <==>
              forall j :: 0 <= j < |table| ==> !AnyKeyword(table[j].1, lowered)
    ensures FirstMatch(table, lowered) != General ==>
              exists j :: 0 <= j < |table| && table[j].0 == FirstMatch(table, lowered) &&
                AnyKeyword(table[j].1, lowered) &&
                forall j' :: 0 <= j' < j ==> !AnyKeyword(table[j'].1, lowered)
  {
    if table != [] && !AnyKeyword(table[0].1, lowered) {
      FirstMatchSpec(table[1..], lowered);
      if FirstMatch(table, lowered) != General {
        var j :| 0 <= j < |table[1..]| && table[1..][j].0 == FirstMatch(table, lowered) &&
          AnyKeyword(table[1..][j].1, lowered) &&
          forall j' :: 0 <= j' < j ==> !AnyKeyword(table[1..][j'].1, lowered);
        assert table[j + 1] == table[1..][j];
        assert forall j' :: 1 <= j' < j + 1 ==> table[j'] == table[1..][j' - 1];
      }
    } else if table != [] {
      assert AnyKeyword(table[0].1, lowered);
    }
  }

  /** The priority order of the four categories, spelled out. */
  lemma ClassifyPriority(text: string)
    ensures var t := Lower(text);
      var s, c, h, m := AnyKeyword(SequentialKeywords, t), AnyKeyword(ComparativeKeywords, t),
                        AnyKeyword(HierarchicalKeywords, t), AnyKeyword(TemporalKeywords, t);
      && (Classify(text) == Sequential <==> s)
      && (Classify(text) == Comparative <==> !s && c)
      && (Classify(text) == Hierarchical <==> !s && !c && h)
      && (Classify(text) == Temporal <==> !s && !c && !h && m)
      && (Classify(text) == General <==> !s && !c && !h && !m)
  {
    var t := Lower(text);
    var T := StructureKeywords;
    assert T[1..][1..] == T[2..] && T[2..][1..] == T[3..] && T[3..][1..] == T[4..] == [];
    assert FirstMatch(T[3..], t) == if AnyKeyword(TemporalKeywords, t) then Temporal else General;
    assert FirstMatch(T[2..], t) ==
      if AnyKeyword(HierarchicalKeywords, t) then Hierarchical else FirstMatch(T[3..], t);
    assert FirstMatch(T[1..], t) ==
      if AnyKeyword(ComparativeKeywords, t) then Comparative else FirstMatch(T[2..], t);
  }

  /** A sequential keyword anywhere in the text, in any letter case, makes it sequential. */
  lemma SequentialKeywordWins(text: string, k: nat)
    requires k < |SequentialKeywords| && Occurs(SequentialKeywords[k], Lower(text))
    ensures Classify(text) == Sequential
  {
    ClassifyPriority(text);
  }

  lemma {:induction false} NoKeywordInEmpty(keywords: seq<string>)
    requires forall k :: 0 <= k < |keywords| ==> keywords[k] != []
    ensures !AnyKeyword(keywords, "")
  {
    if keywords != [] {
      NoKeywordInEmpty(keywords[1..]);
    }
  }

  /** The empty text matches no keyword. */
  lemma EmptyTextIsGeneral()
    ensures Classify("") == General
  {
    NoKeywordInEmpty(SequentialKeywords);
    NoKeywordInEmpty(ComparativeKeywords);
    NoKeywordInEmpty(HierarchicalKeywords);
    NoKeywordInEmpty(TemporalKeywords);
    ClassifyPriority("");
  }

  /** The keyword loop of `analyze_text`: it stops at the first category whose keyword
      list has a hit in the lower-cased text. */
  method DetectStructure(text: string) returns (detected: Category)
    ensures detected == Classify(text)
  {
    detected := General;
    var i := 0;
    while i < |StructureKeywords|
      invariant 0 <= i <= |StructureKeywords|
      invariant FirstMatch(StructureKeywords[i..], Lower(text)) == Classify(text)
    {
      var (structureType, keywords) := StructureKeywords[i];
      if AnyKeyword(keywords, Lower(text)) {
        detected := structureType;
        break;
      }
      assert StructureKeywords[i..][1..] == StructureKeywords[i + 1..];
      i := i + 1;
    }
  }

  // ---------------------------------------------------------------------------
  // Sentences, word count, complexity
  // ---------------------------------------------------------------------------

  /** `[p.strip() for p in pieces if p.strip()]`. */
  function KeepStripped(pieces: seq<string>): (r: seq<string>)
    ensures |r| <= |pieces|
    ensures forall k :: 0 <= k < |r| ==> r[k] != [] && IsStripped(r[k])
  {
    if pieces == [] then []
    else
      var t := Strip(pieces[0]);
      (if t == [] then [] else [t]) + KeepStripped(pieces[1..])
  }

  /** The positions at or after `i` of the pieces that are not all whitespace, in
      increasing order: the pieces the comprehension keeps. */
  function KeptFrom(pieces: seq<string>, i: nat): (idx: seq<nat>)
    requires i <= |pieces|
    ensures forall k :: 0 <= k < |idx| ==> i <= idx[k] < |pieces|
    decreases |pieces| - i
  {
    if i == |pieces| then []
    else if AllSpace(pieces[i]) then KeptFrom(pieces, i + 1)
    else [i] + KeptFrom(pieces, i + 1)
  }

  /** `KeptFrom` lists, in increasing order, exactly the positions from `i` on whose
      piece is not all whitespace. */
  lemma {:induction false} KeptFromSpec(pieces: seq<string>, i: nat)
    requires i <= |pieces|
    ensures var idx := KeptFrom(pieces, i);
      && (forall k :: 0 <= k < |idx| ==> !AllSpace(pieces[idx[k]]))
      && (forall k, l :: 0 <= k < l < |idx| ==> idx[k] < idx[l])
      && (forall j :: i <= j < |pieces| && !AllSpace(pieces[j]) ==> j in idx)
    decreases |pieces| - i
  {
    if i < |pieces| {
      KeptFromSpec(pieces, i + 1);
      var later := KeptFrom(pieces, i + 1);
      if !AllSpace(pieces[i]) {
        var idx := [i] + later;
        assert KeptFrom(pieces, i) == idx;
        forall k | 0 < k < |idx|
          ensures idx[k] == later[k - 1] && i < idx[k]
        {
        }
      }
    }
  }

  /** Every piece, stripped. */
  function StripEach(pieces: seq<string>): (r: seq<string>)
    ensures |r| == |pieces| && forall j :: 0 <= j < |pieces| ==> r[j] == Strip(pieces[j])
  {
    if pieces == [] then [] else [Strip(pieces[0])] + StripEach(pieces[1..])
  }

  /** One more position in front, taken or not: the values still match their positions. */
  lemma PickStep<T>(vals: seq<T>, i: nat, take: bool, rest: seq<T>, later: seq<nat>)
    requires i < |vals| && |rest| == |later|
    requires forall k :: 0 <= k < |rest| ==> later[k] < |vals| && rest[k] == vals[later[k]]
    ensures var r, idx := (if take then [vals[i]] else []) + rest, (if take then [i] else []) + later;
      |r| == |idx| && forall k :: 0 <= k < |r| ==> idx[k] < |vals| && r[k] == vals[idx[k]]
  {
    if take {
      var r, idx := [vals[i]] + rest, [i] + later;
      forall k | 0 < k < |r|
        ensures r[k] == rest[k - 1] && idx[k] == later[k - 1]
      {
      }
    }
  }

  lemma {:induction false} KeepStrippedFrom(pieces: seq<string>, i: nat)
    requires i <= |pieces|
    ensures var r, idx, vals := KeepStripped(pieces[i..]), KeptFrom(pieces, i), StripEach(pieces);
      |r| == |idx| && forall k :: 0 <= k < |r| ==> r[k] == vals[idx[k]]
    decreases |pieces| - i
  {
    if i < |pieces| {
      KeepStrippedFrom(pieces, i + 1);
      var vals := StripEach(pieces);
      var rest, later := KeepStripped(pieces[i + 1..]), KeptFrom(pieces, i + 1);
      var t := Strip(pieces[i]);
      PickStep(vals, i, t != [], rest, later);
      assert pieces[i..][0] == pieces[i] && pieces[i..][1..] == pieces[i + 1..];
      assert KeepStripped(pieces[i..]) == (if t != [] then [vals[i]] else []) + rest;
      assert KeptFrom(pieces, i) == (if t != [] then [i] else []) + later;
    }
  }

  /** The comprehension keeps, in order, the stripped form of exactly those pieces that
      are not all whitespace. */
  lemma KeepStrippedByIndex(pieces: seq<string>)
    ensures var r, idx := KeepStripped(pieces), KeptFrom(pieces, 0);
      |r| == |idx| && forall k :: 0 <= k < |r| ==> r[k] == Strip(pieces[idx[k]])
  {
    KeepStrippedFrom(pieces, 0);
    assert pieces[0..] == pieces;
  }

  /** The text's sentences: its `.`-separated pieces, stripped, empty ones dropped. */
  function Sentences(text: string): seq<string>
  {
    KeepStripped(Split(text, '.'))
  }

  predicate IsSentence(s: string) {
    s != [] && IsStripped(s) && '.' !in s
  }

  lemma {:induction false} KeepStrippedDotFree(pieces: seq<string>)
    requires forall k :: 0 <= k < |pieces| ==> '.' !in pieces[k]
    ensures forall k :: 0 <= k < |KeepStripped(pieces)| ==> '.' !in KeepStripped(pieces)[k]
  {
    if pieces != [] {
      KeepStrippedDotFree(pieces[1..]);
      var t := Strip(pieces[0]);
      var i :| IsStrippedAt(pieces[0], t, i);
      assert forall c :: c in t ==> c in pieces[0];
    }
  }

  /** Every sentence is non-empty, has no surrounding whitespace and no period. */
  lemma SentencesShape(text: string)
    ensures forall k :: 0 <= k < |Sentences(text)| ==> IsSentence(Sentences(text)[k])
  {
    KeepStrippedDotFree(Split(text, '.'));
  }

  lemma {:induction false} KeepStrippedOfSentences(ss: seq<string>)
    requires forall k :: 0 <= k < |ss| ==> IsSentence(ss[k])
    ensures KeepStripped(ss) == ss
  {
    if ss != [] {
      StripOfStripped(ss[0]);
      KeepStrippedOfSentences(ss[1..]);
    }
  }

  /** The sentences of any text are the stripped `.`-separated pieces that are not all
      whitespace, in text order. */
  lemma SentencesByIndex(text: string)
    ensures var pieces := Split(text, '.');
      var idx := KeptFrom(pieces, 0);
      |Sentences(text)| == |idx| &&
      forall k :: 0 <= k < |idx| ==> Sentences(text)[k] == Strip(pieces[idx[k]])
  {
    KeepStrippedByIndex(Split(text, '.'));
  }

  /** Joining sentences with periods and analysing the result gives them back, in order. */
  lemma SentencesJoin(ss: seq<string>)
    requires forall k :: 0 <= k < |ss| ==> IsSentence(ss[k])
    ensures Sentences(Join(ss, '.')) == ss
  {
    if ss == [] {
      assert Split("", '.') == [""];
      assert Strip("") == "";
    } else {
      SplitJoin(ss, '.');
      KeepStrippedOfSentences(ss);
    }
  }

  /** Python's `xs[:n]`. */
  function Take<T>(xs: seq<T>, n: nat): (r: seq<T>)
    ensures |r| == if |xs| <= n then |xs| else n
    ensures r == xs[..|r|]
  {
    if |xs| <= n then xs else xs[..n]
  }

  datatype Complexity = Simple | Complex

  /** The dictionary returned by `analyze_text`. */
  datatype Analysis = Analysis(
    keyPoints: seq<string>,
    dataPoints: seq<string>,
    structure: Category,
    wordCount: nat,
    complexity: Complexity)

  const MaxKeyPoints := 5

  /** What `analyze_text` returns for `text`. */
  function Analyze(text: string): Analysis
  {
    var sentences := Sentences(text);
    Analysis(
      Take(sentences, MaxKeyPoints),
      Numbers(text),
      Classify(text),
      |Words(text)|,
      if |sentences| < 5 then Simple else Complex)
  }

  /** The key points are the first five sentences, and the text is simple exactly when
      fewer than five sentences were kept, so exactly when fewer than five key points are. */
  lemma AnalysisFacts(text: string)
    ensures var a := Analyze(text);
      && |a.keyPoints| == (if |Sentences(text)| <= MaxKeyPoints then |Sentences(text)| else MaxKeyPoints)
      && a.keyPoints == Sentences(text)[..|a.keyPoints|]
      && (forall k :: 0 <= k < |a.keyPoints| ==> IsSentence(a.keyPoints[k]))
      && (a.complexity == Simple <==> |Sentences(text)| < 5)
      && (a.complexity == Simple <==> |a.keyPoints| < MaxKeyPoints)
      && a.wordCount == |Words(text)|
      && a.structure == Classify(text)
  {
    SentencesShape(text);
  }

  /** `AnalyzerAgent.analyze_text`. */
  method AnalyzeText(text: string) returns (analysis: Analysis)
    ensures analysis == Analyze(text)
  {
    var numbers := Numbers(text);
    var detected := DetectStructure(text);
    var sentences := Sentences(text);
    analysis := Analysis(
      Take(sentences, MaxKeyPoints),
      numbers,
      detected,
      |Words(text)|,
      if |sentences| < 5 then Simple else Complex);
  }
}
