// ASCII string primitives used by the analyzer: the parts of Python's `str`
// behaviour that the infographic pipeline relies on (`lower()`, `in`,
// `strip()`, `split(sep)`, `split()`), restricted to ASCII.

module AsciiText {

  /** `'0' <= c <= '9'`: the ASCII reading of the regular-expression class `\d`. */
  predicate IsDigit(c: char) {
    '0' <= c <= '9'
  }

  predicate IsUpper(c: char) {
    'A' <= c <= 'Z'
  }

  /** Python's `str.isspace()` on ASCII: tab, line feed, vertical tab, form feed,
      carriage return, the four information separators 0x1C-0x1F, and space. */
  predicate IsSpace(c: char) {
    var n := c as int;
    n == 32 || 9 <= n <= 13 || 28 <= n <= 31
  }

  predicate AllSpace(s: string) {
    forall k :: 0 <= k < |s| ==> IsSpace(s[k])
  }

  predicate NoSpace(s: string) {
    forall k :: 0 <= k < |s| ==> !IsSpace(s[k])
  }

  // ---------------------------------------------------------------------------
  // lower()
  // ---------------------------------------------------------------------------

  function LowerChar(c: char): (r: char)
    ensures !IsUpper(r)
    ensures IsUpper(c) ==> r as int == c as int + 32
    ensures !IsUpper(c) ==> r == c
  {
    if IsUpper(c) then (c as int + 32) as char else c
  }

  /** ASCII case folding, character by character. */
  function Lower(s: string): (r: string)
    ensures |r| == |s|
    ensures forall k :: 0 <= k < |s| ==> r[k] == LowerChar(s[k])
  {
    if s == [] then [] else [LowerChar(s[0])] + Lower(s[1..])
  }

  lemma {:induction false} LowerIdempotent(s: string)
    ensures Lower(Lower(s)) == Lower(s)
  {
    var l := Lower(s);
    assert forall k :: 0 <= k < |l| ==> Lower(l)[k] == l[k];
  }

  // ---------------------------------------------------------------------------
  // Substring test: Python's `needle in hay`
  // ---------------------------------------------------------------------------

  predicate OccursAt(needle: string, hay: string, i: int) {
    0 <= i && i + |needle| <= |hay| && hay[i..i + |needle|] == needle
  }

  /** Dropping the first character shifts every later slice one place to the left. */
  lemma ShiftSlice(hay: string, i: int, n: nat)
    requires 1 <= i && i + n <= |hay|
    ensures hay[1..][i - 1..i - 1 + n] == hay[i..i + n]
  {
    var shifted, slice := hay[1..][i - 1..i - 1 + n], hay[i..i + n];
    assert forall k :: 0 <= k < n ==> shifted[k] == slice[k];
  }

  /** True when `needle` occurs as a contiguous substring of `hay`. */
  function Occurs(needle: string, hay: string): (b: bool)
    ensures b <==> exists i :: OccursAt(needle, hay, i)
    decreases |hay|
  {
    if |hay| < |needle| then
      false
    else if hay[..|needle|] == needle then
      assert OccursAt(needle, hay, 0);
      true
    else
      var rest := Occurs(needle, hay[1..]);
      if rest then
        var i :| OccursAt(needle, hay[1..], i);
        assert OccursAt(needle, hay, i + 1) by {
          ShiftSlice(hay, i + 1, |needle|);
        }
        true
      else
        assert !OccursAt(needle, hay, 0) by {
          assert hay[0..|needle|] == hay[..|needle|];
        }
        forall i | 1 <= i && OccursAt(needle, hay, i)
          ensures OccursAt(needle, hay[1..], i - 1)
        {
          ShiftSlice(hay, i, |needle|);
        }
        false
  }

  // ---------------------------------------------------------------------------
  // strip()
  // ---------------------------------------------------------------------------

  /** Index of the first non-whitespace character at or after `i` (or `|s|`). */
  function SkipSpaces(s: string, i: nat): (e: nat)
    requires i <= |s|
    ensures i <= e <= |s|
    ensures forall k :: i <= k < e ==> IsSpace(s[k])
    ensures e == |s| || !IsSpace(s[e])
    decreases |s| - i
  {
    if i == |s| || !IsSpace(s[i]) then i else SkipSpaces(s, i + 1)
  }

  /** Index just past the last non-whitespace character of `s[lo..]`, or `lo`. */
  function TrimEnd(s: string, lo: nat): (e: nat)
    requires lo <= |s|
    ensures lo <= e <= |s|
    ensures forall k :: e <= k < |s| ==> IsSpace(s[k])
    ensures e == lo || !IsSpace(s[e - 1])
    decreases |s|
  {
    if |s| == lo || !IsSpace(s[|s| - 1]) then |s| else TrimEnd(s[..|s| - 1], lo)
  }

  /** Python's `s.strip()`: leading and trailing whitespace removed. */
  function Strip(s: string): (r: string)
    ensures r == [] <==> AllSpace(s)
    ensures r != [] ==> !IsSpace(r[0]) && !IsSpace(r[|r| - 1])
    ensures exists i :: IsStrippedAt(s, r, i)
  {
    var i := SkipSpaces(s, 0);
    var j := TrimEnd(s, i);
    assert IsStrippedAt(s, s[i..j], i);
    s[i..j]
  }

  /** `r` is the infix of `s` starting at `i`, and what surrounds it in `s` is whitespace. */
  predicate IsStrippedAt(s: string, r: string, i: int) {
    0 <= i && i + |r| <= |s| && r == s[i..i + |r|] &&
    AllSpace(s[..i]) && AllSpace(s[i + |r|..])
  }

  predicate IsStripped(s: string) {
    s == [] || (!IsSpace(s[0]) && !IsSpace(s[|s| - 1]))
  }

  lemma StripOfStripped(s: string)
    requires IsStripped(s)
    ensures Strip(s) == s
  {
    var i := SkipSpaces(s, 0);
    if s != [] {
      assert i == 0;
      assert TrimEnd(s, 0) == |s|;
    }
  }

  lemma StripIdempotent(s: string)
    ensures Strip(Strip(s)) == Strip(s)
  {
    StripOfStripped(Strip(s));
  }

  // ---------------------------------------------------------------------------
  // split(sep) and its inverse, sep.join(...)
  // ---------------------------------------------------------------------------

  /** Position of the first `d` in `s`. */
  function IndexOf(s: string, d: char): (i: nat)
    requires d in s
    ensures i < |s| && s[i] == d && d !in s[..i]
  {
    if s[0] == d then 0 else
      var i := IndexOf(s[1..], d);
      assert s[..i + 1] == [s[0]] + s[1..][..i];
      i + 1
  }

  /** `IndexOf` finds the first separator: any position of `d` with none before it is that one. */
  lemma {:induction false} IndexOfFirst(s: string, d: char, p: nat)
    requires p < |s| && s[p] == d && d !in s[..p]
    ensures IndexOf(s, d) == p
  {
    if p > 0 {
      assert s[0] == s[..p][0];
      assert s[1..][..p - 1] == s[1..p];
      assert forall k :: 0 <= k < p - 1 ==> s[1..p][k] == s[..p][k + 1];
      IndexOfFirst(s[1..], d, p - 1);
    }
  }

  /** Python's `s.split(d)` for a one-character separator: always at least one
      piece, and the pieces are the maximal `d`-free runs between separators. */
  function Split(s: string, d: char): (r: seq<string>)
    ensures |r| >= 1
    ensures forall k :: 0 <= k < |r| ==> d !in r[k]
    decreases |s|
  {
    if d !in s then [s]
    else
      var i := IndexOf(s, d);
      [s[..i]] + Split(s[i + 1..], d)
  }

  /** Python's `d.join(pieces)`. */
  function Join(pieces: seq<string>, d: char): string
  {
    if |pieces| == 0 then ""
    else if |pieces| == 1 then pieces[0]
    else pieces[0] + [d] + Join(pieces[1..], d)
  }

  lemma {:induction false} JoinSplit(s: string, d: char)
    ensures Join(Split(s, d), d) == s
    decreases |s|
  {
    if d in s {
      var i := IndexOf(s, d);
      JoinSplit(s[i + 1..], d);
      var pieces, rest := Split(s, d), Split(s[i + 1..], d);
      assert pieces == [s[..i]] + rest;
      assert pieces[1..] == rest;
      assert Join(pieces, d) == s[..i] + [d] + Join(rest, d);
      assert s == s[..i] + [d] + s[i + 1..];
    }
  }

  /** The parts of `p + [d] + rest`. */
  lemma Around(p: string, d: char, rest: string)
    ensures var s := p + [d] + rest; s[|p|] == d && s[..|p|] == p && s[|p| + 1..] == rest
  {
    var s := p + [d] + rest;
    assert forall k :: 0 <= k < |p| ==> s[..|p|][k] == p[k];
    assert forall k :: 0 <= k < |rest| ==> s[|p| + 1..][k] == rest[k];
  }

  lemma {:induction false} SplitJoin(pieces: seq<string>, d: char)
    requires |pieces| >= 1
    requires forall k :: 0 <= k < |pieces| ==> d !in pieces[k]
    ensures Split(Join(pieces, d), d) == pieces
  {
    if |pieces| > 1 {
      var p, rest := pieces[0], Join(pieces[1..], d);
      var s := Join(pieces, d);
      assert s == p + [d] + rest;
      Around(p, d, rest);
      IndexOfFirst(s, d, |p|);
      SplitJoin(pieces[1..], d);
      assert Split(s, d) == [p] + Split(rest, d);
      assert pieces == [p] + pieces[1..];
    }
  }

  // ---------------------------------------------------------------------------
  // split(): whitespace-separated words
  // ---------------------------------------------------------------------------

  /** Index just past the run of non-whitespace characters starting at `i`. */
  function WordEnd(s: string, i: nat): (e: nat)
    requires i <= |s|
    ensures i <= e <= |s|
    ensures forall k :: i <= k < e ==> !IsSpace(s[k])
    ensures e == |s| || IsSpace(s[e])
    decreases |s| - i
  {
    if i == |s| || IsSpace(s[i]) then i else WordEnd(s, i + 1)
  }

  /** Python's `s.split()` with no argument: the maximal runs of non-whitespace. */
  function Words(s: string): (r: seq<string>)
    ensures forall k :: 0 <= k < |r| ==> r[k] != [] && NoSpace(r[k])
    decreases |s|
  {
    var i := SkipSpaces(s, 0);
    if i == |s| then []
    else
      var e := WordEnd(s, i);
      [s[i..e]] + Words(s[e..])
  }

  lemma WordsOfBlank(s: string)
    ensures Words(s) == [] <==> AllSpace(s)
  {
  }

  /** `split()` undoes `' '.join(...)` on non-empty words without whitespace. */
  lemma {:induction false} WordsJoin(words: seq<string>)
    requires forall k :: 0 <= k < |words| ==> words[k] != [] && NoSpace(words[k])
    ensures Words(Join(words, ' ')) == words
  {
    if |words| == 1 {
      var w := words[0];
      assert SkipSpaces(w, 0) == 0;
      WordEndAt(w, 0, |w|);
      assert w[0..|w|] == w;
      assert w[|w|..] == [];
      assert Words([]) == [];
    } else if |words| > 1 {
      var w := words[0];
      var rest := Join(words[1..], ' ');
      var s := Join(words, ' ');
      assert s == w + [' '] + rest;
      assert SkipSpaces(s, 0) == 0;
      WordEndAt(s, 0, |w|);
      var e := |w|;
      assert s[..e] == w;
      var t := s[e..];
      assert t == [' '] + rest;
      WordsJoin(words[1..]);
      WordsAfterSpace(' ', rest);
    }
  }

  /** `SkipSpaces` stops at the first non-whitespace position, whichever way that is found. */
  lemma {:induction false} SkipSpacesAt(s: string, i: nat, p: nat)
    requires i <= p <= |s|
    requires forall k :: i <= k < p ==> IsSpace(s[k])
    requires p == |s| || !IsSpace(s[p])
    ensures SkipSpaces(s, i) == p
    decreases p - i
  {
    if i < p {
      SkipSpacesAt(s, i + 1, p);
    }
  }

  /** `WordEnd` stops at the first whitespace position, whichever way that is found. */
  lemma {:induction false} WordEndAt(s: string, i: nat, p: nat)
    requires i <= p <= |s|
    requires forall k :: i <= k < p ==> !IsSpace(s[k])
    requires p == |s| || IsSpace(s[p])
    ensures WordEnd(s, i) == p
    decreases p - i
  {
    if i < p {
      WordEndAt(s, i + 1, p);
    }
  }

  /** Slicing behind one leading character is slicing the rest, one place further on. */
  lemma ConsSlice(c: char, s: string, a: nat, b: nat)
    requires a <= b <= |s|
    ensures ([c] + s)[a + 1..b + 1] == s[a..b]
  {
    var t := [c] + s;
    forall k | 0 <= k < b - a
      ensures t[a + 1..b + 1][k] == s[a..b][k]
    {
      assert t[a + 1 + k] == s[a + k];
    }
  }

  /** A leading whitespace character moves the first non-whitespace position one place on. */
  lemma SkipAfterSpace(c: char, s: string)
    requires IsSpace(c)
    ensures SkipSpaces([c] + s, 0) == SkipSpaces(s, 0) + 1
  {
    var t := [c] + s;
    var j := SkipSpaces(s, 0);
    forall k | 0 <= k < j + 1
      ensures IsSpace(t[k])
    {
      if k > 0 {
        assert t[k] == s[k - 1];
      }
    }
    if j < |s| {
      assert t[j + 1] == s[j];
    }
    SkipSpacesAt(t, 0, j + 1);
  }

  /** A leading character moves the end of every word one place on. */
  lemma WordEndAfterSpace(c: char, s: string, j: nat)
    requires j <= |s|
    ensures WordEnd([c] + s, j + 1) == WordEnd(s, j) + 1
  {
    var t := [c] + s;
    var e := WordEnd(s, j);
    forall k | j + 1 <= k < e + 1
      ensures !IsSpace(t[k])
    {
      assert t[k] == s[k - 1];
    }
    if e < |s| {
      assert t[e + 1] == s[e];
    }
    WordEndAt(t, j + 1, e + 1);
  }

  /** Dropping one leading character shifts every suffix by one place. */
  lemma ConsSuffix(c: char, s: string, a: nat)
    requires a <= |s|
    ensures ([c] + s)[a + 1..] == s[a..]
  {
    var t := [c] + s;
    forall k | 0 <= k < |s| - a
      ensures t[a + 1..][k] == s[a..][k]
    {
      assert t[a + 1 + k] == s[a + k];
    }
  }

  /** Two strings whose first words and remainders agree have the same words. */
  lemma WordsAgree(t: string, s: string, j: nat, e: nat)
    requires j < |s| && |t| == |s| + 1
    requires SkipSpaces(s, 0) == j && SkipSpaces(t, 0) == j + 1
    requires WordEnd(s, j) == e && WordEnd(t, j + 1) == e + 1
    requires t[j + 1..e + 1] == s[j..e] && t[e + 1..] == s[e..]
    ensures Words(t) == Words(s)
  {
  }

  /** A leading whitespace character does not change the words. */
  lemma WordsAfterSpace(c: char, s: string)
    requires IsSpace(c)
    ensures Words([c] + s) == Words(s)
  {
    var t := [c] + s;
    var j := SkipSpaces(s, 0);
    SkipAfterSpace(c, s);
    if j < |s| {
      var e := WordEnd(s, j);
      WordEndAfterSpace(c, s, j);
      ConsSlice(c, s, j, e);
      ConsSuffix(c, s, e);
      WordsAgree(t, s, j, e);
    }
  }

  /** Leading whitespace of any kind and length does not change the words. */
  lemma {:induction false} WordsAfterBlank(b: string, s: string)
    requires AllSpace(b)
    ensures Words(b + s) == Words(s)
  {
    if b != [] {
      var c, more := b[0], b[1..];
      assert AllSpace(more) by {
        forall k | 0 <= k < |more|
          ensures IsSpace(more[k])
        {
          assert more[k] == b[k + 1];
        }
      }
      WordsAfterBlank(more, s);
      assert b + s == [c] + (more + s);
      WordsAfterSpace(c, more + s);
    } else {
      assert b + s == s;
    }
  }

  /** A text whose first word is `w` splits into `w` and the words of what follows. */
  lemma WordsFirst(t: string, w: string, rest: string)
    requires w != [] && |t| == |w| + |rest|
    requires SkipSpaces(t, 0) == 0 && WordEnd(t, 0) == |w|
    requires t[0..|w|] == w && t[|w|..] == rest
    ensures Words(t) == [w] + Words(rest)
  {
  }

  /** A word followed by nothing or by whitespace is the first of the words. */
  lemma WordsCons(w: string, s: string)
    requires w != [] && NoSpace(w)
    requires s == [] || IsSpace(s[0])
    ensures Words(w + s) == [w] + Words(s)
  {
    var t := w + s;
    assert t[0] == w[0];
    SkipSpacesAt(t, 0, 0);
    forall k | 0 <= k < |w|
      ensures !IsSpace(t[k])
    {
      assert t[k] == w[k];
    }
    if s != [] {
      assert t[|w|] == s[0];
    }
    WordEndAt(t, 0, |w|);
    assert t[0..|w|] == w && t[|w|..] == s;
    WordsFirst(t, w, s);
  }
}
