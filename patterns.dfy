/** The fragment of Python's `re` that the chat bot's patterns use, on a lower-cased message
    (which is what `re.IGNORECASE` amounts to for ASCII text): alternations of literal words,
    optional alternations, `\s*`, `\s+`, the word boundary `\b`, and the anchors `^` and `$`.
    A pattern is a sequence of segments; `MatchSpan` says that the pattern can match exactly
    the text between two positions, trying every alternative and every split (so it accepts
    what a backtracking matcher accepts), and `Found` is `re.search(...)` being truthy. */
module Patterns {
  import opened Text

  datatype Seg =
    | Lit(alts: seq<string>)     // (?:w1|w2|...)
    | OptLit(alts: seq<string>)  // (?:w1|w2|...)?
    | Spaces                     // \s*
    | Spaces1                    // \s+
    | Boundary                   // \b
    | TextStart                  // ^
    | TextEnd                    // $ : the end, or just before a final line feed

  /** Every character of `s[i..j]` is white space. */
  predicate AllSpace(s: string, i: int, j: int)
    requires 0 <= i <= j <= |s|
  {
    forall k :: i <= k < j ==> IsSpace(s[k])
  }

  /** `\b`: a word character on exactly one side of position `i`. */
  predicate AtBoundary(s: string, i: int)
    requires 0 <= i <= |s|
  {
    (i > 0 && IsWordChar(s[i - 1])) != (i < |s| && IsWordChar(s[i]))
  }

  /** The pattern `segs` matches exactly `s[i..e]`, with the rest of `s` as context. */
  predicate MatchSpan(segs: seq<Seg>, s: string, i: int, e: int)
    requires 0 <= i <= e <= |s|
    decreases |segs|
  {
    if segs == [] then i == e
    else
      var rest := segs[1..];
      match segs[0]
      case Lit(alts) =>
        exists k :: 0 <= k < |alts| && i + |alts[k]| <= e && StartsAt(s, i, alts[k])
                    && MatchSpan(rest, s, i + |alts[k]|, e)
      case OptLit(alts) =>
        MatchSpan(rest, s, i, e)
        || exists k :: 0 <= k < |alts| && i + |alts[k]| <= e && StartsAt(s, i, alts[k])
                       && MatchSpan(rest, s, i + |alts[k]|, e)
      case Spaces => exists m :: i <= m <= e && AllSpace(s, i, m) && MatchSpan(rest, s, m, e)
      case Spaces1 => exists m :: i < m <= e && AllSpace(s, i, m) && MatchSpan(rest, s, m, e)
      case Boundary => AtBoundary(s, i) && MatchSpan(rest, s, i, e)
      case TextStart => i == 0 && MatchSpan(rest, s, i, e)
      case TextEnd => (i == |s| || (i == |s| - 1 && s[i] == '\n')) && MatchSpan(rest, s, i, e)
  }

  /** Some match of `segs` starts at `i`. */
  predicate MatchesAt(segs: seq<Seg>, s: string, i: int)
    requires 0 <= i <= |s|
  {
    exists e :: i <= e <= |s| && MatchSpan(segs, s, i, e)
  }

  /** `re.search(pattern, s)` finds a match. */
  predicate Found(segs: seq<Seg>, s: string) {
    exists i :: 0 <= i <= |s| && MatchesAt(segs, s, i)
  }

  /** `\b(?:w1|w2|...)\b` matches an alternative standing as a whole word. */
  lemma WordMatch(alts: seq<string>, k: nat, s: string, i: nat)
    requires k < |alts| && i + |alts[k]| <= |s| && StartsAt(s, i, alts[k])
    requires AtBoundary(s, i) && AtBoundary(s, i + |alts[k]|)
    ensures MatchesAt([Boundary, Lit(alts), Boundary], s, i)
  {
    var p := [Boundary, Lit(alts), Boundary];
    var e := i + |alts[k]|;
    assert p[1..] == [Lit(alts), Boundary] && p[1..][1..] == [Boundary] && [Boundary][1..] == [];
    assert MatchSpan([Boundary], s, e, e);
    assert MatchSpan(p[1..], s, i, e);
    assert MatchSpan(p, s, i, e);
  }

  /** `^(?:w1|w2|...)$` matches a text that is exactly one alternative. */
  lemma WholeTextMatch(alts: seq<string>, k: nat, s: string)
    requires k < |alts| && s == alts[k]
    ensures MatchesAt([TextStart, Lit(alts), TextEnd], s, 0)
  {
    var p := [TextStart, Lit(alts), TextEnd];
    assert StartsAt(s, 0, alts[k]);
    assert p[1..] == [Lit(alts), TextEnd] && p[1..][1..] == [TextEnd] && [TextEnd][1..] == [];
    assert MatchSpan([TextEnd], s, |s|, |s|);
    assert MatchSpan(p[1..], s, 0, |s|);
    assert MatchSpan(p, s, 0, |s|);
  }

  /** Some alternative starts at `i` and ends at a word boundary. */
  predicate WordFrom(s: string, alts: seq<string>, i: int) {
    exists k :: 0 <= k < |alts| && StartsAt(s, i, alts[k]) && AtBoundary(s, i + |alts[k]|)
  }

  /** An alternative stands at `i` as a whole word. */
  predicate WordAt(s: string, alts: seq<string>, i: int) {
    0 <= i <= |s| && AtBoundary(s, i) && WordFrom(s, alts, i)
  }

  /** `\b(?:w1|w2|...)\b` matches at `i` exactly when an alternative stands there as a whole
      word. */
  lemma WordMatchIff(alts: seq<string>, s: string, i: nat)
    requires i <= |s|
    ensures MatchesAt([Boundary, Lit(alts), Boundary], s, i) <==> WordAt(s, alts, i)
  {
    var p := [Boundary, Lit(alts), Boundary];
    if MatchesAt(p, s, i) {
      var e :| i <= e <= |s| && MatchSpan(p, s, i, e);
      assert p[1..] == [Lit(alts), Boundary];
      WordEndSpan(alts, s, i, e);
    }
    if WordAt(s, alts, i) {
      var k :| 0 <= k < |alts| && StartsAt(s, i, alts[k]) && AtBoundary(s, i + |alts[k]|);
      WordMatch(alts, k, s, i);
    }
  }

  /** `^(?:w1|w2|...)$` is found exactly when the text is one alternative, optionally followed
      by a single line feed. */
  lemma WholeTextIff(alts: seq<string>, s: string)
    ensures Found([TextStart, Lit(alts), TextEnd], s) <==>
            exists k :: 0 <= k < |alts| && (s == alts[k] || s == alts[k] + "\n")
  {
    var p := [TextStart, Lit(alts), TextEnd];
    if Found(p, s) {
      var i :| 0 <= i <= |s| && MatchesAt(p, s, i);
      var e :| i <= e <= |s| && MatchSpan(p, s, i, e);
      assert p[1..] == [Lit(alts), TextEnd];
      WholeTextSpan(alts, s, e);
    }
    if exists k :: 0 <= k < |alts| && (s == alts[k] || s == alts[k] + "\n") {
      var k :| 0 <= k < |alts| && (s == alts[k] || s == alts[k] + "\n");
      WholeTextBuild(alts, s, k);
    }
  }

  /** A match of `(?:w1|w2|...)$` over the whole text is one alternative, optionally followed by
      a line feed. */
  lemma WholeTextSpan(alts: seq<string>, s: string, e: nat)
    requires e <= |s| && MatchSpan([Lit(alts), TextEnd], s, 0, e)
    ensures exists k :: 0 <= k < |alts| && (s == alts[k] || s == alts[k] + "\n")
  {
    assert [Lit(alts), TextEnd][1..] == [TextEnd];
    var k :| 0 <= k < |alts| && |alts[k]| <= e && StartsAt(s, 0, alts[k])
              && MatchSpan([TextEnd], s, |alts[k]|, e);
    var n := |alts[k]|;
    assert n == |s| || (n == |s| - 1 && s[n] == '\n');
    assert s == s[..n] + s[n..] && s[..n] == alts[k];
    if n < |s| {
      assert s[n..] == "\n";
    }
  }

  /** A text that is an alternative, optionally followed by a line feed, is matched by
      `^(?:w1|w2|...)$`. */
  lemma WholeTextBuild(alts: seq<string>, s: string, k: nat)
    requires k < |alts| && (s == alts[k] || s == alts[k] + "\n")
    ensures MatchesAt([TextStart, Lit(alts), TextEnd], s, 0)
  {
    var p := [TextStart, Lit(alts), TextEnd];
    var n := |alts[k]|;
    assert StartsAt(s, 0, alts[k]) by { assert s[..n] == alts[k]; }
    assert [TextEnd][1..] == [] && MatchSpan([TextEnd], s, n, n);
    assert p[1..] == [Lit(alts), TextEnd] && MatchSpan(p[1..], s, 0, n);
    assert MatchSpan(p, s, 0, n);
  }

  /** `re.search` of `\b(?:w1|w2|...)\b` finds a match exactly when an alternative stands
      somewhere as a whole word. */
  lemma WordFoundIff(alts: seq<string>, s: string)
    ensures Found([Boundary, Lit(alts), Boundary], s) <==> exists i :: WordAt(s, alts, i)
  {
    var p := [Boundary, Lit(alts), Boundary];
    if Found(p, s) {
      var i :| 0 <= i <= |s| && MatchesAt(p, s, i);
      WordMatchIff(alts, s, i);
    }
    if exists i :: WordAt(s, alts, i) {
      var i :| WordAt(s, alts, i);
      WordMatchIff(alts, s, i);
    }
  }

  /** An alternative of `a` starting a word at `i`, white space, then an alternative of `b`
      ending a word. */
  predicate PhraseAt(s: string, a: seq<string>, b: seq<string>, i: int) {
    0 <= i <= |s| && AtBoundary(s, i)
    && exists k, m :: 0 <= k < |a| && StartsAt(s, i, a[k]) && i + |a[k]| < m <= |s|
                      && AllSpace(s, i + |a[k]|, m) && WordFrom(s, b, m)
  }

  /** A match of `\b(?:a...)\s+(?:b...)\b` at `i` is such a phrase. */
  lemma PhraseSpan(a: seq<string>, b: seq<string>, s: string, i: nat, e: nat)
    requires i <= e <= |s| && MatchSpan([Boundary, Lit(a), Spaces1, Lit(b), Boundary], s, i, e)
    ensures PhraseAt(s, a, b, i)
  {
    var p := [Boundary, Lit(a), Spaces1, Lit(b), Boundary];
    var p1 := [Lit(a), Spaces1, Lit(b), Boundary];
    var p2 := [Spaces1, Lit(b), Boundary];
    assert p[1..] == p1 && p1[1..] == p2;
    assert AtBoundary(s, i) && MatchSpan(p1, s, i, e);
    var k :| 0 <= k < |a| && i + |a[k]| <= e && StartsAt(s, i, a[k]) && MatchSpan(p2, s, i + |a[k]|, e);
    SpacedWordSpan(b, s, i + |a[k]|, e);
  }

  /** A match of `\s+(?:b...)\b` from `n`: white space, then an alternative ending a word. */
  lemma SpacedWordSpan(b: seq<string>, s: string, n: nat, e: nat)
    requires n <= e <= |s| && MatchSpan([Spaces1, Lit(b), Boundary], s, n, e)
    ensures exists m :: n < m <= |s| && AllSpace(s, n, m) && WordFrom(s, b, m)
  {
    var p2 := [Spaces1, Lit(b), Boundary];
    assert p2[0] == Spaces1 && p2[1..] == [Lit(b), Boundary];
    var m :| n < m <= e && AllSpace(s, n, m) && MatchSpan([Lit(b), Boundary], s, m, e);
    WordEndSpan(b, s, m, e);
  }

  /** A match of `(?:b...)\b` from `m` is an alternative ending a word. */
  lemma WordEndSpan(b: seq<string>, s: string, m: nat, e: nat)
    requires m <= e <= |s| && MatchSpan([Lit(b), Boundary], s, m, e)
    ensures WordFrom(s, b, m)
  {
    assert [Lit(b), Boundary][1..] == [Boundary];
    var j :| 0 <= j < |b| && m + |b[j]| <= e && StartsAt(s, m, b[j]) && MatchSpan([Boundary], s, m + |b[j]|, e);
    assert AtBoundary(s, m + |b[j]|);
  }

  /** Such a phrase at `i` is a match of `\b(?:a...)\s+(?:b...)\b`. */
  lemma PhraseBuild(a: seq<string>, b: seq<string>, s: string, i: nat, k: nat, m: nat, j: nat)
    requires i <= |s| && AtBoundary(s, i) && k < |a| && StartsAt(s, i, a[k])
    requires i + |a[k]| < m <= |s| && AllSpace(s, i + |a[k]|, m)
    requires j < |b| && StartsAt(s, m, b[j]) && AtBoundary(s, m + |b[j]|)
    ensures MatchesAt([Boundary, Lit(a), Spaces1, Lit(b), Boundary], s, i)
  {
    var p := [Boundary, Lit(a), Spaces1, Lit(b), Boundary];
    var p1 := [Lit(a), Spaces1, Lit(b), Boundary];
    var p2 := [Spaces1, Lit(b), Boundary];
    var e := m + |b[j]|;
    SpacedWordBuild(b, s, i + |a[k]|, m, j);
    assert p[1..] == p1 && p1[1..] == p2;
    assert MatchSpan(p1, s, i, e);
    assert MatchSpan(p, s, i, e);
  }

  /** White space from `n` to `m`, then an alternative ending a word, matches `\s+(?:b...)\b`. */
  lemma SpacedWordBuild(b: seq<string>, s: string, n: nat, m: nat, j: nat)
    requires n < m <= |s| && AllSpace(s, n, m)
    requires j < |b| && StartsAt(s, m, b[j]) && AtBoundary(s, m + |b[j]|)
    ensures MatchSpan([Spaces1, Lit(b), Boundary], s, n, m + |b[j]|)
  {
    var e := m + |b[j]|;
    assert [Boundary][1..] == [] && MatchSpan([Boundary], s, e, e);
    assert [Lit(b), Boundary][1..] == [Boundary] && MatchSpan([Lit(b), Boundary], s, m, e);
    assert [Spaces1, Lit(b), Boundary][1..] == [Lit(b), Boundary];
  }

  /** `re.search` of `\b(?:a...)\s+(?:b...)\b` finds a match exactly when such a phrase stands
      somewhere. */
  lemma PhraseFoundIff(a: seq<string>, b: seq<string>, s: string)
    ensures Found([Boundary, Lit(a), Spaces1, Lit(b), Boundary], s) <==> exists i :: PhraseAt(s, a, b, i)
  {
    var p := [Boundary, Lit(a), Spaces1, Lit(b), Boundary];
    if Found(p, s) {
      var i :| 0 <= i <= |s| && MatchesAt(p, s, i);
      var e :| i <= e <= |s| && MatchSpan(p, s, i, e);
      PhraseSpan(a, b, s, i, e);
    }
    if exists i :: PhraseAt(s, a, b, i) {
      var i :| PhraseAt(s, a, b, i);
      var k, m :| 0 <= k < |a| && StartsAt(s, i, a[k]) && i + |a[k]| < m <= |s|
                  && AllSpace(s, i + |a[k]|, m) && WordFrom(s, b, m);
      var j :| 0 <= j < |b| && StartsAt(s, m, b[j]) && AtBoundary(s, m + |b[j]|);
      PhraseBuild(a, b, s, i, k, m, j);
    }
  }

  /** Some alternative of `b` starts at `m`. */
  predicate AltAt(s: string, b: seq<string>, m: int) {
    exists j :: 0 <= j < |b| && StartsAt(s, m, b[j])
  }

  /** An alternative of `a` at `i`, white space, then an alternative of `b`, with no word
      boundaries asked for. */
  predicate PairAt(s: string, a: seq<string>, b: seq<string>, i: int) {
    0 <= i <= |s|
    && exists k, m :: 0 <= k < |a| && StartsAt(s, i, a[k]) && i + |a[k]| < m <= |s|
                      && AllSpace(s, i + |a[k]|, m) && AltAt(s, b, m)
  }

  /** A match of `(?:a...)\s+(?:b...)` at `i` is such a pair. */
  lemma PairSpan(a: seq<string>, b: seq<string>, s: string, i: nat, e: nat)
    requires i <= e <= |s| && MatchSpan([Lit(a), Spaces1, Lit(b)], s, i, e)
    ensures PairAt(s, a, b, i)
  {
    var p1 := [Lit(a), Spaces1, Lit(b)];
    var p2 := [Spaces1, Lit(b)];
    assert p1[1..] == p2;
    var k :| 0 <= k < |a| && i + |a[k]| <= e && StartsAt(s, i, a[k]) && MatchSpan(p2, s, i + |a[k]|, e);
    SpacedAltSpan(b, s, i + |a[k]|, e);
  }

  /** A match of `\s+(?:b...)` from `n`: white space, then an alternative. */
  lemma SpacedAltSpan(b: seq<string>, s: string, n: nat, e: nat)
    requires n <= e <= |s| && MatchSpan([Spaces1, Lit(b)], s, n, e)
    ensures exists m :: n < m <= |s| && AllSpace(s, n, m) && AltAt(s, b, m)
  {
    var p2 := [Spaces1, Lit(b)];
    assert p2[0] == Spaces1 && p2[1..] == [Lit(b)];
    var m :| n < m <= e && AllSpace(s, n, m) && MatchSpan([Lit(b)], s, m, e);
    assert [Lit(b)][1..] == [];
    var j :| 0 <= j < |b| && m + |b[j]| <= e && StartsAt(s, m, b[j]) && MatchSpan([], s, m + |b[j]|, e);
    assert AltAt(s, b, m);
  }

  /** Such a pair at `i` is a match of `(?:a...)\s+(?:b...)`. */
  lemma PairBuild(a: seq<string>, b: seq<string>, s: string, i: nat, k: nat, m: nat, j: nat)
    requires k < |a| && StartsAt(s, i, a[k])
    requires i + |a[k]| < m <= |s| && AllSpace(s, i + |a[k]|, m)
    requires j < |b| && StartsAt(s, m, b[j])
    ensures MatchesAt([Lit(a), Spaces1, Lit(b)], s, i)
  {
    var p1 := [Lit(a), Spaces1, Lit(b)];
    var p2 := [Spaces1, Lit(b)];
    var e := m + |b[j]|;
    assert [Lit(b)][1..] == [] && MatchSpan([Lit(b)], s, m, e);
    assert p2[1..] == [Lit(b)] && MatchSpan(p2, s, i + |a[k]|, e);
    assert p1[1..] == p2;
    assert MatchSpan(p1, s, i, e);
  }

  /** `re.search` of `(?:a...)\s+(?:b...)` finds a match exactly when such a pair stands
      somewhere, inside a word or not. */
  lemma PairFoundIff(a: seq<string>, b: seq<string>, s: string)
    ensures Found([Lit(a), Spaces1, Lit(b)], s) <==> exists i :: PairAt(s, a, b, i)
  {
    var p := [Lit(a), Spaces1, Lit(b)];
    if Found(p, s) {
      var i :| 0 <= i <= |s| && MatchesAt(p, s, i);
      var e :| i <= e <= |s| && MatchSpan(p, s, i, e);
      PairSpan(a, b, s, i, e);
    }
    if exists i :: PairAt(s, a, b, i) {
      var i :| PairAt(s, a, b, i);
      var k, m :| 0 <= k < |a| && StartsAt(s, i, a[k]) && i + |a[k]| < m <= |s|
                  && AllSpace(s, i + |a[k]|, m) && AltAt(s, b, m);
      var j :| 0 <= j < |b| && StartsAt(s, m, b[j]);
      PairBuild(a, b, s, i, k, m, j);
    }
  }

  // ------------------------------------------------------------ digit runs

  /** Index just past the run of digits that starts at `i`. */
  function RunEnd(s: string, i: nat): (e: nat)
    requires i <= |s|
    ensures i <= e <= |s|
    ensures forall k :: i <= k < e ==> IsDigit(s[k])
    ensures e < |s| ==> !IsDigit(s[e])
    decreases |s| - i
  {
    if i < |s| && IsDigit(s[i]) then RunEnd(s, i + 1) else i
  }

  /** `\d{3}` matches at `i`. */
  predicate ThreeDigitsAt(s: string, i: int) {
    0 <= i && i + 3 <= |s| && IsDigit(s[i]) && IsDigit(s[i + 1]) && IsDigit(s[i + 2])
  }

  /** Index of the first digit at or after `i`, or `|s|`. */
  function NextDigit(s: string, i: nat): (j: nat)
    requires i <= |s|
    ensures i <= j <= |s|
    ensures forall k :: i <= k < j ==> !IsDigit(s[k])
    ensures j < |s| ==> IsDigit(s[j])
    decreases |s| - i
  {
    if i < |s| && !IsDigit(s[i]) then NextDigit(s, i + 1) else i
  }
}
