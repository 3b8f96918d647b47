/** Character classes and the few string operations the chat bot and the engine use:
    `str.lower()`, `str.strip()`, the substring test `w in s`, and decimal parsing.
    Characters are classified as in ASCII. */
module Text {

  predicate IsDigit(c: char) { '0' <= c <= '9' }

  predicate IsUpper(c: char) { 'A' <= c <= 'Z' }

  predicate IsLetter(c: char) { 'a' <= c <= 'z' || IsUpper(c) }

  /** `\w`: letters, digits and the underscore. */
  predicate IsWordChar(c: char) { IsLetter(c) || IsDigit(c) || c == '_' }

  /** `\s` and `str.isspace()`: space, tab, line feed, vertical tab, form feed, carriage
      return and the four separator controls 0x1C-0x1F. */
  predicate IsSpace(c: char) {
    c == ' ' || c == '\t' || c == '\n' || c == '\r' || c == '\U{B}' || c == '\U{C}'
    || ('\U{1C}' <= c <= '\U{1F}')
  }

  function LowerChar(c: char): (r: char)
    ensures IsUpper(c) ==> r as int == c as int + 32
    ensures !IsUpper(c) ==> r == c
    ensures !IsUpper(r)
  {
    if IsUpper(c) then (c as int + 32) as char else c
  }

  /** `s.lower()`: maps every upper-case letter to its lower-case partner. */
  function Lower(s: string): (r: string)
    ensures |r| == |s|
    ensures forall k :: 0 <= k < |s| ==> r[k] == LowerChar(s[k])
  {
    if s == [] then [] else [LowerChar(s[0])] + Lower(s[1..])
  }

  /** Index of the first character at or after `i` that is not white space. */
  function SkipSpaces(s: string, i: nat): (j: nat)
    requires i <= |s|
    ensures i <= j <= |s|
    ensures forall k :: i <= k < j ==> IsSpace(s[k])
    ensures j < |s| ==> !IsSpace(s[j])
    decreases |s| - i
  {
    if i < |s| && IsSpace(s[i]) then SkipSpaces(s, i + 1) else i
  }

  /** Length of `s` once its trailing white space is removed. */
  function TrimmedEnd(s: string): (n: nat)
    ensures n <= |s|
    ensures forall k :: n <= k < |s| ==> IsSpace(s[k])
    ensures n > 0 ==> !IsSpace(s[n - 1])
  {
    if s != [] && IsSpace(s[|s| - 1]) then TrimmedEnd(s[..|s| - 1]) else |s|
  }

  /** `s.strip()`: removes white space from both ends, and nothing else. */
  function Strip(s: string): (r: string)
    ensures exists i, j ::
              && 0 <= i <= j <= |s| && r == s[i..j]
              && (forall k :: 0 <= k < i ==> IsSpace(s[k]))
              && (forall k :: j <= k < |s| ==> IsSpace(s[k]))
    ensures r != [] ==> !IsSpace(r[0]) && !IsSpace(r[|r| - 1])
  {
    var i := SkipSpaces(s, 0);
    var n := TrimmedEnd(s[i..]);
    assert s[i..][..n] == s[i..i + n];
    s[i..i + n]
  }

  /** The text `w` occurs in `s` starting at index `i`. */
  predicate StartsAt(s: string, i: int, w: string) {
    0 <= i && i + |w| <= |s| && s[i..i + |w|] == w
  }

  /** Python's `w in s` for strings. */
  function Contains(s: string, w: string): (b: bool)
    ensures b <==> exists i :: StartsAt(s, i, w)
    decreases |s|
  {
    if |w| > |s| then false
    else if s[..|w|] == w then (assert StartsAt(s, 0, w); true)
    else
      var rest := Contains(s[1..], w);
      assert forall i :: StartsAt(s[1..], i, w) ==> StartsAt(s, i + 1, w) by {
        forall i | StartsAt(s[1..], i, w) ensures StartsAt(s, i + 1, w) {
          assert s[1..][i..i + |w|] == s[i + 1..i + 1 + |w|];
        }
      }
      assert s[0..|w|] == s[..|w|];
      assert !StartsAt(s, 0, w);
      assert forall i :: StartsAt(s, i, w) ==> i >= 1 && StartsAt(s[1..], i - 1, w) by {
        forall i | StartsAt(s, i, w) ensures i >= 1 && StartsAt(s[1..], i - 1, w) {
          assert s[1..][i - 1..i - 1 + |w|] == s[i..i + |w|];
        }
      }
      rest
  }

  function DigitValue(c: char): (d: nat)
    requires IsDigit(c)
    ensures d <= 9
  {
    c as int - '0' as int
  }

  predicate AllDigits(t: string) {
    forall k :: 0 <= k < |t| ==> IsDigit(t[k])
  }

  /** `int(t)` (and `float(t)` for a whole number) of a string of decimal digits. */
  function DecimalValue(t: string): nat
    requires AllDigits(t)
  {
    if t == [] then 0 else DecimalValue(t[..|t| - 1]) * 10 + DigitValue(t[|t| - 1])
  }

  function Pow10(n: nat): (p: nat)
    ensures p >= 1
  {
    if n == 0 then 1 else 10 * Pow10(n - 1)
  }

  lemma ShiftDigit(x: nat, p: nat, y: nat, d: nat)
    ensures (x * p + y) * 10 + d == x * (10 * p) + (y * 10 + d)
  {
  }

  /** Writing digits `b` after digits `a` shifts `a` left by `|b|` places. */
  lemma {:induction false} DecimalValueAppend(a: string, b: string)
    requires AllDigits(a) && AllDigits(b)
    ensures AllDigits(a + b)
    ensures DecimalValue(a + b) == DecimalValue(a) * Pow10(|b|) + DecimalValue(b)
    decreases |b|
  {
    if b == [] {
      assert a + b == a;
    } else {
      var b' := b[..|b| - 1];
      var d := DigitValue(b[|b| - 1]);
      assert AllDigits(b');
      DecimalValueAppend(a, b');
      assert (a + b)[..|a + b| - 1] == a + b';
      assert (a + b)[|a + b| - 1] == b[|b| - 1];
      ShiftDigit(DecimalValue(a), Pow10(|b'|), DecimalValue(b'), d);
    }
  }

  /** `t.replace(',', '')`. */
  function RemoveCommas(t: string): (r: string)
    ensures |r| <= |t|
    ensures forall k :: 0 <= k < |r| ==> r[k] != ','
    ensures (forall k :: 0 <= k < |t| ==> IsDigit(t[k]) || t[k] == ',') ==> AllDigits(r)
    ensures (forall k :: 0 <= k < |t| ==> t[k] != ',') ==> r == t
    ensures |t| == 1 && t[0] == ',' ==> r == []
  {
    if t == [] then []
    else if t[0] == ',' then RemoveCommas(t[1..])
    else [t[0]] + RemoveCommas(t[1..])
  }

  /** Removing the commas of a concatenation removes them from each part. */
  lemma {:induction false} RemoveCommasConcat(a: string, b: string)
    ensures RemoveCommas(a + b) == RemoveCommas(a) + RemoveCommas(b)
  {
    if a == [] {
      assert a + b == b;
    } else {
      assert (a + b)[0] == a[0] && (a + b)[1..] == a[1..] + b;
      RemoveCommasConcat(a[1..], b);
    }
  }

  /** Reading digits and commas followed by `,ddd`: the value read before the group, times
      1000, plus the group. */
  lemma CommaGroupValue(front: string, group: string)
    requires forall k :: 0 <= k < |front| ==> IsDigit(front[k]) || front[k] == ','
    requires |group| == 3 && AllDigits(group)
    ensures AllDigits(RemoveCommas(front)) && AllDigits(RemoveCommas(front + ([','] + group)))
    ensures DecimalValue(RemoveCommas(front + ([','] + group)))
            == DecimalValue(RemoveCommas(front)) * 1000 + DecimalValue(group)
  {
    RemoveCommasConcat(front, [','] + group);
    RemoveCommasConcat([','], group);
    assert RemoveCommas([',']) == [];
    assert RemoveCommas(group) == group;
    DecimalValueAppend(RemoveCommas(front), group);
    assert Pow10(3) == 1000;
  }
}
