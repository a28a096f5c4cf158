/**
 The few JavaScript string operations the session's logic relies on:
 `String.prototype.trim`, `toLowerCase`, `includes`, `localeCompare` and the
 decimal rendering of an HTTP status number inside a template literal.
 */
module Strings {

  /** The characters `trim` removes: ECMAScript's WhiteSpace and LineTerminator
      code points. */
  predicate IsJsWhitespace(c: char) {
    || c == '\t' || c == '\n' || c == '\U{000B}' || c == '\U{000C}' || c == '\r' || c == ' '
    || c == '\U{00A0}' || c == '\U{1680}' || ('\U{2000}' <= c <= '\U{200A}')
    || c == '\U{2028}' || c == '\U{2029}' || c == '\U{202F}' || c == '\U{205F}'
    || c == '\U{3000}' || c == '\U{FEFF}'
  }

  /** Every character of `s` is whitespace (true of the empty string). */
  predicate Blank(s: string) {
    forall k :: 0 <= k < |s| ==> IsJsWhitespace(s[k])
  }

  /** The index of the first character of `s` at or after `lo` that is not
      whitespace (`|s|` when there is none). */
  function SkipForward(s: string, lo: nat): (i: nat)
    requires lo <= |s|
    ensures lo <= i <= |s|
    ensures forall k :: lo <= k < i ==> IsJsWhitespace(s[k])
    ensures i < |s| ==> !IsJsWhitespace(s[i])
    decreases |s| - lo
  {
    if lo < |s| && IsJsWhitespace(s[lo]) then SkipForward(s, lo + 1) else lo
  }

  /** The end of `s[lo..hi]` once its trailing whitespace is dropped. */
  function SkipBackward(s: string, lo: nat, hi: nat): (j: nat)
    requires lo <= hi <= |s|
    ensures lo <= j <= hi
    ensures forall k :: j <= k < hi ==> IsJsWhitespace(s[k])
    ensures lo < j ==> !IsJsWhitespace(s[j - 1])
    decreases hi
  {
    if lo < hi && IsJsWhitespace(s[hi - 1]) then SkipBackward(s, lo, hi - 1) else hi
  }

  /** `r` is the part of `s` that starts at `i`, with only whitespace before and after it. */
  ghost predicate TrimmedAt(s: string, r: string, i: int) {
    && 0 <= i && i + |r| <= |s| && s[i..i + |r|] == r
    && (forall k :: 0 <= k < i ==> IsJsWhitespace(s[k]))
    && (forall k :: i + |r| <= k < |s| ==> IsJsWhitespace(s[k]))
  }

  /** `String.prototype.trim`: drop leading and trailing whitespace. */
  function Trim(s: string): (r: string)
    ensures exists i :: TrimmedAt(s, r, i)
    ensures r != [] ==> !IsJsWhitespace(r[0]) && !IsJsWhitespace(r[|r| - 1])
    ensures r == [] <==> Blank(s)
  {
    var i := SkipForward(s, 0);
    var j := SkipBackward(s, i, |s|);
    var r := s[i..j];
    assert TrimmedAt(s, r, i);
    assert r != [] ==> r[0] == s[i] && r[|r| - 1] == s[j - 1];
    assert i == j ==> Blank(s);
    r
  }

  /** `toLowerCase` on the ASCII letters; every other character is kept. */
  function LowerChar(c: char): (d: char)
    ensures !('A' <= d <= 'Z')
    ensures 'A' <= c <= 'Z' ==> d as int == c as int + 32
    ensures !('A' <= c <= 'Z') ==> d == c
  {
    if 'A' <= c <= 'Z' then (c as int + 32) as char else c
  }

  function ToLower(s: string): (r: string)
    ensures |r| == |s|
    ensures forall k :: 0 <= k < |s| ==> r[k] == LowerChar(s[k])
  {
    if s == [] then [] else [LowerChar(s[0])] + ToLower(s[1..])
  }

  /** Lowering twice is lowering once, so a search term lowered by the
      caller and lowered again compares the same way. */
  lemma ToLowerIdempotent(s: string)
    ensures ToLower(ToLower(s)) == ToLower(s)
  {
    var once := ToLower(s);
    forall k | 0 <= k < |s|
      ensures ToLower(once)[k] == once[k]
    {
      assert LowerChar(once[k]) == once[k];
    }
  }

  /** `t` occurs in `s` starting at index `i`. */
  ghost predicate OccursAt(s: string, t: string, i: int) {
    0 <= i && i + |t| <= |s| && forall k :: 0 <= k < |t| ==> s[i + k] == t[k]
  }

  lemma OccursShift(s: string, t: string)
    requires s != []
    ensures forall i :: 1 <= i ==> (OccursAt(s, t, i) <==> OccursAt(s[1..], t, i - 1))
  {
  }

  /** `s.includes(t)`: `t` occurs somewhere in `s`. */
  function Includes(s: string, t: string): (b: bool)
    ensures b <==> exists i :: OccursAt(s, t, i)
    decreases |s|
  {
    if |t| > |s| then false
    else if s[..|t|] == t then assert OccursAt(s, t, 0); true
    else
      OccursShift(s, t);
      assert !OccursAt(s, t, 0);
      var rest := Includes(s[1..], t);
      assert rest ==> exists i :: OccursAt(s, t, i) by {
        if rest {
          var j :| OccursAt(s[1..], t, j);
          assert OccursAt(s, t, j + 1);
        }
      }
      rest
  }

  /** `localeCompare`, modelled as lexicographic order on code points; the
      result is negative, zero or positive as `x` sorts before, with or after `y`. */
  function LocaleCompare(x: string, y: string): (r: int)
    ensures -1 <= r <= 1
    ensures r == 0 <==> x == y
    decreases |x|
  {
    if x == [] then (if y == [] then 0 else -1)
    else if y == [] then 1
    else if x[0] < y[0] then -1
    else if x[0] > y[0] then 1
    else
      var r := LocaleCompare(x[1..], y[1..]);
      assert x == [x[0]] + x[1..] && y == [y[0]] + y[1..];
      r
  }

  lemma {:induction false} LocaleCompareAntisymmetric(x: string, y: string)
    ensures LocaleCompare(y, x) == -LocaleCompare(x, y)
    decreases |x|
  {
    if x != [] && y != [] && x[0] == y[0] {
      LocaleCompareAntisymmetric(x[1..], y[1..]);
    }
  }

  lemma {:induction false} LocaleCompareTransitive(x: string, y: string, z: string)
    requires LocaleCompare(x, y) <= 0 && LocaleCompare(y, z) <= 0
    ensures LocaleCompare(x, z) <= 0
    decreases |x|
  {
    if x != [] && y != [] && z != [] && x[0] == y[0] == z[0] {
      LocaleCompareTransitive(x[1..], y[1..], z[1..]);
    }
  }

  predicate IsDigit(c: char) {
    '0' <= c <= '9'
  }

  /** The number a string of decimal digits denotes. */
  function DecimalValue(s: string): nat
    requires forall k :: 0 <= k < |s| ==> IsDigit(s[k])
  {
    if s == [] then 0
    else
      var last := s[|s| - 1];
      assert IsDigit(last);
      10 * DecimalValue(s[..|s| - 1]) + (last as int - '0' as int)
  }

  /** How a template literal renders a non-negative integer: its shortest
      decimal numeral. */
  function DecimalString(n: nat): (s: string)
    ensures s != [] && forall k :: 0 <= k < |s| ==> IsDigit(s[k])
    ensures DecimalValue(s) == n
    ensures |s| > 1 ==> s[0] != '0'
  {
    var d := ('0' as int + n % 10) as char;
    if n < 10 then [d]
    else
      var front := DecimalString(n / 10);
      var s := front + [d];
      assert s[..|s| - 1] == front;
      s
  }
}
