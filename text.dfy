/**
 * The string operations the core relies on, restricted to ASCII:
 * Python's `str.lower`, `str.strip` and single-character `str.replace`,
 * and JavaScript's `String.prototype.trim`.
 */
module Text {

  /** Python's `str.isspace` on one ASCII character: tab, line feed, vertical tab,
      form feed, carriage return, the four separators 0x1C-0x1F, and space. */
  predicate IsPyWhitespace(c: char) {
    c == ' ' || 9 <= c as int <= 13 || 28 <= c as int <= 31
  }

  /** The ASCII characters JavaScript's `trim` removes. */
  predicate IsJsWhitespace(c: char) {
    c == ' ' || 9 <= c as int <= 13
  }

  predicate IsAsciiUpper(c: char) {
    'A' <= c <= 'Z'
  }

  function LowerChar(c: char): char {
    if IsAsciiUpper(c) then (c as int + 32) as char else c
  }

  /** `s.lower()` over ASCII. */
  function Lower(s: string): (r: string)
    ensures |r| == |s|
    ensures forall i :: 0 <= i < |r| ==> !IsAsciiUpper(r[i])
    ensures forall i :: 0 <= i < |r| && IsAsciiUpper(s[i]) ==> r[i] == (s[i] as int + 32) as char
    ensures forall i :: 0 <= i < |r| && !IsAsciiUpper(s[i]) ==> r[i] == s[i]
  {
    seq(|s|, i requires 0 <= i < |s| => LowerChar(s[i]))
  }

  /** `s.replace(a, b)` for single characters `a` and `b`. */
  function ReplaceChar(s: string, a: char, b: char): (r: string)
    ensures |r| == |s|
    ensures a != b ==> forall i :: 0 <= i < |r| ==> r[i] != a
    ensures forall i :: 0 <= i < |r| && s[i] == a ==> r[i] == b
    ensures forall i :: 0 <= i < |r| && s[i] != a ==> r[i] == s[i]
  {
    seq(|s|, i requires 0 <= i < |s| => if s[i] == a then b else s[i])
  }

  /** How many leading characters of `s` satisfy `ws`. */
  function LeadingCount(s: string, ws: char -> bool): (n: nat)
    ensures n <= |s|
    ensures forall i :: 0 <= i < n ==> ws(s[i])
    ensures n < |s| ==> !ws(s[n])
  {
    if s != [] && ws(s[0]) then 1 + LeadingCount(s[1..], ws) else 0
  }

  /** How many trailing characters of `s` satisfy `ws`. */
  function TrailingCount(s: string, ws: char -> bool): (n: nat)
    ensures n <= |s|
    ensures forall i :: |s| - n <= i < |s| ==> ws(s[i])
    ensures n < |s| ==> !ws(s[|s| - 1 - n])
  {
    if s != [] && ws(s[|s| - 1]) then 1 + TrailingCount(s[..|s| - 1], ws) else 0
  }

  /** Drops the leading characters that satisfy `ws`. */
  function TrimStart(s: string, ws: char -> bool): string {
    s[LeadingCount(s, ws)..]
  }

  /** Drops the trailing characters that satisfy `ws`. */
  function TrimEnd(s: string, ws: char -> bool): string {
    s[..|s| - TrailingCount(s, ws)]
  }

  function Trim(s: string, ws: char -> bool): string {
    TrimEnd(TrimStart(s, ws), ws)
  }

  /** `s.strip()` in Python. */
  function PyStrip(s: string): string {
    Trim(s, IsPyWhitespace)
  }

  /** `s.trim()` in JavaScript. */
  function JsTrim(s: string): string {
    Trim(s, IsJsWhitespace)
  }

  /** Trimming yields the empty string exactly when every character is whitespace. */
  lemma TrimEmptyIffAllWhitespace(s: string, ws: char -> bool)
    ensures Trim(s, ws) == [] <==> forall i :: 0 <= i < |s| ==> ws(s[i])
  {
    var lo := LeadingCount(s, ws);
    var t := TrimStart(s, ws);
    if lo < |s| {
      assert t[0] == s[lo];
      assert TrailingCount(t, ws) < |t|;
      assert |Trim(s, ws)| > 0;
    }
  }

  /** Where the trimmed part of `s` begins. */
  function TrimLo(s: string, ws: char -> bool): nat {
    LeadingCount(s, ws)
  }

  /** Trimming removes characters only at the ends: the result is the slice of the input
      from `TrimLo`, whose ends (if any) are not whitespace, with only whitespace cut off
      around it. */
  lemma TrimIsSlice(s: string, ws: char -> bool)
    ensures TrimLo(s, ws) + |Trim(s, ws)| <= |s|
    ensures Trim(s, ws) == s[TrimLo(s, ws)..TrimLo(s, ws) + |Trim(s, ws)|]
    ensures forall i :: 0 <= i < TrimLo(s, ws) ==> ws(s[i])
    ensures forall i :: TrimLo(s, ws) + |Trim(s, ws)| <= i < |s| ==> ws(s[i])
    ensures Trim(s, ws) != [] ==> !ws(Trim(s, ws)[0]) && !ws(Trim(s, ws)[|Trim(s, ws)| - 1])
  {
    var lo := LeadingCount(s, ws);
    var t := TrimStart(s, ws);
    var r := Trim(s, ws);
    var hi := lo + |r|;
    assert r == s[lo..hi];
    forall i | hi <= i < |s| ensures ws(s[i]) {
      assert s[i] == t[i - lo];
    }
    if r != [] {
      assert r[0] == t[0];
      assert r[|r| - 1] == t[|t| - 1 - TrailingCount(t, ws)];
    }
  }

  /** A string whose ends are not whitespace is left unchanged by trimming. */
  lemma TrimFixed(s: string, ws: char -> bool)
    requires s != [] ==> !ws(s[0]) && !ws(s[|s| - 1])
    ensures Trim(s, ws) == s
  {
    assert LeadingCount(s, ws) == 0;
    assert TrimStart(s, ws) == s;
  }

  /** Two strings of equal length whose characters agree on `ws` position by position are
      trimmed at the same places. */
  lemma {:induction false} SameWhitespaceSameTrim(s: string, t: string, ws: char -> bool)
    requires |s| == |t| && forall i :: 0 <= i < |s| ==> (ws(s[i]) <==> ws(t[i]))
    ensures LeadingCount(s, ws) == LeadingCount(t, ws)
    ensures TrailingCount(s, ws) == TrailingCount(t, ws)
    decreases |s|
  {
    if s != [] {
      SameWhitespaceSameTrim(s[1..], t[1..], ws);
      SameWhitespaceSameTrim(s[..|s| - 1], t[..|t| - 1], ws);
    }
  }

  /** Hence they are trimmed to slices with the same bounds. */
  lemma TrimSameBounds(s: string, t: string, ws: char -> bool)
    requires |s| == |t| && forall i :: 0 <= i < |s| ==> (ws(s[i]) <==> ws(t[i]))
    ensures TrimLo(s, ws) == TrimLo(t, ws) && |Trim(s, ws)| == |Trim(t, ws)|
  {
    SameWhitespaceSameTrim(s, t, ws);
    var lo := LeadingCount(s, ws);
    var a := TrimStart(s, ws);
    var b := TrimStart(t, ws);
    assert forall i :: 0 <= i < |a| ==> a[i] == s[lo + i] && b[i] == t[lo + i];
    SameWhitespaceSameTrim(a, b, ws);
  }

  /** Lowering a string that has no ASCII capitals changes nothing. */
  lemma LowerFixed(s: string)
    requires forall i :: 0 <= i < |s| ==> !IsAsciiUpper(s[i])
    ensures Lower(s) == s
  {
  }
}
