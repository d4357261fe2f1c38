/**
 * The string operations of the .NET base library that the core relies on:
 * `IndexOf(term, StringComparison.OrdinalIgnoreCase)`,
 * `StartsWith(prefix, StringComparison.OrdinalIgnoreCase)`, `String.Trim()` and
 * `String.IsNullOrEmpty`.
 */
module Text {
  import opened Wrappers

  /** Ordinal upper-casing of one character; only the ASCII letters are mapped. */
  function ToUpperOrdinal(c: char): char {
    if 'a' <= c <= 'z' then (c as int - 32) as char else c
  }

  /** Two strings of the same length that agree character by character up to case. */
  predicate EqualsIgnoreCase(a: string, b: string) {
    |a| == |b| && forall i :: 0 <= i < |a| ==> ToUpperOrdinal(a[i]) == ToUpperOrdinal(b[i])
  }

  /** `t` occurs in `s` at position `i`, up to case. */
  predicate MatchesAt(s: string, t: string, i: nat) {
    i + |t| <= |s| && EqualsIgnoreCase(s[i..i + |t|], t)
  }

  /** Reference definition of a case-insensitive substring test. */
  ghost predicate ContainsIgnoreCase(s: string, t: string) {
    exists i: nat :: MatchesAt(s, t, i)
  }

  /** The first position at or after `from` where `t` occurs in `s` up to case, or -1. */
  function IndexFrom(s: string, t: string, from: nat): (r: int)
    decreases |s| - from
    ensures r == -1 || (from <= r && MatchesAt(s, t, r))
    ensures r == -1 ==> forall j: nat :: from <= j ==> !MatchesAt(s, t, j)
    ensures r != -1 ==> forall j: nat :: from <= j < r ==> !MatchesAt(s, t, j)
  {
    if from + |t| > |s| then -1
    else if MatchesAt(s, t, from) then from
    else IndexFrom(s, t, from + 1)
  }

  /** `s.IndexOf(t, StringComparison.OrdinalIgnoreCase)`. */
  function IndexOfIgnoreCase(s: string, t: string): int {
    IndexFrom(s, t, 0)
  }

  /** IndexOf reports -1 exactly when the term does not occur, and otherwise the first occurrence. */
  lemma IndexOfIgnoreCaseSpec(s: string, t: string)
    ensures IndexOfIgnoreCase(s, t) == -1 <==> !ContainsIgnoreCase(s, t)
    ensures IndexOfIgnoreCase(s, t) != -1 ==>
      0 <= IndexOfIgnoreCase(s, t) && MatchesAt(s, t, IndexOfIgnoreCase(s, t))
    ensures forall j: nat :: j < IndexOfIgnoreCase(s, t) ==> !MatchesAt(s, t, j)
  {
    var r := IndexOfIgnoreCase(s, t);
    if r != -1 {
      assert MatchesAt(s, t, r as nat);
    }
  }

  /** An empty term occurs at position 0 of every string. */
  lemma IndexOfEmptyTerm(s: string)
    ensures IndexOfIgnoreCase(s, "") == 0
  {
    assert MatchesAt(s, "", 0);
  }

  /** `s.StartsWith(p, StringComparison.OrdinalIgnoreCase)`. */
  predicate StartsWithIgnoreCase(s: string, p: string) {
    |p| <= |s| && EqualsIgnoreCase(s[..|p|], p)
  }

  /** A case-insensitive prefix is a case-insensitive occurrence at position 0. */
  lemma StartsWithIsMatchAtZero(s: string, p: string)
    ensures StartsWithIgnoreCase(s, p) <==> MatchesAt(s, p, 0)
  {
    if |p| <= |s| {
      assert s[..|p|] == s[0..0 + |p|];
    }
  }

  /** `String.IsNullOrEmpty`. */
  predicate IsNullOrEmpty(s: Option<string>) {
    s.None? || s.value == ""
  }

  /** `Char.IsWhiteSpace`: the Unicode space, line and paragraph separators and the control characters it names. */
  predicate IsWhiteSpace(c: char) {
    var n := c as int;
    || n == 0x20 || (0x09 <= n <= 0x0D) || n == 0x85 || n == 0xA0 || n == 0x1680
    || (0x2000 <= n <= 0x200A) || n == 0x2028 || n == 0x2029 || n == 0x202F
    || n == 0x205F || n == 0x3000
  }

  /** Length of the run of white space that starts `s`. */
  function LeadingWhiteSpace(s: string): (k: nat)
    ensures k <= |s|
    ensures forall i :: 0 <= i < k ==> IsWhiteSpace(s[i])
    ensures k == |s| || !IsWhiteSpace(s[k])
  {
    if |s| > 0 && IsWhiteSpace(s[0]) then 1 + LeadingWhiteSpace(s[1..]) else 0
  }

  /** Length of the run of white space that ends `s`. */
  function TrailingWhiteSpace(s: string): (k: nat)
    ensures k <= |s|
    ensures forall i :: |s| - k <= i < |s| ==> IsWhiteSpace(s[i])
    ensures k == |s| || !IsWhiteSpace(s[|s| - k - 1])
  {
    if |s| > 0 && IsWhiteSpace(s[|s| - 1]) then 1 + TrailingWhiteSpace(s[..|s| - 1]) else 0
  }

  /** `r` is the slice of `s` at offset `a`, and everything of `s` outside it is white space. */
  predicate IsTrimOf(s: string, r: string, a: nat) {
    && a + |r| <= |s| && s[a..a + |r|] == r
    && (forall i :: 0 <= i < a ==> IsWhiteSpace(s[i]))
    && (forall i :: a + |r| <= i < |s| ==> IsWhiteSpace(s[i]))
  }

  /** `String.Trim()`: removes white space from both ends and nothing else. */
  function Trim(s: string): (r: string)
    ensures |r| <= |s|
    ensures r == [] || (!IsWhiteSpace(r[0]) && !IsWhiteSpace(r[|r| - 1]))
    ensures exists a: nat :: IsTrimOf(s, r, a)
  {
    var a := LeadingWhiteSpace(s);
    var rest := s[a..];
    var b := TrailingWhiteSpace(rest);
    var r := rest[..|rest| - b];
    assert IsTrimOf(s, r, a);
    r
  }

  /** Trimming a trimmed string changes nothing. */
  lemma TrimIdempotent(s: string)
    ensures Trim(Trim(s)) == Trim(s)
  {
    var t := Trim(s);
    assert LeadingWhiteSpace(t) == 0;
    assert t[0..] == t;
    assert TrailingWhiteSpace(t) == 0;
    assert t[..|t|] == t;
  }
}
