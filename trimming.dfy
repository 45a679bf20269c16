/**
 Foundation's `trimmingCharacters(in:)` for the two character sets the
 views use, over Unicode scalar values.
 */
module Trimming {

  /**
   A character set, as its membership test. Trimming is defined for any set;
   the views use the two below.
   */
  type CharacterSet = char -> bool

  /** `.whitespaces`. */
  const Whitespaces: CharacterSet := c => IsWhitespace(c)

  /** `.whitespacesAndNewlines`. */
  const WhitespacesAndNewlines: CharacterSet := c => IsWhitespace(c) || IsNewline(c)

  /** General category Zs plus CHARACTER TABULATION (U+0009). */
  predicate IsWhitespace(c: char) {
    || c == '\t' || c == ' ' || c == '\U{00A0}' || c == '\U{1680}'
    || ('\U{2000}' <= c <= '\U{200A}')
    || c == '\U{202F}' || c == '\U{205F}' || c == '\U{3000}'
  }

  /** U+000A to U+000D, U+0085, U+2028 and U+2029. */
  predicate IsNewline(c: char) {
    ('\n' <= c <= '\r') || c == '\U{0085}' || c == '\U{2028}' || c == '\U{2029}'
  }

  /** Every character of `s` belongs to `cs` (the empty string included). */
  predicate IsBlank(s: string, cs: CharacterSet) {
    forall k :: 0 <= k < |s| ==> cs(s[k])
  }

  /** Neither end of `s` is a character of `cs`. */
  predicate IsTrimmed(s: string, cs: CharacterSet) {
    s == [] || (!cs(s[0]) && !cs(s[|s| - 1]))
  }

  /** Drops the longest prefix made of characters of `cs`. */
  function TrimStart(s: string, cs: CharacterSet): (r: string)
    ensures |r| <= |s| && r == s[|s| - |r|..]
    ensures IsBlank(s[..|s| - |r|], cs)
    ensures r == [] || !cs(r[0])
    decreases |s|
  {
    if |s| > 0 && cs(s[0]) then TrimStart(s[1..], cs) else s
  }

  /** Drops the longest suffix made of characters of `cs`. */
  function TrimEnd(s: string, cs: CharacterSet): (r: string)
    ensures |r| <= |s| && r == s[..|r|]
    ensures IsBlank(s[|r|..], cs)
    ensures r == [] || !cs(r[|r| - 1])
    decreases |s|
  {
    if |s| > 0 && cs(s[|s| - 1]) then
      var r := TrimEnd(s[..|s| - 1], cs);
      assert s[|r|..] == s[..|s| - 1][|r|..] + [s[|s| - 1]];
      r
    else s
  }

  /** `s.trimmingCharacters(in: cs)`. */
  function Trimmed(s: string, cs: CharacterSet): (r: string)
    ensures IsTrimmed(r, cs)
  {
    TrimEnd(TrimStart(s, cs), cs)
  }

  /**
   The trimmed string starts where the longest blank prefix ends, at the first
   index `i` that is not in the set, and is followed by a blank suffix;
   together with `IsTrimmed` this pins it down.
   */
  lemma TrimmedIsInnerSlice(s: string, cs: CharacterSet, i: nat)
    requires i <= |s| && IsBlank(s[..i], cs) && (i == |s| || !cs(s[i]))
    ensures i + |Trimmed(s, cs)| <= |s|
    ensures Trimmed(s, cs) == s[i..i + |Trimmed(s, cs)|]
    ensures IsBlank(s[i + |Trimmed(s, cs)|..], cs)
  {
    var t := TrimStart(s, cs);
    var j := |s| - |t|;
    BlankPrefixCovers(s, cs, j, i);
    BlankPrefixCovers(s, cs, i, j);
    assert i == j;
    var r := TrimEnd(t, cs);
    assert t == s[i..];
    assert r == t[..|r|];
    assert t[|r|..] == s[i + |r|..];
  }

  /** Every character before the end of a blank prefix is in the set. */
  lemma BlankPrefixCovers(s: string, cs: CharacterSet, n: nat, k: nat)
    requires n <= |s| && IsBlank(s[..n], cs)
    ensures k < n ==> cs(s[k])
  {
    if k < n {
      assert s[..n][k] == s[k];
    }
  }

  /** Trimming leaves nothing exactly when every character is in the set. */
  lemma TrimmedEmptyIffBlank(s: string, cs: CharacterSet)
    ensures Trimmed(s, cs) == [] <==> IsBlank(s, cs)
  {
    var t := TrimStart(s, cs);
    var i := |s| - |t|;
    if Trimmed(s, cs) == [] {
      assert IsBlank(t[0..], cs);
      assert t[0..] == t;
      assert t == [];
      assert s[..i] == s;
    }
  }

  /** A string with no blank ends is its own trimming. */
  lemma TrimmedFixesTrimmed(s: string, cs: CharacterSet)
    requires IsTrimmed(s, cs)
    ensures Trimmed(s, cs) == s
  {
  }

  /**
   `.whitespaces` is contained in `.whitespacesAndNewlines`: whatever survives
   trimming with the larger set is non-empty with the smaller one too.
   */
  lemma NarrowerSetKeepsMore(s: string)
    ensures Trimmed(s, WhitespacesAndNewlines) != [] ==> Trimmed(s, Whitespaces) != []
  {
    TrimmedEmptyIffBlank(s, Whitespaces);
    TrimmedEmptyIffBlank(s, WhitespacesAndNewlines);
  }

}
