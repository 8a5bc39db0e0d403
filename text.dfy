/** String helpers the form handler relies on: JavaScript's `String.prototype.trim`
    and `String.prototype.startsWith`, over strings as sequences of characters. */
module Text {

  /** The characters `trim` removes: ECMAScript's WhiteSpace and LineTerminator
      productions, with the space separators (category Zs) of current Unicode. */
  predicate IsWhitespace(c: char) {
    c == '\t' || c == '\n' || c == '\U{000B}' || c == '\U{000C}' || c == '\r' || c == ' '
    || c == '\U{00A0}' || c == '\U{1680}' || ('\U{2000}' <= c <= '\U{200A}')
    || c == '\U{2028}' || c == '\U{2029}' || c == '\U{202F}' || c == '\U{205F}'
    || c == '\U{3000}' || c == '\U{FEFF}'
  }

  /** Every character of `s` is whitespace (this includes the empty string). */
  predicate AllWhitespace(s: string) {
    forall i :: 0 <= i < |s| ==> IsWhitespace(s[i])
  }

  /** `s` with its leading whitespace removed. */
  function TrimStart(s: string): (r: string)
    ensures |r| <= |s| && r == s[|s| - |r|..]
    ensures forall i :: 0 <= i < |s| - |r| ==> IsWhitespace(s[i])
    ensures r == [] || !IsWhitespace(r[0])
  {
    if |s| > 0 && IsWhitespace(s[0]) then TrimStart(s[1..]) else s
  }

  /** `s` with its trailing whitespace removed. */
  function TrimEnd(s: string): (r: string)
    ensures |r| <= |s| && r == s[..|r|]
    ensures forall i :: |r| <= i < |s| ==> IsWhitespace(s[i])
    ensures r == [] || !IsWhitespace(r[|r| - 1])
  {
    if |s| > 0 && IsWhitespace(s[|s| - 1]) then TrimEnd(s[..|s| - 1]) else s
  }

  /** `r` is what is left of `s` once the `lead` characters before it and the
      characters after it, all whitespace, are cut off, and `r` neither starts nor
      ends with whitespace. This is the reference definition `Trim` is proved against. */
  predicate IsTrimOf(s: string, r: string, lead: nat) {
    lead + |r| <= |s| && s[lead..lead + |r|] == r
    && (forall i :: 0 <= i < lead ==> IsWhitespace(s[i]))
    && (forall i :: lead + |r| <= i < |s| ==> IsWhitespace(s[i]))
    && (r == [] || (!IsWhitespace(r[0]) && !IsWhitespace(r[|r| - 1])))
  }

  /** `String.prototype.trim`: whitespace removed from both ends. */
  function Trim(s: string): (r: string)
    ensures IsTrimOf(s, r, |s| - |TrimStart(s)|)
  {
    var t := TrimStart(s);
    var r := TrimEnd(t);
    assert r == s[|s| - |t|..|s| - |t| + |r|];
    r
  }

  /** `String.prototype.startsWith` with position 0. */
  predicate StartsWith(s: string, prefix: string) {
    |prefix| <= |s| && s[..|prefix|] == prefix
  }

  /** The trimmed string is the only string that fits the reference definition:
      whatever way `s` is split into whitespace, a core without surrounding
      whitespace, and whitespace, that core is `Trim(s)`. */
  lemma TrimUnique(s: string, r: string, lead: nat)
    requires IsTrimOf(s, r, lead)
    ensures r == Trim(s)
  {
    var t := Trim(s);
    var lt := |s| - |TrimStart(s)|;
    assert IsTrimOf(s, t, lt);
    // The first and last kept characters are the only non-whitespace ends.
    assert t == [] || (t[0] == s[lt] && t[|t| - 1] == s[lt + |t| - 1]);
    assert r == [] || (r[0] == s[lead] && r[|r| - 1] == s[lead + |r| - 1]);
    if r == [] {
      assert AllWhitespace(s);
    } else if t != [] {
      assert lead == lt;
      assert |r| == |t|;
    }
  }

  /** Trimming twice is trimming once. */
  lemma TrimIdempotent(s: string)
    ensures Trim(Trim(s)) == Trim(s)
  {
    var t := Trim(s);
    assert t[0..0 + |t|] == t;
    TrimUnique(t, t, 0);
  }

  /** `trim` gives the empty string exactly for blank input. */
  lemma TrimEmptyIffBlank(s: string)
    ensures Trim(s) == [] <==> AllWhitespace(s)
  {
    var lt := |s| - |TrimStart(s)|;
    assert Trim(s) == [] || Trim(s)[0] == s[lt];
  }

  /** Whitespace in front of a string does not change its trimmed form. */
  lemma TrimSkipsLeadingWhitespace(c: char, s: string)
    requires IsWhitespace(c)
    ensures Trim([c] + s) == Trim(s)
  {
    assert ([c] + s)[1..] == s;
  }
}
