/**
  String helpers shared by the whole model.  Swift's character classes
  (`whitespacesAndNewlines`, `isNumber`, `lowercased()`, ...) are Unicode-aware;
  here they are approximated by their ASCII subsets.
 */
module Text {

  // ---------------------------------------------------------------------------
  // Character classes (ASCII approximations)
  // ---------------------------------------------------------------------------

  /** Space, tab, line feed, vertical tab, form feed and carriage return. */
  predicate IsWhitespace(c: char)
  {
    c == ' ' || ('\t' <= c <= '\r')
  }

  predicate IsDigit(c: char)
  {
    '0' <= c <= '9'
  }

  predicate IsUpper(c: char)
  {
    'A' <= c <= 'Z'
  }

  predicate IsLower(c: char)
  {
    'a' <= c <= 'z'
  }

  predicate IsAlphanumeric(c: char)
  {
    IsDigit(c) || IsUpper(c) || IsLower(c)
  }

  function ToLower(c: char): (r: char)
    ensures !IsUpper(r)
    ensures IsUpper(c) ==> IsLower(r)
    ensures !IsUpper(c) ==> r == c
  {
    if IsUpper(c) then (c as int + 32) as char else c
  }

  function ToUpper(c: char): (r: char)
    ensures !IsLower(r)
    ensures IsLower(c) ==> IsUpper(r)
    ensures !IsLower(c) ==> r == c
  {
    if IsLower(c) then (c as int - 32) as char else c
  }

  /** `lowercased()` on ASCII text. */
  function Lowercased(s: string): (r: string)
    ensures |r| == |s|
    ensures forall i :: 0 <= i < |s| ==> r[i] == ToLower(s[i])
  {
    seq(|s|, i requires 0 <= i < |s| => ToLower(s[i]))
  }

  /** `uppercased()` on ASCII text. */
  function Uppercased(s: string): (r: string)
    ensures |r| == |s|
    ensures forall i :: 0 <= i < |s| ==> r[i] == ToUpper(s[i])
  {
    seq(|s|, i requires 0 <= i < |s| => ToUpper(s[i]))
  }

  lemma LowercasedAppend(a: string, b: string)
    ensures Lowercased(a + b) == Lowercased(a) + Lowercased(b)
  {
  }

  // ---------------------------------------------------------------------------
  // Trimming (`trimmingCharacters(in:)`)
  // ---------------------------------------------------------------------------

  /** Drops the leading characters satisfying `p`. */
  function TrimStart(s: string, p: char -> bool): (r: string)
    ensures |r| <= |s| && r == s[|s| - |r|..]
    ensures forall i :: 0 <= i < |s| - |r| ==> p(s[i])
    ensures r != [] ==> !p(r[0])
  {
    if s != [] && p(s[0]) then TrimStart(s[1..], p) else s
  }

  /** Drops the trailing characters satisfying `p`. */
  function TrimEnd(s: string, p: char -> bool): (r: string)
    ensures |r| <= |s| && r == s[..|r|]
    ensures forall i :: |r| <= i < |s| ==> p(s[i])
    ensures r != [] ==> !p(r[|r| - 1])
  {
    if s != [] && p(s[|s| - 1]) then TrimEnd(s[..|s| - 1], p) else s
  }

  /**
    `trimmingCharacters(in:)`: removes every leading and every trailing
    character of the set `p`, and nothing in between.
   */
  function Trim(s: string, p: char -> bool): (r: string)
    ensures |r| <= |TrimStart(s, p)| <= |s|
    ensures r == s[|s| - |TrimStart(s, p)|..|s| - |TrimStart(s, p)| + |r|]
    ensures forall i :: 0 <= i < |s| - |TrimStart(s, p)| ==> p(s[i])
    ensures forall i :: |s| - |TrimStart(s, p)| + |r| <= i < |s| ==> p(s[i])
    ensures r != [] ==> !p(r[0]) && !p(r[|r| - 1])
  {
    TrimEnd(TrimStart(s, p), p)
  }

  /** One character of the set on each side of a text that does not start or end with one is trimmed away. */
  lemma TrimWrapped(s: string, c: char, p: char -> bool)
    requires p(c)
    requires s != [] ==> !p(s[0]) && !p(s[|s| - 1])
    ensures Trim([c] + s + [c], p) == s
  {
    var w := [c] + s + [c];
    assert w[1..] == s + [c];
    assert TrimStart(w, p) == TrimStart(s + [c], p);
    if s == [] {
      assert TrimStart([c], p) == TrimStart([], p);
    } else {
      assert TrimStart(s + [c], p) == s + [c];
      assert (s + [c])[..|s|] == s;
      assert TrimEnd(s + [c], p) == TrimEnd(s, p);
    }
  }

  /** Trimming leaves nothing exactly when every character belongs to the set. */
  lemma TrimEmptyIff(s: string, p: char -> bool)
    ensures Trim(s, p) == [] <==> forall i :: 0 <= i < |s| ==> p(s[i])
  {
    var r := Trim(s, p);
    var k := |s| - |TrimStart(s, p)|;
    if r != [] {
      assert s[k] == r[0];
    }
  }

  /** `trimmingCharacters(in: .whitespacesAndNewlines)`. */
  function TrimWhitespace(s: string): string
  {
    Trim(s, IsWhitespace)
  }

  predicate IsBlank(s: string)
  {
    forall i :: 0 <= i < |s| ==> IsWhitespace(s[i])
  }

  /** A string trims to empty exactly when it is blank. */
  lemma TrimWhitespaceEmptyIffBlank(s: string)
    ensures TrimWhitespace(s) == [] <==> IsBlank(s)
  {
    TrimEmptyIff(s, IsWhitespace);
  }

  // ---------------------------------------------------------------------------
  // Prefixes and substrings
  // ---------------------------------------------------------------------------

  /** `hasPrefix` / `starts(with:)`. */
  predicate HasPrefix(s: string, prefix: string)
  {
    |prefix| <= |s| && s[..|prefix|] == prefix
  }

  /** `prefix(n)`: the first `n` characters, or the whole string when it is shorter. */
  function Prefix(s: string, n: nat): (r: string)
    ensures |r| <= n && HasPrefix(s, r)
    ensures |s| >= n ==> |r| == n
    ensures |s| <= n ==> r == s
  {
    if |s| <= n then s else s[..n]
  }

  /** `contains` on strings: `t` occurs as a contiguous piece of `s`. */
  predicate Contains(s: string, t: string)
  {
    exists i | 0 <= i <= |s| - |t| :: OccursAt(s, t, i)
  }

  predicate OccursAt(s: string, t: string, i: int)
    requires 0 <= i <= |s| - |t|
  {
    s[i..i + |t|] == t
  }

  /**
    `localizedCaseInsensitiveContains`, approximated by comparing the ASCII
    lower-cased forms.  As in Foundation, the empty text is contained in
    nothing.
   */
  predicate CaseInsensitiveContains(s: string, t: string)
  {
    t != [] && Contains(Lowercased(s), Lowercased(t))
  }

  /** A string that contains `u` contains every prefix of `u`. */
  lemma ContainsPrefixOf(s: string, t: string, u: string)
    requires HasPrefix(u, t)
    requires Contains(s, u)
    ensures Contains(s, t)
  {
    var i :| 0 <= i <= |s| - |u| && OccursAt(s, u, i);
    assert s[i..i + |t|] == u[..|t|];
    assert OccursAt(s, t, i);
  }

  /** Case-insensitive containment of a longer search text implies containment of its prefix. */
  lemma {:induction false} CaseInsensitiveContainsPrefix(s: string, t: string, u: string)
    requires t != [] && HasPrefix(u, t)
    requires CaseInsensitiveContains(s, u)
    ensures CaseInsensitiveContains(s, t)
  {
    var lu := Lowercased(u);
    var lt := Lowercased(t);
    assert lu[..|lt|] == lt;
    ContainsPrefixOf(Lowercased(s), lt, lu);
  }

  // ---------------------------------------------------------------------------
  // Counting and decimal rendering
  // ---------------------------------------------------------------------------

  /** Number of occurrences of `c` in `s`. */
  function Count(s: string, c: char): nat
  {
    if s == [] then 0 else (if s[0] == c then 1 else 0) + Count(s[1..], c)
  }

  function DigitChar(d: nat): (c: char)
    requires d < 10
    ensures IsDigit(c)
  {
    ('0' as int + d) as char
  }

  /** Decimal rendering of a natural number (Swift string interpolation of an `Int`). */
  function NatToString(n: nat): (r: string)
    ensures |r| >= 1
    ensures forall i :: 0 <= i < |r| ==> IsDigit(r[i])
  {
    if n < 10 then [DigitChar(n)] else NatToString(n / 10) + [DigitChar(n % 10)]
  }

  /** Decimal rendering of an integer, with a leading minus sign when negative. */
  function IntToString(n: int): (r: string)
    ensures n >= 0 ==> r == NatToString(n)
    ensures n < 0 ==> r == "-" + NatToString(-n)
  {
    if n < 0 then "-" + NatToString(-n) else NatToString(n)
  }

  /** Reading the digits back: the decimal rendering is faithful. */
  function DigitsValue(s: string): nat
    requires forall i :: 0 <= i < |s| ==> IsDigit(s[i])
  {
    if s == [] then 0
    else
      var last := s[|s| - 1];
      assert IsDigit(last);
      DigitsValue(s[..|s| - 1]) * 10 + (last as int - '0' as int)
  }

  lemma {:induction false} NatToStringRoundTrip(n: nat)
    ensures DigitsValue(NatToString(n)) == n
  {
    if n >= 10 {
      NatToStringRoundTrip(n / 10);
      var r := NatToString(n);
      assert r[..|r| - 1] == NatToString(n / 10);
    }
  }
}
