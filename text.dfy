/**
 * String helpers with the meaning JavaScript gives them: `toLowerCase`
 * (ASCII letters), `trim` (the ECMAScript white-space and line-terminator
 * characters) and `includes` (substring search).
 */
module Text {

  // ---------------------------------------------------------------------
  // Case mapping
  // ---------------------------------------------------------------------

  predicate IsAsciiUpper(c: char) { 'A' <= c <= 'Z' }

  predicate IsAsciiLower(c: char) { 'a' <= c <= 'z' }

  function LowerChar(c: char): char
  {
    if IsAsciiUpper(c) then (c as int + 32) as char else c
  }

  function UpperChar(c: char): char
  {
    if IsAsciiLower(c) then (c as int - 32) as char else c
  }

  /** `s.toLowerCase()`, restricted to the ASCII letters. */
  function Lower(s: string): (r: string)
    ensures |r| == |s|
    ensures forall i :: 0 <= i < |s| ==> r[i] == LowerChar(s[i])
  {
    seq(|s|, i requires 0 <= i < |s| => LowerChar(s[i]))
  }

  /** `s.toUpperCase()`, restricted to the ASCII letters. */
  function Upper(s: string): (r: string)
    ensures |r| == |s|
    ensures forall i :: 0 <= i < |s| ==> r[i] == UpperChar(s[i])
  {
    seq(|s|, i requires 0 <= i < |s| => UpperChar(s[i]))
  }

  /** Lower-casing forgets any earlier upper-casing. */
  lemma LowerOfUpper(s: string)
    ensures Lower(Upper(s)) == Lower(s)
  {
    var a, b := Lower(Upper(s)), Lower(s);
    forall i | 0 <= i < |s| ensures a[i] == b[i] {
      var c := s[i];
      if IsAsciiLower(c) {
        assert UpperChar(c) as int == c as int - 32;
      }
    }
  }

  // ---------------------------------------------------------------------
  // Trimming
  // ---------------------------------------------------------------------

  /**
   * The characters `String.prototype.trim` removes: the ECMAScript
   * WhiteSpace (TAB, VT, FF, SP, NBSP, ZWNBSP and the Space_Separator
   * category) and LineTerminator (LF, CR, LS, PS) productions.
   */
  predicate IsWhitespace(c: char)
  {
    || c == '\t' || c == '\n' || c == '\U{B}' || c == '\U{C}' || c == '\r'
    || c == ' ' || c == '\U{A0}' || c == '\U{1680}'
    || ('\U{2000}' <= c <= '\U{200A}')
    || c == '\U{2028}' || c == '\U{2029}' || c == '\U{202F}' || c == '\U{205F}'
    || c == '\U{3000}' || c == '\U{FEFF}'
  }

  predicate AllWhitespace(s: string)
  {
    forall i :: 0 <= i < |s| ==> IsWhitespace(s[i])
  }

  /** How many white-space characters `s` starts with. */
  function LeadingSpaces(s: string): (n: nat)
    ensures n <= |s|
  {
    if s != [] && IsWhitespace(s[0]) then 1 + LeadingSpaces(s[1..]) else 0
  }

  /** How many white-space characters `s` ends with. */
  function TrailingSpaces(s: string): (n: nat)
    ensures n <= |s|
  {
    if s != [] && IsWhitespace(s[|s| - 1]) then 1 + TrailingSpaces(s[..|s| - 1]) else 0
  }

  /** `s` with its leading white space removed. */
  function TrimStart(s: string): string
  {
    s[LeadingSpaces(s)..]
  }

  /** `s` with its trailing white space removed. */
  function TrimEnd(s: string): string
  {
    s[..|s| - TrailingSpaces(s)]
  }

  /** `s.trim()`. */
  function Trim(s: string): string
  {
    TrimEnd(TrimStart(s))
  }

  /** The leading count covers white space only and stops at the first other character. */
  lemma {:induction false} LeadingSpacesSpec(s: string)
    ensures forall i :: 0 <= i < LeadingSpaces(s) ==> IsWhitespace(s[i])
    ensures LeadingSpaces(s) < |s| ==> !IsWhitespace(s[LeadingSpaces(s)])
    decreases |s|
  {
    if s != [] && IsWhitespace(s[0]) {
      LeadingSpacesSpec(s[1..]);
      forall i | 1 <= i < LeadingSpaces(s)
        ensures IsWhitespace(s[i])
      {
        assert s[i] == s[1..][i - 1];
      }
    }
  }

  /** The trailing count covers white space only and stops at the last other character. */
  lemma {:induction false} TrailingSpacesSpec(s: string)
    ensures forall i :: |s| - TrailingSpaces(s) <= i < |s| ==> IsWhitespace(s[i])
    ensures TrailingSpaces(s) < |s| ==> !IsWhitespace(s[|s| - TrailingSpaces(s) - 1])
    decreases |s|
  {
    if s != [] && IsWhitespace(s[|s| - 1]) {
      var init := s[..|s| - 1];
      TrailingSpacesSpec(init);
      forall i | |s| - TrailingSpaces(s) <= i < |s| - 1
        ensures IsWhitespace(s[i])
      {
        assert s[i] == init[i];
      }
    }
  }

  /** `trimStart` drops exactly a white-space prefix and leaves no white space in front. */
  lemma TrimStartSpec(s: string)
    ensures var r := TrimStart(s);
      && |r| <= |s| && r == s[|s| - |r|..]
      && AllWhitespace(s[..|s| - |r|])
      && (r != [] ==> !IsWhitespace(r[0]))
  {
    LeadingSpacesSpec(s);
  }

  /** `trimEnd` drops exactly a white-space suffix and leaves no white space behind. */
  lemma TrimEndSpec(s: string)
    ensures var r := TrimEnd(s);
      && |r| <= |s| && r == s[..|r|]
      && AllWhitespace(s[|r|..])
      && (r != [] ==> !IsWhitespace(r[|r| - 1]))
  {
    TrailingSpacesSpec(s);
    var r := TrimEnd(s);
    forall i | 0 <= i < |s| - |r|
      ensures IsWhitespace(s[|r|..][i])
    {
      assert s[|r|..][i] == s[|r| + i];
    }
  }

  /** `s.trim()` is empty exactly when every character of `s` is white space. */
  lemma {:induction false} TrimEmptyIffBlank(s: string)
    ensures Trim(s) == [] <==> AllWhitespace(s)
  {
    LeadingSpacesSpec(s);
    var t := TrimStart(s);
    TrailingSpacesSpec(t);
    if LeadingSpaces(s) < |s| {
      assert t[0] == s[LeadingSpaces(s)];
      assert TrailingSpaces(t) < |t|;
    }
  }

  // ---------------------------------------------------------------------
  // Substring search
  // ---------------------------------------------------------------------

  predicate IsPrefix(k: string, s: string)
  {
    |k| <= |s| && s[..|k|] == k
  }

  /** `s.includes(k)`, searching from the left; `includes("")` always holds. */
  predicate Includes(s: string, k: string)
    decreases |s|
  {
    IsPrefix(k, s) || (s != [] && Includes(s[1..], k))
  }

  /** Reference meaning of substring occurrence: some position where `k` starts. */
  ghost predicate OccursAt(s: string, k: string, i: int)
  {
    0 <= i && i + |k| <= |s| && s[i..i + |k|] == k
  }

  ghost predicate Occurs(s: string, k: string)
  {
    exists i :: OccursAt(s, k, i)
  }

  /** Dropping the first character moves every occurrence one place to the left. */
  lemma OccursShift(s: string, k: string, i: int)
    requires s != [] && 0 <= i
    ensures OccursAt(s[1..], k, i) <==> OccursAt(s, k, i + 1)
  {
    if 0 <= i && i + |k| <= |s| - 1 {
      assert s[1..][i..i + |k|] == s[i + 1..i + 1 + |k|];
    }
  }

  /** The search agrees with the reference meaning, in both directions. */
  lemma {:induction false} IncludesIffOccurs(s: string, k: string)
    ensures Includes(s, k) <==> Occurs(s, k)
    decreases |s|
  {
    if IsPrefix(k, s) {
      assert OccursAt(s, k, 0);
    } else if s != [] {
      IncludesIffOccurs(s[1..], k);
      if Occurs(s[1..], k) {
        var i :| OccursAt(s[1..], k, i);
        OccursShift(s, k, i);
      }
      if Occurs(s, k) {
        var i :| OccursAt(s, k, i);
        assert i != 0;
        OccursShift(s, k, i - 1);
      }
    }
  }
}
