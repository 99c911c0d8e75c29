/**
 * `String.prototype.trim` as the dashboard uses it: a string is blank when
 * trimming leaves nothing, that is, when every character is ECMAScript
 * white space or a line terminator. And `length`, which counts UTF-16 code
 * units rather than characters.
 */
module Text {

  /** ECMAScript WhiteSpace (TAB, VT, FF, ZWNBSP and every space separator)
      and LineTerminator (LF, CR, LS, PS): what `trim` strips. */
  predicate IsWhitespace(c: char) {
    || c == ' ' || c == '\t' || c == '\n' || c == '\r'
    || c == '\U{B}' || c == '\U{C}' || c == '\U{A0}' || c == '\U{1680}'
    || ('\U{2000}' <= c <= '\U{200A}')
    || c == '\U{2028}' || c == '\U{2029}' || c == '\U{202F}' || c == '\U{205F}'
    || c == '\U{3000}' || c == '\U{FEFF}'
  }

  predicate IsBlank(s: string) {
    forall i | 0 <= i < |s| :: IsWhitespace(s[i])
  }

  /** Drops leading white space: the result is a suffix of `s`, what was dropped
      is blank, and what is left does not start with white space. */
  function TrimStart(s: string): (r: string)
    ensures |r| <= |s| && r == s[|s| - |r|..]
    ensures IsBlank(s[..|s| - |r|])
    ensures r == [] || !IsWhitespace(r[0])
  {
    if s != [] && IsWhitespace(s[0]) then
      var r := TrimStart(s[1..]);
      assert s[..|s| - |r|] == [s[0]] + s[1..][..|s| - 1 - |r|];
      r
    else
      s
  }

  /** Drops trailing white space: the result is a prefix of `s`, what was dropped
      is blank, and what is left does not end with white space. */
  function TrimEnd(s: string): (r: string)
    ensures |r| <= |s| && r == s[..|r|]
    ensures IsBlank(s[|r|..])
    ensures r == [] || !IsWhitespace(r[|r| - 1])
  {
    if s != [] && IsWhitespace(s[|s| - 1]) then
      var r := TrimEnd(s[..|s| - 1]);
      assert s[|r|..] == s[..|s| - 1][|r|..] + [s[|s| - 1]];
      r
    else
      s
  }

  /** `s.trim()`: empty exactly when `s` is blank; otherwise it neither starts
      nor ends with white space. */
  function Trim(s: string): (r: string)
    ensures r == "" <==> IsBlank(s)
    ensures r == [] || (!IsWhitespace(r[0]) && !IsWhitespace(r[|r| - 1]))
  {
    var t := TrimStart(s);
    var r := TrimEnd(t);
    if t == [] then
      assert s[..|s|] == s;
      r
    else
      assert s[|s| - |t|] == t[0];
      assert !IsBlank(t) && t[0..] == t;
      r
  }

  /** Whether a character lies outside the Basic Multilingual Plane, where
      UTF-16 needs a surrogate pair for it. */
  predicate IsAstral(c: char) {
    c > '\U{FFFF}'
  }

  /** `s.length`: one code unit per character of the Basic Multilingual Plane,
      two for every other character (an emoji, say). */
  function Utf16Length(s: string): nat {
    if s == [] then 0 else (if IsAstral(s[0]) then 2 else 1) + Utf16Length(s[1..])
  }

  /** The length in code units is at least the number of characters and at
      most twice it; it equals that number exactly when no character is
      astral. */
  lemma {:induction false} Utf16LengthBounds(s: string)
    ensures |s| <= Utf16Length(s) <= 2 * |s|
    ensures Utf16Length(s) == |s| <==> forall i | 0 <= i < |s| :: !IsAstral(s[i])
  {
    if s != [] {
      Utf16LengthBounds(s[1..]);
      if forall i | 0 <= i < |s| :: !IsAstral(s[i]) {
        assert forall i | 0 <= i < |s[1..]| :: !IsAstral(s[1..][i]) by {
          forall i | 0 <= i < |s[1..]| ensures !IsAstral(s[1..][i]) {
            assert s[1..][i] == s[i + 1];
          }
        }
      } else if !IsAstral(s[0]) {
        var i :| 0 <= i < |s| && IsAstral(s[i]);
        assert s[1..][i - 1] == s[i];
      }
    }
  }

  /** The length of a concatenation is the sum of the lengths. */
  lemma {:induction false} Utf16LengthAppend(a: string, b: string)
    ensures Utf16Length(a + b) == Utf16Length(a) + Utf16Length(b)
  {
    if a != [] {
      assert (a + b)[0] == a[0];
      assert (a + b)[1..] == a[1..] + b;
      Utf16LengthAppend(a[1..], b);
    } else {
      assert a + b == b;
    }
  }

  /** A text of astral characters alone counts two code units per character. */
  lemma {:induction false} Utf16LengthAllAstral(s: string)
    requires forall i | 0 <= i < |s| :: IsAstral(s[i])
    ensures Utf16Length(s) == 2 * |s|
  {
    if s != [] {
      assert forall i | 0 <= i < |s[1..]| :: s[1..][i] == s[i + 1];
      Utf16LengthAllAstral(s[1..]);
    }
  }
}
