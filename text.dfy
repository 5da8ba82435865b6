/**
  The two JavaScript string built-ins the dashboard depends on:
  `String.prototype.trim` (used to reject a blank search) and
  `String.prototype.toLowerCase` (used for the cache key and the icon lookup).
 */
module JsText {

  /** White space and line terminators as the ECMAScript Language Specification
      defines them (sections 12.2 and 12.3); `trim` strips exactly these. */
  predicate IsJsWhitespace(c: char) {
    || c == '\t' || c == '\n' || c == '\U{000B}' || c == '\U{000C}' || c == '\r'
    || c == ' ' || c == '\U{00A0}' || c == '\U{1680}'
    || ('\U{2000}' <= c <= '\U{200A}')
    || c == '\U{2028}' || c == '\U{2029}' || c == '\U{202F}' || c == '\U{205F}'
    || c == '\U{3000}' || c == '\U{FEFF}'
  }

  /** Every character of `s` is white space (the empty string included). */
  ghost predicate AllWhitespace(s: string) {
    forall i :: 0 <= i < |s| ==> IsJsWhitespace(s[i])
  }

  function TrimStart(s: string): (r: string)
    ensures |r| <= |s| && r == s[|s| - |r|..]
    ensures r == [] || !IsJsWhitespace(r[0])
  {
    if s != [] && IsJsWhitespace(s[0]) then TrimStart(s[1..]) else s
  }

  function TrimEnd(s: string): (r: string)
    ensures |r| <= |s| && r == s[..|r|]
    ensures r == [] || !IsJsWhitespace(r[|r| - 1])
  {
    if s != [] && IsJsWhitespace(s[|s| - 1]) then TrimEnd(s[..|s| - 1]) else s
  }

  /** `s.trim()`. */
  function Trim(s: string): string {
    TrimEnd(TrimStart(s))
  }

  lemma {:induction false} TrimStartEmptyIffBlank(s: string)
    ensures TrimStart(s) == [] <==> AllWhitespace(s)
  {
    if s != [] && IsJsWhitespace(s[0]) {
      TrimStartEmptyIffBlank(s[1..]);
      assert AllWhitespace(s[1..]) ==> AllWhitespace(s) by {
        if AllWhitespace(s[1..]) {
          forall i | 0 <= i < |s| ensures IsJsWhitespace(s[i]) {
            if i > 0 { assert s[i] == s[1..][i - 1]; }
          }
        }
      }
    }
  }

  /** `s.trim()` is empty exactly when `s` consists of white space only:
      this is the test `!city.trim()` that rejects a search. */
  lemma TrimEmptyIffBlank(s: string)
    ensures Trim(s) == [] <==> AllWhitespace(s)
  {
    var t := TrimStart(s);
    TrimStartEmptyIffBlank(s);
    assert TrimEnd(t) == [] <==> t == [] by {
      if t != [] { assert TrimEnd(t) == [] ==> false by { TrimEndNonBlank(t); } }
    }
  }

  lemma {:induction false} TrimEndNonBlank(s: string)
    requires s != [] && !IsJsWhitespace(s[0])
    ensures TrimEnd(s) != []
  {
    if |s| > 1 && IsJsWhitespace(s[|s| - 1]) {
      TrimEndNonBlank(s[..|s| - 1]);
    }
  }

  /** `TrimStart` drops white space only: everything before the part it keeps
      is white space. */
  lemma {:induction false} TrimStartRemovesOnlyWhitespace(s: string)
    ensures forall i :: 0 <= i < |s| - |TrimStart(s)| ==> IsJsWhitespace(s[i])
  {
    if s != [] && IsJsWhitespace(s[0]) {
      TrimStartRemovesOnlyWhitespace(s[1..]);
      forall i | 0 <= i < |s| - |TrimStart(s)| ensures IsJsWhitespace(s[i]) {
        if i > 0 { assert s[i] == s[1..][i - 1]; }
      }
    }
  }

  /** `TrimEnd` drops white space only: everything after the part it keeps
      is white space. */
  lemma {:induction false} TrimEndRemovesOnlyWhitespace(s: string)
    ensures forall i :: |TrimEnd(s)| <= i < |s| ==> IsJsWhitespace(s[i])
  {
    if s != [] && IsJsWhitespace(s[|s| - 1]) {
      TrimEndRemovesOnlyWhitespace(s[..|s| - 1]);
      forall i | |TrimEnd(s)| <= i < |s| ensures IsJsWhitespace(s[i]) {
        if i < |s| - 1 { assert s[i] == s[..|s| - 1][i]; }
      }
    }
  }

  /** The lower-case image of one character: ASCII `A`..`Z` map to `a`..`z`. */
  function LowerChar(c: char): (r: char)
    ensures 'A' <= c <= 'Z' ==> 'a' <= r <= 'z' && r as int - c as int == 'a' as int - 'A' as int
    ensures !('A' <= c <= 'Z') ==> r == c
    ensures !('A' <= r <= 'Z')
  {
    if 'A' <= c <= 'Z' then (c as int - 'A' as int + 'a' as int) as char else c
  }

  /** `s.toLowerCase()`, per character. */
  function ToLowerCase(s: string): (r: string)
    ensures |r| == |s|
  {
    if s == [] then [] else [LowerChar(s[0])] + ToLowerCase(s[1..])
  }

  lemma {:induction false} ToLowerCaseAt(s: string, i: nat)
    requires i < |s|
    ensures ToLowerCase(s)[i] == LowerChar(s[i])
  {
    if i > 0 { ToLowerCaseAt(s[1..], i - 1); }
  }

  /** `ToLowerCase` lower-cases each character in place. */
  lemma ToLowerCaseCharwise(s: string, t: string)
    ensures ToLowerCase(s) == t <==> |t| == |s| && forall i :: 0 <= i < |s| ==> t[i] == LowerChar(s[i])
  {
    forall i | 0 <= i < |s| ensures ToLowerCase(s)[i] == LowerChar(s[i]) {
      ToLowerCaseAt(s, i);
    }
  }

  /** Lower-casing twice is lower-casing once. */
  lemma {:induction false} ToLowerCaseIdempotent(s: string)
    ensures ToLowerCase(ToLowerCase(s)) == ToLowerCase(s)
  {
    if s != [] {
      ToLowerCaseIdempotent(s[1..]);
      assert ToLowerCase(s)[1..] == ToLowerCase(s[1..]);
    }
  }

  /** A lower-cased string holds no upper-case ASCII letter. */
  lemma ToLowerCaseHasNoUpper(s: string, i: nat)
    requires i < |s|
    ensures !('A' <= ToLowerCase(s)[i] <= 'Z')
  {
    ToLowerCaseAt(s, i);
  }

  /** Lower-casing keeps white space as it is, so a search is blank exactly when
      its lower-cased form is. */
  lemma {:induction false} ToLowerCaseKeepsBlank(s: string)
    ensures AllWhitespace(ToLowerCase(s)) <==> AllWhitespace(s)
  {
    forall i | 0 <= i < |s| ensures ToLowerCase(s)[i] == LowerChar(s[i]) {
      ToLowerCaseAt(s, i);
    }
    forall i | 0 <= i < |s| ensures IsJsWhitespace(LowerChar(s[i])) <==> IsJsWhitespace(s[i]) {
    }
  }
}
