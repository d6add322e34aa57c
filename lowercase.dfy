/**
 * Case folding of option names. The option bag lower-cases every name before
 * matching it; this module models that step on ASCII letters.
 */
module Lowercase {

  predicate IsAsciiUpper(c: char) {
    'A' <= c <= 'Z'
  }

  /** Maps an ASCII capital to its small letter and leaves every other character alone. */
  function LowerChar(c: char): (d: char)
    ensures !IsAsciiUpper(d)
    ensures d == c <==> !IsAsciiUpper(c)
    ensures IsAsciiUpper(c) ==> d == "abcdefghijklmnopqrstuvwxyz"[c as int - 'A' as int]
  {
    if IsAsciiUpper(c) then (c as int + 32) as char else c
  }

  /** Lower-cases a whole string, one character at a time. */
  function ToLower(s: string): (r: string)
    ensures |r| == |s|
    ensures forall i :: 0 <= i < |s| ==> r[i] == LowerChar(s[i])
  {
    if s == [] then [] else [LowerChar(s[0])] + ToLower(s[1..])
  }

  /** A string with no ASCII capital in it. */
  predicate IsLower(s: string) {
    forall i :: 0 <= i < |s| ==> !IsAsciiUpper(s[i])
  }

  /** Two strings that differ at most in the case of their ASCII letters. */
  predicate EqualIgnoringCase(a: string, b: string) {
    |a| == |b| && forall i :: 0 <= i < |a| ==> LowerChar(a[i]) == LowerChar(b[i])
  }

  /** Lower-casing yields a lower-case string, and lower-case strings are left as they are. */
  lemma ToLowerFixesLower(s: string)
    ensures IsLower(ToLower(s))
    ensures IsLower(s) <==> ToLower(s) == s
  {
  }

  /** Lower-casing is idempotent. */
  lemma ToLowerIdempotent(s: string)
    ensures ToLower(ToLower(s)) == ToLower(s)
  {
  }

  /** Two strings lower-case to the same string exactly when they are equal ignoring case. */
  lemma ToLowerEqualIffEqualIgnoringCase(a: string, b: string)
    ensures ToLower(a) == ToLower(b) <==> EqualIgnoringCase(a, b)
  {
  }

  /** Against a lower-case string, equality after lower-casing is equality ignoring case. */
  lemma ToLowerEqualsLower(a: string, b: string)
    requires IsLower(b)
    ensures ToLower(a) == b <==> EqualIgnoringCase(a, b)
  {
  }
}
