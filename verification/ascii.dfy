/**
 ASCII case mapping, the locale-independent behaviour of PHP's `strtolower`:
 the letters 'A'..'Z' become 'a'..'z' and every other character is kept.
 */
module Ascii {

  const CaseOffset: int := 'a' as int - 'A' as int

  predicate IsUpper(c: char) {
    'A' <= c <= 'Z'
  }

  /** Lower-cases one character. */
  function ToLowerChar(c: char): (d: char)
    ensures IsUpper(c) ==> d as int == c as int + CaseOffset
    ensures !IsUpper(c) ==> d == c
    ensures !IsUpper(d)
  {
    if IsUpper(c) then (c as int + CaseOffset) as char else c
  }

  /** Lower-cases a string character by character. */
  function Lower(s: string): (r: string)
    ensures |r| == |s|
    ensures forall i :: 0 <= i < |s| ==> r[i] == ToLowerChar(s[i])
  {
    if s == [] then [] else [ToLowerChar(s[0])] + Lower(s[1..])
  }

  /** No character of the string is an upper-case ASCII letter. */
  predicate IsLowerCase(s: string) {
    forall i :: 0 <= i < |s| ==> !IsUpper(s[i])
  }

  /** Two characters are the same letter up to case, or identical. */
  predicate SameIgnoringCase(x: char, y: char) {
    || x == y
    || (IsUpper(x) && y as int == x as int + CaseOffset)
    || (IsUpper(y) && x as int == y as int + CaseOffset)
  }

  /** Two strings of equal length that agree position by position up to letter case. */
  predicate EqualIgnoringCase(a: string, b: string) {
    |a| == |b| && forall i :: 0 <= i < |a| ==> SameIgnoringCase(a[i], b[i])
  }

  /** The result of lower-casing contains no upper-case letter. */
  lemma LowerIsLowerCase(s: string)
    ensures IsLowerCase(Lower(s))
  {
  }

  /** Lower-casing leaves a string alone exactly when it has no upper-case letter. */
  lemma LowerFixedIff(s: string)
    ensures Lower(s) == s <==> IsLowerCase(s)
  {
  }

  /** Lower-casing twice is the same as lower-casing once. */
  lemma LowerIdempotent(s: string)
    ensures Lower(Lower(s)) == Lower(s)
  {
  }

  /** Two strings lower-case to the same string exactly when they differ only in letter case. */
  lemma LowerEqualIff(a: string, b: string)
    ensures Lower(a) == Lower(b) <==> EqualIgnoringCase(a, b)
  {
    assert forall i :: 0 <= i < |a| && i < |b| ==>
      (ToLowerChar(a[i]) == ToLowerChar(b[i]) <==> SameIgnoringCase(a[i], b[i]));
  }
}
