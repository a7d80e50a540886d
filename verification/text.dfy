/** ASCII case folding of the transaction `type` field.

    The dashboard compares a transaction's type with `"charge"` and
    `"payment"` after `toLowerCase()`. This module models that lower-casing on
    the ASCII letters, and gives an independent, per-character definition of
    "equal ignoring case" that the classification is proved against.
 */
module Text {

  predicate IsUpper(c: char) {
    'A' <= c <= 'Z'
  }

  /** Lower-cases one ASCII letter; every other character is kept. */
  function LowerChar(c: char): (r: char)
    ensures !IsUpper(r)
    ensures IsUpper(c) ==> r as int == c as int + 32
    ensures !IsUpper(c) ==> r == c
  {
    if IsUpper(c) then (c as int + 32) as char else c
  }

  /** `s.toLowerCase()` restricted to ASCII. */
  function ToLower(s: string): (r: string)
    ensures |r| == |s|
    ensures forall i :: 0 <= i < |s| ==> r[i] == LowerChar(s[i])
    ensures forall i :: 0 <= i < |r| ==> !IsUpper(r[i])
  {
    if |s| == 0 then "" else [LowerChar(s[0])] + ToLower(s[1..])
  }

  /** Two strings are equal ignoring case when they have the same length and
      agree letter by letter after lower-casing each letter. */
  predicate EqualsIgnoreCase(a: string, b: string) {
    |a| == |b| && forall i :: 0 <= i < |a| ==> LowerChar(a[i]) == LowerChar(b[i])
  }

  predicate IsLowerCase(s: string) {
    forall i :: 0 <= i < |s| ==> !IsUpper(s[i])
  }

  /** Comparing lower-cased forms is exactly case-insensitive comparison. */
  lemma ToLowerEqualIff(a: string, b: string)
    ensures ToLower(a) == ToLower(b) <==> EqualsIgnoreCase(a, b)
  {
  }

  /** Case-insensitive comparison against a lower-case word `w` is comparison
      of the lower-cased string with `w`. */
  lemma MatchesLowerWord(s: string, w: string)
    requires IsLowerCase(w)
    ensures ToLower(s) == w <==> EqualsIgnoreCase(s, w)
  {
  }
}
