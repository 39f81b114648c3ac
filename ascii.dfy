/** ASCII case mapping: the parts of Python's `str.lower()` and
    `str.capitalize()` that the report builder relies on. Characters outside
    'A'..'Z' and 'a'..'z' are left as they are. */
module Ascii {

  predicate IsUpper(c: char) { 'A' <= c <= 'Z' }

  predicate IsLower(c: char) { 'a' <= c <= 'z' }

  function LowerChar(c: char): char
  {
    if IsUpper(c) then (c as int + 32) as char else c
  }

  function UpperChar(c: char): char
  {
    if IsLower(c) then (c as int - 32) as char else c
  }

  /** `s.lower()`: the result has no capitals; each capital of `s` became
      the small letter that upper-cases back to it, and every other character
      is kept. */
  function Lower(s: string): (r: string)
    ensures |r| == |s|
    ensures forall i :: 0 <= i < |r| ==> !IsUpper(r[i])
    ensures forall i :: 0 <= i < |s| && !IsUpper(s[i]) ==> r[i] == s[i]
    ensures forall i :: 0 <= i < |s| && IsUpper(s[i]) ==> IsLower(r[i]) && UpperChar(r[i]) == s[i]
  {
    seq(|s|, i requires 0 <= i < |s| => LowerChar(s[i]))
  }

  /** `s.capitalize()`: no small letter first, no capital after it, and
      equal to `s` up to letter case. */
  function Capitalize(s: string): (r: string)
    ensures |r| == |s|
    ensures s != [] ==> !IsLower(r[0])
    ensures forall i :: 1 <= i < |r| ==> !IsUpper(r[i])
    ensures Lower(r) == Lower(s)
  {
    if s == [] then []
    else
      var r := [UpperChar(s[0])] + Lower(s[1..]);
      assert forall i :: 0 <= i < |s| ==> Lower(r)[i] == Lower(s)[i] by {
        forall i | 0 <= i < |s| ensures Lower(r)[i] == Lower(s)[i] {
          if i > 0 {
            assert r[i] == Lower(s[1..])[i - 1];
          }
        }
      }
      r
  }

  /** The two terms the form offers render as "Spring" and "Monsoon". */
  lemma CapitalizeTerms()
    ensures Capitalize("SPRING") == "Spring"
    ensures Capitalize("MONSOON") == "Monsoon"
  {
  }
}
