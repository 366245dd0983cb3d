/**
 PHP's `strtolower` and `strtoupper` on ASCII letters, and the relation
 "equal up to letter case" that both of them respect.
 */
module Ascii {

  predicate IsUpperChar(c: char) {
    'A' <= c <= 'Z'
  }

  predicate IsLowerChar(c: char) {
    'a' <= c <= 'z'
  }

  /** `x` and `y` are the same character, or the two cases of one ASCII letter. */
  predicate SameCharUpToCase(x: char, y: char) {
    || x == y
    || (IsUpperChar(x) && y as int == x as int + 32)
    || (IsLowerChar(x) && y as int == x as int - 32)
  }

  /** Two strings that spell the same thing when ASCII letter case is ignored. */
  predicate SameUpToCase(a: string, b: string) {
    |a| == |b| && forall i :: 0 <= i < |a| ==> SameCharUpToCase(a[i], b[i])
  }

  /** The lower-case form of `c` is the one character of its case class that is not upper case. */
  function LowerChar(c: char): (r: char)
    ensures SameCharUpToCase(c, r) && !IsUpperChar(r)
  {
    if IsUpperChar(c) then (c as int + 32) as char else c
  }

  /** The upper-case form of `c` is the one character of its case class that is not lower case. */
  function UpperChar(c: char): (r: char)
    ensures SameCharUpToCase(c, r) && !IsLowerChar(r)
  {
    if IsLowerChar(c) then (c as int - 32) as char else c
  }

  /** `strtolower`: the string equal to `s` up to case that has no upper-case letter. */
  function Lower(s: string): (r: string)
    ensures SameUpToCase(s, r)
    ensures forall i :: 0 <= i < |r| ==> !IsUpperChar(r[i])
  {
    seq(|s|, i requires 0 <= i < |s| => LowerChar(s[i]))
  }

  /** `strtoupper`: the string equal to `s` up to case that has no lower-case letter. */
  function Upper(s: string): (r: string)
    ensures SameUpToCase(s, r)
    ensures forall i :: 0 <= i < |r| ==> !IsLowerChar(r[i])
  {
    seq(|s|, i requires 0 <= i < |s| => UpperChar(s[i]))
  }

  /** Lower-casing identifies exactly the strings that differ only in letter case. */
  lemma LowerSameIff(a: string, b: string)
    ensures Lower(a) == Lower(b) <==> SameUpToCase(a, b)
  {
  }

  /** Upper-casing identifies exactly the strings that differ only in letter case. */
  lemma UpperSameIff(a: string, b: string)
    ensures Upper(a) == Upper(b) <==> SameUpToCase(a, b)
  {
  }
}
