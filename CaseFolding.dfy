/**
 * Ordinal case-insensitive comparison of names (StringComparison.OrdinalIgnoreCase),
 * restricted to ASCII letters: every other character must match exactly.
 */
module CaseFolding {

  /** The upper-case form of an ASCII lower-case letter; every other character is its own fold. */
  function FoldChar(c: char): (r: char)
    ensures 'a' <= c <= 'z' ==> 'A' <= r <= 'Z' && r as int == c as int - 32
    ensures !('a' <= c <= 'z') ==> r == c
  {
    if 'a' <= c <= 'z' then (c as int - 32) as char else c
  }

  /** The two names are equal once ASCII letters are folded to upper case. */
  predicate EqualsIgnoreCase(a: string, b: string)
  {
    |a| == |b| && forall i :: 0 <= i < |a| ==> FoldChar(a[i]) == FoldChar(b[i])
  }

  lemma EqualsIgnoreCaseIsEquivalence(a: string, b: string, c: string)
    ensures EqualsIgnoreCase(a, a)
    ensures EqualsIgnoreCase(a, b) ==> EqualsIgnoreCase(b, a)
    ensures EqualsIgnoreCase(a, b) && EqualsIgnoreCase(b, c) ==> EqualsIgnoreCase(a, c)
  {
  }

  /** Two characters fold alike exactly when they are equal or differ only in ASCII letter case. */
  lemma FoldCharSame(c: char, d: char)
    ensures FoldChar(c) == FoldChar(d) <==>
      c == d || ('a' <= c <= 'z' && d as int == c as int - 32) || ('a' <= d <= 'z' && c as int == d as int - 32)
  {
  }
}
