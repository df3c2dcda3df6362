/**
 * Case normalisation of product names. Both catalogue titles and sale
 * product names go through Lower before they are used as keys, which is
 * what makes the price lookup case-insensitive.
 */
module Text {

  predicate IsUpper(c: char) {
    'A' <= c <= 'Z'
  }

  /** One character of str.lower(), restricted to ASCII letters. */
  function LowerChar(c: char): (r: char)
    ensures !IsUpper(r)
    ensures IsUpper(c) ==> r as int == c as int + 32
    ensures !IsUpper(c) ==> r == c
  {
    if IsUpper(c) then (c as int + 32) as char else c
  }

  /** The string's `.lower()`: same length, no upper-case letter left. */
  function Lower(s: string): (r: string)
    ensures |r| == |s|
    ensures forall i :: 0 <= i < |r| ==> !IsUpper(r[i])
  {
    seq(|s|, i requires 0 <= i < |s| => LowerChar(s[i]))
  }

  /** Two characters that are equal, or the upper- and lower-case form of one letter. */
  predicate CasePair(x: char, y: char) {
    x == y ||
    (IsUpper(x) && y as int == x as int + 32) ||
    (IsUpper(y) && x as int == y as int + 32)
  }

  /** Two names that differ only in the case of their letters. */
  ghost predicate EqualIgnoringCase(a: string, b: string) {
    |a| == |b| && forall i :: 0 <= i < |a| ==> CasePair(a[i], b[i])
  }

  /** Two characters lower to the same character exactly when they differ at most in case. */
  lemma LowerCharSameIffCasePair(x: char, y: char)
    ensures LowerChar(x) == LowerChar(y) <==> CasePair(x, y)
  {
  }

  /** Lowering twice is lowering once: a stored key is already normal. */
  lemma LowerIdempotent(s: string)
    ensures Lower(Lower(s)) == Lower(s)
  {
    forall i | 0 <= i < |s|
      ensures Lower(Lower(s))[i] == Lower(s)[i]
    {
      assert Lower(s)[i] == LowerChar(s[i]);
    }
  }

  /** Two names normalise to the same key exactly when they differ only in case. */
  lemma SameKeyIffEqualIgnoringCase(a: string, b: string)
    ensures Lower(a) == Lower(b) <==> EqualIgnoringCase(a, b)
  {
    if Lower(a) == Lower(b) {
      forall i | 0 <= i < |a|
        ensures CasePair(a[i], b[i])
      {
        assert Lower(a)[i] == LowerChar(a[i]) && Lower(b)[i] == LowerChar(b[i]);
        LowerCharSameIffCasePair(a[i], b[i]);
      }
    }
    if EqualIgnoringCase(a, b) {
      forall i | 0 <= i < |a|
        ensures Lower(a)[i] == Lower(b)[i]
      {
        LowerCharSameIffCasePair(a[i], b[i]);
      }
    }
  }
}
