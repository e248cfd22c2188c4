/** Case folding of breed names, the normalisation the cache applies to its keys.
    The fold is ASCII lowercasing: 'A'..'Z' become 'a'..'z', every other
    character is kept. Two names collide exactly when they are equal up to the
    case of their ASCII letters. */
module CaseFold {

  predicate IsUpper(c: char) { 'A' <= c <= 'Z' }

  predicate IsLower(c: char) { 'a' <= c <= 'z' }

  /** Lowercases one character: the result is not an upper-case letter and
      is the same letter as `c` up to case. */
  function LowerChar(c: char): (d: char)
    ensures !IsUpper(d) && SameCharIgnoringCase(c, d)
  {
    if IsUpper(c) then (c as int + 32) as char else c
  }

  /** Lowercases a whole name, character by character. */
  function Lower(s: string): (r: string)
    ensures |r| == |s|
    ensures forall i :: 0 <= i < |s| ==> r[i] == LowerChar(s[i])
  {
    if s == [] then [] else [LowerChar(s[0])] + Lower(s[1..])
  }

  /** Reference definition of "the same letter up to case", without folding:
      equal, or an upper- and a lower-case ASCII letter 32 code points apart. */
  predicate SameCharIgnoringCase(c: char, d: char)
  {
    c == d
    || (IsUpper(c) && IsLower(d) && d as int - c as int == 32)
    || (IsLower(c) && IsUpper(d) && c as int - d as int == 32)
  }

  /** Reference definition of "the same name up to case". */
  predicate EqualIgnoringCase(a: string, b: string)
  {
    |a| == |b| && forall i :: 0 <= i < |a| ==> SameCharIgnoringCase(a[i], b[i])
  }

  /** Two characters fold to the same character exactly when they are the
      same letter up to case. */
  lemma LowerCharCollides(c: char, d: char)
    ensures LowerChar(c) == LowerChar(d) <==> SameCharIgnoringCase(c, d)
  {
  }

  /** Two names fold to the same key exactly when they are equal up to case. */
  lemma FoldCollides(a: string, b: string)
    ensures Lower(a) == Lower(b) <==> EqualIgnoringCase(a, b)
  {
    if Lower(a) == Lower(b) {
      forall i | 0 <= i < |a| ensures SameCharIgnoringCase(a[i], b[i]) {
        assert Lower(a)[i] == Lower(b)[i];
        LowerCharCollides(a[i], b[i]);
      }
    }
    if EqualIgnoringCase(a, b) {
      forall i | 0 <= i < |a| ensures Lower(a)[i] == Lower(b)[i] {
        LowerCharCollides(a[i], b[i]);
      }
    }
  }

  /** A folded name is a case variant of the name it came from. */
  lemma {:induction false} LowerIsVariant(s: string)
    ensures EqualIgnoringCase(Lower(s), s)
  {
    forall i | 0 <= i < |s| ensures SameCharIgnoringCase(Lower(s)[i], s[i]) {
      assert Lower(s)[i] == LowerChar(s[i]);
    }
  }

  /** Folding a folded name changes nothing: every key the cache stores is
      already in folded form. */
  lemma LowerIdempotent(s: string)
    ensures Lower(Lower(s)) == Lower(s)
  {
  }

  /** Three spellings of one breed name, "Hound", "hound" and "HOUND", fold
      to one key. */
  lemma HoundSpellingsCollide()
    ensures Lower("Hound") == Lower("hound") == Lower("HOUND") == "hound"
    ensures EqualIgnoringCase("hound", "Hound") && EqualIgnoringCase("HOUND", "Hound")
  {
  }
}
