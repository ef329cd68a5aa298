/** Splitting a string at the first occurrence of a separator: the
    inverse of the `a + "/" + b` joins the adapter uses for full names
    and request paths. */
module Text {

  /** The part of `s` before the first `sep`, or all of `s` when there is none. */
  function Before(s: string, sep: char): (r: string)
    ensures |r| <= |s| && r == s[..|r|]
    ensures sep !in r
  {
    if s == [] || s[0] == sep then [] else [s[0]] + Before(s[1..], sep)
  }

  /** The part of `s` after the first `sep`, or empty when there is none. */
  function After(s: string, sep: char): (r: string)
    ensures |r| <= |s|
  {
    if s == [] then [] else if s[0] == sep then s[1..] else After(s[1..], sep)
  }

  /** Joining with a separator that does not occur in the left part is undone
      by splitting at the first separator. */
  lemma {:induction false} SplitJoin(a: string, sep: char, b: string)
    requires sep !in a
    ensures Before(a + [sep] + b, sep) == a
    ensures After(a + [sep] + b, sep) == b
  {
    if a != [] {
      assert (a + [sep] + b)[1..] == a[1..] + [sep] + b;
      SplitJoin(a[1..], sep, b);
    }
  }

  /** Whether `p` is a prefix of `s`. */
  predicate HasPrefix(s: string, p: string)
  {
    |p| <= |s| && s[..|p|] == p
  }

  // Proof aids: facts about concatenation that Dafny knows already, stated
  // as lemmas so that callers can supply them without a costly search.
  // They are not properties of the adapter.

  /** Concatenation regrouped to the right. */
  lemma Regroup(a: string, b: string, c: string)
    ensures (a + b) + c == a + (b + c)
  {
  }

  /** The character just after a prefix is the first one of what follows it. */
  lemma At(a: string, b: string)
    requires b != []
    ensures (a + b)[|a|] == b[0]
  {
  }
}
