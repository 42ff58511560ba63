/**
 * Regrouping lemmas for sequence concatenation. Stating them once and calling
 * them keeps the proofs that build lists by appending from re-proving
 * sequence equality element by element.
 */
module Seqs {
  /** Appending nothing changes nothing. */
  lemma {:induction false} AppendEmpty<T>(s: seq<T>)
    ensures s + [] == s
  {
  }

  /** Appending to nothing gives the appended sequence. */
  lemma {:induction false} EmptyAppend<T>(s: seq<T>)
    ensures [] + s == s
  {
  }

  /** Concatenation is associative. */
  lemma {:induction false} AppendAssoc<T>(a: seq<T>, b: seq<T>, c: seq<T>)
    ensures a + (b + c) == (a + b) + c
  {
  }

  /** Five appended pieces regrouped around a prefix. */
  lemma {:induction false} AppendAssoc5<T>(x: seq<T>, a: seq<T>, b: seq<T>, c: seq<T>, d: seq<T>, e: seq<T>)
    ensures x + (a + b + c + d + e) == (x + a + b + c + d) + e
  {
    AppendAssoc(x, a + b + c + d, e);
    AppendAssoc(x, a + b + c, d);
    AppendAssoc(x, a + b, c);
    AppendAssoc(x, a, b);
  }
}
