/** Small facts about sequence concatenation that the proofs use by name. */
module Sequences {

  /** Concatenation is associative. */
  lemma AppendAssoc<T>(a: seq<T>, b: seq<T>, c: seq<T>)
    ensures a + b + c == a + (b + c)
  {
  }

  /** Seven elements appended one at a time are appended as one sequence. */
  lemma Appends7<T>(p: seq<T>, a: T, b: T, c: T, d: T, e: T, f: T, g: T)
    ensures p + [a] + [b] + [c] + [d] + [e] + [f] + [g] == p + [a, b, c, d, e, f, g]
  {
  }
}
