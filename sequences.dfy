/** Regrouping facts about sequence concatenation, used for entry lists, value lists and strings alike. */
module Sequences {
  /** Concatenation regroups freely. */
  lemma AppendAssociates<T>(a: seq<T>, b: seq<T>, c: seq<T>)
    ensures (a + b) + c == a + (b + c)
  {
  }

  /** One element appended and then more is the same as appending them together (entries or any other sequence). */
  lemma AppendRegroups<T>(m: seq<T>, e: T, rest: seq<T>)
    ensures (m + [e]) + rest == m + ([e] + rest)
  {
  }
}
