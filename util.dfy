/** General-purpose values and facts about sequences. */
module Util {

  /** An optional value. */
  datatype Option<T> = None | Some(value: T)

  /** Sequence concatenation is associative. */
  lemma AppendAssoc<T>(a: seq<T>, b: seq<T>, c: seq<T>)
    ensures a + (b + c) == (a + b) + c
  {
  }
}
