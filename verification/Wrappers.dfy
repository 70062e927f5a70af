/** The option type used throughout the model (`Option` in the Rust code). */
module Wrappers {
  datatype Option<+T> = None | Some(value: T)
}

module Sequences {
  lemma Assoc<T>(a: seq<T>, b: seq<T>, c: seq<T>)
    ensures (a + b) + c == a + (b + c)
  {
  }
}
