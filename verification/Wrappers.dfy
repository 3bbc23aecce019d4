/** The result shape and the address type shared by the other modules. */
module Wrappers {
  datatype Option<+T> = None | Some(value: T)

  /** A virtual IPv4 address as a number; its text form is one-to-one with it. */
  type Addr = nat

  /** No element occurs twice. */
  predicate Distinct<T(==)>(xs: seq<T>) {
    forall i, j :: 0 <= i < j < |xs| ==> xs[i] != xs[j]
  }
}
