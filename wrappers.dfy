/** The optional value used for nullable pointers and failed queries. */
module Wrappers {
  datatype Option<+T> = None | Some(value: T)
}
