/** The optional value used for absent keys and for the error paths. */
module Wrappers {
  datatype Option<+T> = None | Some(value: T)
}
