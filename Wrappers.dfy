/** The optional value used for query parameters and for response bodies that may be missing. */
module Wrappers {
  datatype Option<+T> = None | Some(value: T)
}
