/** An optional value, as returned by searches that may find nothing. */
module Wrappers {
  datatype Option<+T> = None | Some(value: T)
}
