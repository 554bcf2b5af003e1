/** The optional value used throughout for a field or a lookup that may be missing. */
module Wrappers {
  datatype Option<+T> = None | Some(value: T)
}
