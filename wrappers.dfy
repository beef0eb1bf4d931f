/** A value that may be absent: a missing header, key or JSON member. */
module Wrappers {
  datatype Option<+T> = None | Some(value: T)
}
