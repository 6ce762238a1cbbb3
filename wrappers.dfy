/** A value that may be absent: a missing attribute, a failed fetch. */
module Wrappers {
  datatype Option<+T> = None | Some(value: T)
}
