/** A value that may be absent: a null column, a missing row, an empty request parameter. */
module Wrappers {
  datatype Option<+T> = None | Some(value: T)
}
