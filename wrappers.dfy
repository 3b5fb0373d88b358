/** An optional value. */
module Wrappers {

  /** A value that may be absent: an unset environment variable, a missing `response`. */
  datatype Option<+T> = None | Some(value: T)
}
