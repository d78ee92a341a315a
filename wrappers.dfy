/** The optional value the modules share. */
module Wrappers {

  /** A value that may be absent: a nil pointer, a missing document field, a `nil` error. */
  datatype Option<+T> = None | Some(value: T)
}
