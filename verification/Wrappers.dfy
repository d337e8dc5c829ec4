/** The optional value used for a Go pointer that may be nil and for a call that may fail. */
module Wrappers {
  datatype Option<+T> = None | Some(value: T)
}
