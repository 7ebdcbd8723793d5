/** Option, the stand-in for a value that may be undefined or a decode that may fail. */
module Wrappers {
  datatype Option<+T> = None | Some(value: T)
}
