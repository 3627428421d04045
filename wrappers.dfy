/** The optional value used wherever the page code tests for null or undefined. */
module Wrappers {
  datatype Option<+T> = None | Some(value: T)
}
