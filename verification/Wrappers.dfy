/** The optional value that stands for Go's "nil", "not found" and `(value, err)` results. */
module Wrappers {

  datatype Option<+T> = None | Some(value: T)
}
