/** The optional-value datatype used for Go's nil pointers and nil errors. */
module Wrappers {

  /** `None` stands for a nil pointer or a nil error, `Some(v)` for a non-nil one. */
  datatype Option<+T> = None | Some(value: T)
}
