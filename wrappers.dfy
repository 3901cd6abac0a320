/** The optional-value wrapper shared by every module of the model. */
module Wrappers {

  /** A value that may be absent; `None` stands for Go's `nil`. */
  datatype Option<+T> = None | Some(value: T)
}
