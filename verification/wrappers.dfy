/** The optional-value wrapper used for Python's `None`. */
module Wrappers {

  /** A value that may be absent, as a Python attribute or argument that may be `None`. */
  datatype Option<+T> = None | Some(value: T)
}
