/** The optional values the model uses for Python's `None`. */
module Wrappers {

  /** A value that may be absent, as a Python variable that may hold `None`. */
  datatype Option<+T> = None | Some(value: T)
}
