/** The absence value of the model: Python's `None` where a value may be missing. */
module Wrappers {
  datatype Option<+T> = None | Some(value: T)
}
