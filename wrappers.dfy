/** The optional value used where the Python code has `None` or a missing key. */
module Wrappers {
  datatype Option<+T> = None | Some(value: T)
}
