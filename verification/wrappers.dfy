/** Absent-or-present values, used where the C++ code returns a null pointer. */
module Wrappers {

  datatype Option<+T> = None | Some(value: T)
}
