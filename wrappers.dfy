/** The optional value used where the source has `None` or raises. */
module Wrappers {
  datatype Option<+T> = None | Some(value: T)
}
