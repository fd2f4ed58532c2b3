/** The optional value used where the source has `None` or a call that may raise. */
module Wrappers {
  datatype Option<+T> = None | Some(value: T)
}
