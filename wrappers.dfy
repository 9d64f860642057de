/** Small shared value types. */
module Wrappers {
  /** An optional value: the session user that may be missing, a lookup that may find nothing. */
  datatype Option<+T> = None | Some(value: T)
}
