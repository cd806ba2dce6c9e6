/** The optional value used for a lock that may not be acquired and a radio write that may not happen. */
module Wrappers {
  datatype Option<+T> = None | Some(value: T)
}
