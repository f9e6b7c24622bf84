/** Shared result shapes. */
module Wrappers {

  /** A value that may be missing: a Redis nil reply, an absent map entry, a Go nil. */
  datatype Option<+T> = None | Some(value: T)
}
