/** The absent-or-present value that the JSON loader hands back. */
module Wrappers {

  datatype Option<+T> = None | Some(value: T)
}
