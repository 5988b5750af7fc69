/** A value that may be missing: the source's null pointers and failed steps. */
module Wrappers {
  datatype Option<T> = None | Some(value: T)
}
