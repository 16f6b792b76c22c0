/** A value that may be missing: JavaScript's `undefined` or `null`. */
module Wrappers {
  datatype Option<+T> = None | Some(value: T)
}
