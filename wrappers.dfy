/** An optional value: a JSON field that may be absent (or `null`), or a response field that may be missing. */
module Wrappers {
  datatype Option<+T> = None | Some(value: T)
}
