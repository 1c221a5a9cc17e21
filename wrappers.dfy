/** A value that may be absent: JavaScript's `null`/`undefined` for the few places the model needs it. */
module Wrappers {
  datatype Option<+T> = None | Some(value: T)
}
