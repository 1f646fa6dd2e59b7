/** The optional-value type shared by the other modules. */
module Wrappers {

  /** A value that may be absent (Kotlin's nullable types). */
  datatype Option<+T> = None | Some(value: T)
}
