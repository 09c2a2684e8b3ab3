/** The optional-value datatype used where the source returns a nullable pointer. */
module Wrappers {
  datatype Option<+T> = None | Some(value: T)
}
