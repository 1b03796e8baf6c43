/** The optional-value datatype used throughout the model (Java's `Optional` and nullable references). */
module Wrappers {

  datatype Option<+T> = None | Some(value: T)
}
