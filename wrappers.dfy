/** The Option type that stands for Java's nullable references. */
module Wrappers {

  /** `None` is Java's `null`; `Some(v)` is a non-null reference to `v`. */
  datatype Option<+T> = None | Some(value: T)
}
