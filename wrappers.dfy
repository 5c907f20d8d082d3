/** A value that may be absent; stands for Java references that may be null. */
module Wrappers {
  datatype Option<+T> = None | Some(value: T)
}
