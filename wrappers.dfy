/** Java's `Optional` and nullable references, as an Option value. */
module Wrappers {

  datatype Option<+T> = None | Some(value: T)
}
