/** The optional value used for operations that may fail (Python raising ValueError). */
module Wrappers {
  datatype Option<+T> = None | Some(value: T)
}
