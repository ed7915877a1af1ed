/** The optional value used where the source returns a null string. */
module Wrappers {
  datatype Option<+T> = None | Some(value: T)
}
