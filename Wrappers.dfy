/** The optional value used for nullable component state. */
module Wrappers {

  datatype Option<+T> = None | Some(value: T)
}
