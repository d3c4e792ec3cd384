/** The optional value used throughout the model for "present or absent". */
module Wrappers {

  datatype Option<+T> = None | Some(value: T)
}
