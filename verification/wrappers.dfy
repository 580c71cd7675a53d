/** Small helper datatypes shared by the modules of the model. */
module Wrappers {

  /** A value that may be absent, such as a pointer that may be null. */
  datatype Option<+T> = None | Some(value: T)
}
