/** Small helper datatypes shared by the modules of this model. */
module Wrappers {

  /** A value that may be absent: Go's optional results (a deadline that may be unset, a nil error). */
  datatype Option<+T> = None | Some(value: T)
}
