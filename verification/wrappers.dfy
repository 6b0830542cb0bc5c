/** Small datatypes shared by the modules of this project. */
module Wrappers {

  /** A value that may be missing, as produced by Swift's conditional casts (`as?`). */
  datatype Option<+T> = None | Some(value: T)
}
