/** Small value wrappers shared by the modules of this project. */
module Wrappers {

  /** A value that may be absent: the query cache before the first fetch, a missing storage key. */
  datatype Option<+T> = None | Some(value: T)
}
