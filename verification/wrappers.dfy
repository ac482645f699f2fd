/** The optional value used for results that may be absent (a missing match, a failed read). */
module Wrappers {

  datatype Option<+T> = None | Some(value: T)
}
