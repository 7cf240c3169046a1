/** The optional value used for JavaScript's `T | null`. */
module Wrappers {

  datatype Option<+T> = None | Some(value: T)
}
