/** The optional value used for JavaScript's `null`-able fields. */
module Wrappers {

  datatype Option<+T> = None | Some(value: T)
}
