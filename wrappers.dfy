/** The optional value that stands in for JavaScript's `undefined` result. */
module Wrappers {

  datatype Option<+T> = None | Some(value: T)
}
