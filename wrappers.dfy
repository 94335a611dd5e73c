/** The optional value used wherever the JavaScript returns or stores null. */
module Wrappers {
  datatype Option<T> = None | Some(value: T)
}
