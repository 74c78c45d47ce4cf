/** The optional value used for the source's `undefined` results and failed parses. */
module Wrappers {
  datatype Option<T> = None | Some(value: T)
}
