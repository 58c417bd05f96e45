/** The optional value returned by a lookup: JavaScript's `undefined` is `None`. */
module Wrappers {

  datatype Option<+T> = None | Some(value: T)
}
