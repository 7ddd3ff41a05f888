/** The optional-value type used for JavaScript's `undefined` and for calls that may throw. */
module Wrappers {

  datatype Option<+T> = None | Some(value: T)

}
