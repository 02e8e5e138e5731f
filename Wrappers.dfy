/** The optional value used for TypeScript's `undefined`-able fields and for `user?.id`. */
module Wrappers {

  datatype Option<+T> = None | Some(value: T)
}
