/** The optional value used for fields a JavaScript object may leave undefined. */
module Wrappers {

  datatype Option<+T> = None | Some(value: T)
}
