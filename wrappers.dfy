/** The optional value used wherever a JavaScript expression may yield `null` or `undefined`. */
module Wrappers {

  datatype Option<+T> = None | Some(value: T)
}
