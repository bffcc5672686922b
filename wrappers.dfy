/** Values that may be absent, as `null`/`undefined` are in JavaScript. */
module Wrappers {

  datatype Option<+T> = None | Some(value: T)

}
