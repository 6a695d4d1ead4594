/** The optional value used for JavaScript's `null`/`undefined` slots in the model. */
module Wrappers {

  datatype Option<+T> = None | Some(value: T)

}
