/** An optional value: None where the engine returns a null pointer. */
module Wrappers {

  datatype Option<+T> = None | Some(value: T)
}
