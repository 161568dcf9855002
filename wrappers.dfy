/** Option, the model's stand-in for Go's nil-able results. */
module Wrappers {

  datatype Option<+T> = None | Some(value: T)
}
