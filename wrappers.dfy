/** An optional value: the model's stand-in for Go's nil-able function values and byte slices. */
module Wrappers {

  datatype Option<+T> = None | Some(value: T)
}
