/** The optional value used for Go's `(value, err)` and `ok` returns. */
module Wrappers {

  datatype Option<+T> = None | Some(value: T)
}
