/** Go's nil-or-value results: a nil pointer, slice entry or error is None. */
module Wrappers {

  datatype Option<+T> = None | Some(value: T)
}
