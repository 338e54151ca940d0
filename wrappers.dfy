/** Optional values: Go's nil-able pointers and `error` interface values. */
module Wrappers {

  datatype Option<+T> = None | Some(value: T)
}
