/** Optional values, used for Go's `(value, ok)` pairs and nil-able errors. */
module Wrappers {

  datatype Option<+T> = None | Some(value: T)
}
