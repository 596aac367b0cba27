/** Optional values, standing for Python's `None` where the source returns or stores one. */
module Wrappers {
  datatype Option<+T> = None | Some(value: T)
}
