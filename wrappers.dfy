/** Optional values, used for Python's `None` and for absent dictionary keys. */
module Wrappers {

  datatype Option<+T> = None | Some(value: T)
}
