/** Optional values: Python's `None`, and a dictionary key that is absent. */
module Wrappers {
  datatype Option<+T> = None | Some(value: T)
}
