/** Optional values: a SQL NULL column, a `null` module variable. */
module Wrappers {
  datatype Option<+T> = None | Some(value: T)
}
