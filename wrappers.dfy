/** Optional values, used where the report prints "N/A". */
module Wrappers {
  datatype Option<T> = None | Some(value: T)
}
