/** Optional values, used for a position at which a reader fails. */
module Wrappers {
  datatype Option<+T> = None | Some(value: T)
}
