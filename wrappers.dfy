/** Optional values, used where the scripts use `null` or a missing entry. */
module Wrappers {

  datatype Option<+T> = None | Some(value: T)
}
