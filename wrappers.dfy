/** Optional values, for React state that may hold null. */
module Wrappers {

  datatype Option<+T> = None | Some(value: T)
}
