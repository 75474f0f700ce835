/** Optional values, used for results that may be missing and for operations that may fail. */
module Wrappers {

  datatype Option<+T> = None | Some(value: T)
}
