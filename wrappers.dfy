/** Optional values, for inputs that may be missing and searches that may fail. */
module Wrappers {

  datatype Option<+T> = None | Some(value: T)
}
