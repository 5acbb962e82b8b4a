/** Optional values, used for dictionary lookups and conversions that may fail. */
module Wrappers {

  datatype Option<+T> = None | Some(value: T)
}
