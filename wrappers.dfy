/** Optional values, used for every parser result and for the record's absent fields. */
module Wrappers {

  datatype Option<+T> = None | Some(value: T)
}
