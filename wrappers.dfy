/** Optional values, used for absent JSON keys, absent request bodies and absent errors. */
module Wrappers {

  datatype Option<+T> = None | Some(value: T)
}
