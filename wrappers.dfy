/** Optional values, used where the handler may or may not produce something. */
module Wrappers {

  datatype Option<+T> = None | Some(value: T)
}
