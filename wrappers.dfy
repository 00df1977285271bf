/** Optional values, used wherever the source has `undefined` as a possible result. */
module Wrappers {

  datatype Option<+T> = None | Some(value: T)
}
