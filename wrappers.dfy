/** Optional values, used for reads that can hit the end of the input. */
module Wrappers {
  datatype Option<+T> = None | Some(value: T)
}
