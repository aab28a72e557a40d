/** Optional values, used for the results of the decoders. */
module Wrappers {
  datatype Option<+T> = None | Some(value: T)
}
