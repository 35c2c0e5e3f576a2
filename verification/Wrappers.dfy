/** Optional values, for the `None` results of the modelled program. */
module Wrappers {
  datatype Option<+T> = None | Some(value: T)
}
