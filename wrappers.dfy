/** Optional values: a fetch that failed, a configuration option that is not set. */
module Wrappers {

  datatype Option<+T> = None | Some(value: T)

}
