/** Optional values: the model's stand-in for a provider call that raised. */
module Wrappers {

  datatype Option<+T> = None | Some(value: T)
}
