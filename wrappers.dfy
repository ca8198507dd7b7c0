/** Optional values: the model's stand-in for `undefined`, `null` and optional properties. */
module Wrappers {

  datatype Option<+T> = None | Some(value: T)
}
