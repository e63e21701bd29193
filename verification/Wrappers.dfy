/** Optional values, used across the models wherever the sources use `undefined` or `None`. */
module Wrappers {

  datatype Option<+T> = None | Some(value: T)
}
