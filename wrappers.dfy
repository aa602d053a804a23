/** Optional values: JavaScript's `null` and `undefined` are both `None` here. */
module Wrappers {

  datatype Option<+T> = None | Some(value: T)
}
