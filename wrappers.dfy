/** Optional values: a missing storage slot, a missing DOM attribute, a `parseInt` that gave NaN. */
module Wrappers {

  datatype Option<+T> = None | Some(value: T)
}
