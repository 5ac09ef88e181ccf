/** A nullable value, as PHP's `?string` return types produce. */
module Wrappers {

  datatype Option<+T> = None | Some(value: T)
}
