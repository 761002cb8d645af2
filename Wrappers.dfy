/** Optional values, standing in for the source's `null`-able state. */
module Wrappers {

  datatype Option<+T> = None | Some(value: T)

}
