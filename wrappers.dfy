/** Optional values, for fields a request may leave out and for state that may be absent. */
module Wrappers {

  datatype Option<+T> = None | Some(value: T)
}
