/** Python's `None`-or-value, shared by the cache and the client. */
module Wrappers {

  datatype Option<+T> = None | Some(value: T)
}
