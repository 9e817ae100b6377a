/** Optional values, for the nullable fields of the session. */
module Wrappers {

  datatype Option<+T> = None | Some(value: T)
}
