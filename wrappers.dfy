/** Optional values, used where the server's lookups may find nothing. */
module Wrappers {

  datatype Option<+T> = None | Some(value: T)

}
