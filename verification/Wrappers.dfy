/** Optional values: the `null` columns of the database rows. */
module Wrappers {
  datatype Option<+T> = None | Some(value: T)
}
