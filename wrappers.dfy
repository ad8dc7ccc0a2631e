/** Optional values, shared by the volume store and the disk hook. */
module Wrappers {

  /** A value that may be absent: a nullable column, an unset environment variable. */
  datatype Option<+T> = None | Some(value: T)
}
