/** Optional values, used where the Java code throws or exits instead of returning. */
module Wrappers {
  datatype Option<+T> = None | Some(value: T)
}
