/** Optional values: a field of a record that may be absent, or a query that may find nothing. */
module Wrappers {
  datatype Option<+T> = None | Some(value: T)
}
