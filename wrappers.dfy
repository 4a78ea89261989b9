/** Optional values, for a row that a query may not find and a field the
    platform may leave unset. */
module Wrappers {

  datatype Option<+T> = None | Some(value: T)
}
