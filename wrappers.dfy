/** Optional values: a missing sheet, a date pandas could not parse (NaT). */
module Wrappers {
  datatype Option<+T> = None | Some(value: T)
}
