/** Optional values: a missing key, a not-a-number price, a name that does not parse. */
module Wrappers {

  datatype Option<+T> = None | Some(value: T)
}
