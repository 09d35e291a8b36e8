/** Optional values: an absent environment variable, a missing response body,
    an empty in-flight slot. */
module Wrappers {

  datatype Option<+T> = None | Some(value: T)
}
