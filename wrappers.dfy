/** Optional values: a request field that may be absent from the payload. */
module Wrappers {

  datatype Option<+T> = None | Some(value: T)
}
