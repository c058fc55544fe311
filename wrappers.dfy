/** Optional values, used for "the resource has this handler" and for the
    outcome of JSON encoding. */
module Wrappers {

  datatype Option<+T> = None | Some(value: T)
}
