/** Optional values: a provider field that may be missing, a stage that may fail. */
module Wrappers {

  datatype Option<+T> = None | Some(value: T)
}
