/** Optional values, used for the lookups and parsers of this model. */
module Wrappers {

  datatype Option<+T> = None | Some(value: T)
}
