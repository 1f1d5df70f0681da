/** Optional values, used for decodes that may fail and lookups that may miss. */
module Wrappers {

  datatype Option<+T> = None | Some(value: T)

}
