/** Optional values: a missing tooltip, an unavailable terminal width, an absent transient prompt. */
module Wrappers {

  datatype Option<+T> = None | Some(value: T)
}
