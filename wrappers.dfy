/** Optional values, used for results the source leaves out (no line printed, argument missing). */
module Wrappers {
  datatype Option<+T> = None | Some(value: T)
}
