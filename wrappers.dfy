/** Optional values: absence is an expected outcome (an unknown user, a payload that does not parse). */
module Wrappers {
  datatype Option<+T> = None | Some(value: T)
}
