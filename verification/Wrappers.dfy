/** An answer that may be missing: an API call that failed, a setting left out, a lookup without a result. */
module Wrappers {
  datatype Option<+T> = None | Some(value: T)
}
