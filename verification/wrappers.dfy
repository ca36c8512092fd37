/** The optional-value type used for JavaScript values that may be missing
    (`undefined` / `null`) and for lookups that may fail. */
module Wrappers {

  datatype Option<+T> = None | Some(value: T)
}
