/** The nullable/optional value used for JavaScript `null`, `NaN` and missing results. */
module Wrappers {
  datatype Option<+T> = None | Some(value: T)
}
