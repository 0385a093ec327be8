/** The "value or nothing" wrapper used wherever the program holds `null`,
    an absent storage entry, or an external call that may throw. */
module Wrappers {
  datatype Option<+T> = None | Some(value: T)
}
