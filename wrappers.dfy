/** The "absent or present" value that JavaScript expresses with `null` / `undefined`. */
module Wrappers {
  datatype Option<+T> = None | Some(value: T)
}
