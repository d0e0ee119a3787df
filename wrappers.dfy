/** The optional values JavaScript expresses with `null` / `undefined`. */
module Wrappers {
  datatype Option<+T> = None | Some(value: T)
}
