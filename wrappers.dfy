/** The optional value used where the source holds `null`/`undefined`. */
module Wrappers {
  datatype Option<+T> = None | Some(value: T)
}
