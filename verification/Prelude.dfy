/** Types shared by every model. */
module Prelude {
  datatype Option<+T> = None | Some(value: T)
}
