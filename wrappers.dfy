/** Java references that may be null are modelled as optional values. */
module Wrappers {
  datatype Option<+T> = None | Some(value: T)
}
