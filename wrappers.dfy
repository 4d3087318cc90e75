/** The conventional optional value, used where the script raises instead of returning. */
module Wrappers {
  datatype Option<+T> = None | Some(value: T)
}
