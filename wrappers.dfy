/** The optional value used where the driver hands a completed byte to its consumer. */
module Wrappers {

  datatype Option<+T> = None | Some(value: T)
}
