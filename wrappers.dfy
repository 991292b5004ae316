/** PHP `null` next to a value, as an explicit option. */
module Wrappers {

  datatype Option<+T> = None | Some(value: T)
}
