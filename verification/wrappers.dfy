/** The optional value used where the plugin passes a pointer that may be null. */
module Wrappers {

  datatype Option<+T> = None | Some(value: T)
}
