/** The optional value used where a string tag may name no light mode. */
module Wrappers {

  datatype Option<+T> = None | Some(value: T)
}
