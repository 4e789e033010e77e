/** The optional value used wherever the game returns a possibly-null reference. */
module Wrappers {

  datatype Option<+T> = None | Some(value: T)
}
