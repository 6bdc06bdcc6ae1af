/** The optional value used wherever the game returns `None` for a missing result. */
module Wrappers {

  datatype Option<+T> = None | Some(value: T)
}
