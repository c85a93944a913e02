/** The nullable values of the game (a creature slot, a selection, a result, an error). */
module Wrappers {
  datatype Option<+T> = None | Some(value: T)
}
