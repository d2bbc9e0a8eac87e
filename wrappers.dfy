/** A nullable value, for the places where the game holds an optional reference or result. */
module Wrappers {

  datatype Option<+T> = None | Some(value: T)

}
