/** The optional value used for the game's `None`-able references (the boss, a weapon). */
module Wrappers {

  datatype Option<+T> = None | Some(value: T)

}
