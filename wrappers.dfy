/** The optional value used where the game code keeps a nullable reference or an optional result. */
module Wrappers {
  datatype Option<+T> = None | Some(value: T)
}
