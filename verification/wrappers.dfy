/** An optional value: used for the game's nullable references (the last
    hitter, the ball object) and for "no action this frame". */
module Wrappers {

  datatype Option<+T> = None | Some(value: T)

}
