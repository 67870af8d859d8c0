/** Shared vocabulary of the game: the optional-value wrapper and the
    application-wide scene state (the `prelude` module of the program). */
module Prelude {

  /** An optional value; used for the pending scene transition, which is
      empty until some system requests a new state. */
  datatype Option<+T> = None | Some(value: T)

  /** The two scenes of the application; it starts in `Menu`. */
  datatype GameState = Menu | Pong
}
