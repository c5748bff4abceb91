/** The domain events that travel over the bridge's single channel. */
module Events {

  /** Rust's `i32`, the type of a Telegram message id. */
  newtype i32 = x: int | -0x8000_0000 <= x < 0x8000_0000

  /**
   * `MessageFromFactorio` goes to Telegram (`silent` disables the
   * notification); `MessageFromTg` and `CommandFromTg` go to the game's
   * remote console, the latter with the id of the message to reply to.
   */
  datatype Event =
    | MessageFromFactorio(msg: string, silent: bool)
    | MessageFromTg(msg: string)
    | CommandFromTg(id: i32, cmd: string)
}
