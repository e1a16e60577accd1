/** Number guessing (`.tebak` / `.tebakangka`): one game per channel. */
module Guessing {
  import opened Types

  /** The range the target is drawn from. */
  const Low := 1
  const High := 100

  /** A running game: the target, the guesses made so far and who started it. */
  datatype Game = Game(number: int, attempts: nat, creator: UserId)

  /** What a guess tells the player. */
  datatype Reply =
    | NoGame                                // no game in this channel
    | Correct(target: int, attempts: nat)   // the game ends
    | TooLow                                // "Terlalu rendah"
    | TooHigh                               // "Terlalu tinggi"

  /** The hint for a wrong guess. */
  function Hint(guess: int, target: int): (r: Reply)
    requires guess != target
    ensures r == TooLow <==> guess < target
    ensures r == TooHigh <==> target < guess
  {
    if guess < target then TooLow else TooHigh
  }
}
