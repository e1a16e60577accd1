# Shop bot mini-games, modelled in Dafny

This project models the game rules of the chat bot in `bot_shop.py` and the
small in-memory state they keep:

- **Tebak angka** (number guessing). `.tebak` starts one game per channel with a
  target in 1..100. `.tebakangka` counts the attempt. A correct guess ends the
  game. A wrong guess is answered "too low" or "too high". `.cleargames`
  deletes every running game and reports how many it deleted.
- **Suit** (rock-paper-scissors: batu, gunting, kertas). The player's choice is
  lower-cased and checked. The outcome follows the cyclic dominance relation.
  Each valid play bumps one of the player's win/loss/draw counters.
- **Flip** (coin flip). A guess of `angka`, `gambar` or their aliases `head` and
  `tail` is lower-cased and checked. The win rule compares the guess with the
  side shown. Only a guessed flip bumps the player's win/loss counters.
- **Dadu** (dice). The count must be in 1..5. One roll is made per die, and the
  total is the sum of the rolls.
- **Slot**. Three reels are classified as jackpot, near miss or loss.

Layout: one module per game (`Guessing`, `Suit`, `CoinFlip`, `Dice`, `Slot`).
`Text` holds `str.lower()`. `Types` holds the optional argument and the id
types. `Bot.GameState` is a class whose three `map` fields are the source's
module-level dictionaries `guessing_games`, `rps_stats` and `coin_flip_stats`.
Its methods update those fields in place, as the command handlers do.
`GameState.Valid()` is the invariant every command keeps: running targets lie
in 1..100, and every user with a record has played at least once. So the
game counts that `.suitstats` and `.flipstats` divide by (`SuitGames`,
`FlipGames`) are never zero, and the `total > 0` fallback of the win-rate
display (bot_shop.py:187, 275) never fires.

Each random draw is a parameter of the operation that uses it:

- the target of `.tebak`;
- the bot's hand in `.suit`;
- the side the coin shows in `.flip`;
- the sequence of die rolls in `.dadu`;
- the three reel symbols in `.slot`.

Each parameter is constrained to the range `random.randint` or `random.choice`
draws from.

## Model

| member | source | states |
|---|---|---|
| Bot.GameState.SuitGames | bot_shop.py:185-187 | For a user with a record, the game count `.suitstats` shows and divides by is wins + losses + draws, and it is at least 1. |
| Bot.GameState.FlipGames | bot_shop.py:273-275 | For a user with a record, the game count `.flipstats` shows and divides by is wins + losses, and it is at least 1. |
| Bot.GameState.constructor | bot_shop.py:36-38 | The guessing-game table and both stats tables start empty, and the invariant holds. |
| Bot.GameState.StartGuess | bot_shop.py:52-63 | A start succeeds iff the channel has no game. On success exactly that channel gains `Game(target, 0, author)`. Otherwise the table, including the existing game, is unchanged. Other channels are never touched. |
| Bot.GameState.Guess | bot_shop.py:79-105 | With no game in the channel: reply NoGame, table unchanged. On a hit: reply Correct with attempts+1, and the channel's entry is removed. On a miss: the entry keeps its target and creator, attempts goes up by exactly 1, and the hint is "too low" iff the guess is below the target. |
| Bot.GameState.ClearGames | bot_shop.py:473-481 | Afterwards the table is empty, and `removed` equals the number of games it held before. The loop's deletes never miss. |
| Bot.GameState.PlaySuit | bot_shop.py:112-159 | A missing or empty choice gives the prompt. A choice that lower-cases to none of the three names is rejected. In both cases `rps_stats` is unchanged. A valid choice is judged against the bot's hand, and `rps_stats` becomes `RecordPlay` of the old table with that outcome. |
| Bot.GameState.Flip | bot_shop.py:207-240 | An invalid guess is rejected and `coin_flip_stats` is unchanged. No guess: the toss is shown and the stats are unchanged. A valid guess is judged by `Wins`, and the stats become `RecordFlip` of the old table. |
| Text.LowerChar | bot_shop.py:123 | An ASCII capital becomes the letter 32 code points above it, KELVIN SIGN becomes `k`, and every other character stays. The result is never upper case. |
| Text.Lower | bot_shop.py:123 | The result has the same length, and each character is `LowerChar` of the input's character at that position. No upper-case letter is left, and a string without one is unchanged. |
| Text.LowerAnyCase | bot_shop.py:123 | Any capitalisation of a lower-case ASCII word folds back to that word. |
| Text.LowerIdempotent | bot_shop.py:123 | Lower-casing twice equals lower-casing once. |
| Suit.ParseHand | bot_shop.py:123-126 | A choice is accepted as hand h iff its lower-cased form is exactly h's name, so only `batu`, `gunting` and `kertas` pass. |
| Suit.ParseName | bot_shop.py:123-124 | A hand's own name parses to that hand: `ParseHand` inverts `Name`. |
| Suit.ParseAnyCase | bot_shop.py:123-124 | Any capitalisation of a hand's name (`BATU`, `Gunting`, ...) parses to that hand. |
| Suit.Judge | bot_shop.py:139-153 | Draw iff the hands are equal. Win iff the player's hand beats the bot's on the cycle batu, gunting, kertas. Loss iff the bot's hand beats the player's. Exactly one of the three holds. |
| Suit.JudgeSwap | bot_shop.py:144-153 | Swapping player and bot turns a win into a loss and the reverse, and keeps a draw. |
| Suit.Fair | bot_shop.py:129-153 | Against the bot's three choices, every hand wins once, loses once and draws once. |
| Suit.Bump | bot_shop.py:159 | The counter named by the outcome goes up by 1, the other two stay, and the total goes up by 1. |
| Suit.RecordPlay | bot_shop.py:156-159 | The user is added if unseen, starting from all-zero counters. Their record becomes `Bump` of that prior record. Every other user's record is unchanged. |
| Suit.RecordPlayKeepsPlayed | bot_shop.py:156-159 | If every user in `rps_stats` has at least one play recorded, that still holds after a play, for the new user too. |
| Suit.ReplayKeys | bot_shop.py:156-159 | After any sequence of valid plays, a user has an entry iff they had one before or played. |
| Suit.CounterBump | bot_shop.py:159 | Bumping a record moves the counter for an outcome by 1 iff it is the outcome played. |
| Suit.CounterAfterPlay | bot_shop.py:156-159 | One valid play moves a user's counter for an outcome by 1 iff the play is that user's with that outcome. Otherwise the counter is unchanged. |
| Suit.ReplayCounts | bot_shop.py:156-159 | After any sequence of valid plays, each of a user's wins, losses and draws has grown by exactly the number of their plays with that outcome. |
| CoinFlip.ParseCall | bot_shop.py:207-211 | A guess is accepted as call c iff its lower-cased form is exactly c's name, so only `angka`, `gambar`, `head` and `tail` pass. |
| CoinFlip.ParseCallName | bot_shop.py:208-209 | A guess's own name parses to that guess: `ParseCall` inverts `CallName`. |
| CoinFlip.ParseCallAnyCase | bot_shop.py:208-209 | Any capitalisation of a guess's name (`HEAD`, `Angka`, ...) parses to that guess. |
| CoinFlip.Wins | bot_shop.py:222-228 | A guess wins iff the side it names wins. `head` is an alias of `angka` and `tail` of `gambar`. |
| CoinFlip.OneWinnerPerSpelling | bot_shop.py:214-228 | Whatever side shows, exactly one of `angka`/`gambar` wins, exactly one of `head`/`tail` wins, and `angka` wins iff `head` does. |
| CoinFlip.Tally | bot_shop.py:235-240 | Wins goes up by 1 on a win and losses on a loss. The other counter stays, and the total goes up by 1. |
| CoinFlip.RecordFlip | bot_shop.py:230-240 | The user is added if unseen, starting from zero counters. Exactly one of their wins/losses goes up by 1, matching the result. Every other user's record is unchanged. |
| CoinFlip.RecordFlipKeepsPlayed | bot_shop.py:230-240 | If every user in `coin_flip_stats` has at least one flip recorded, that still holds after a guessed flip, for the new user too. |
| Dice.SumBounds | bot_shop.py:301-304 | n rolls, each in 1..6, sum to between n and 6n. |
| Dice.RollDice | bot_shop.py:294-308 | A count outside 1..5 is rejected. Otherwise the results are the first `count` draws, each in 1..6, so `r - 1` indexes the six face glyphs. The total is their sum and lies in count..6*count. |
| Slot.Classify | bot_shop.py:338-346 | Jackpot iff the three reels show one distinct symbol. Near miss iff they show two. Loss iff they show three. |
| Slot.ClassifySymmetric | bot_shop.py:338-346 | The verdict does not depend on the order of the reels. |
| Guessing.Hint | bot_shop.py:102-105 | For a wrong guess the hint is "too low" iff the guess is below the target, and "too high" iff it is above. |

## Left out

- Chat-platform and web plumbing is not modelled: the bot object, intents, events, message sending, embeds and reply texts, `bot.run`, and the keep-alive web server and its thread. The replies are modelled only as the data they report.
- Random number generation is not modelled. Each draw is a parameter constrained to its range.
- Floating-point statistics are not modelled: the win rates of `.suitstats` and `.flipstats` and the dice average. Only the integer game counts they divide by are modelled (`SuitGames`, `FlipGames`), with the proof that those are positive.
- The static commands `help`, `games`, `pricelist`, `payment`, `payimage`, `done` and `ping` are not modelled. They send constant text and links, and `ping` reads network latency.
- The command error handler is not modelled. It only maps framework exceptions to messages, including a `.tebakangka` argument that is not an integer.
- The 5-minute limit announced by `.tebak` is not modelled. It is only text, and no timer exists in the code.
- `hangman_games` is not modelled. It is declared but never used.
- The administrator check on `.cleargames` is not modelled. The framework enforces it.
- The default of one die for `.dadu` is not modelled. `RollDice` takes the count explicitly.
- Text.Lower: folds only ASCII `A`..`Z` and KELVIN SIGN (U+212A, whose lower case is `k`). Other Unicode case mappings are left out. Those are the only characters whose lower case is a single ASCII letter, so acceptance of a choice or guess is decided exactly as `str.lower()` decides it.
