/** The bot's in-memory game state: the guessing games per channel and the
    rock-paper-scissors and coin-flip counters per user, each updated in
    place by the commands below. */
module Bot {
  import opened Types
  import Guessing
  import Suit
  import CoinFlip

  /** What `.suit` answers. */
  datatype SuitReply =
    | SuitPrompt                                            // no choice given: show how to play
    | SuitInvalid                                           // not batu/gunting/kertas
    | SuitPlayed(player: Suit.Hand, bot: Suit.Hand, outcome: Suit.Outcome)

  /** What `.flip` answers. */
  datatype FlipReply =
    | FlipInvalid                                           // not angka/gambar/head/tail
    | FlipTossed(result: CoinFlip.Side)                     // no guess given
    | FlipCalled(call: CoinFlip.Call, result: CoinFlip.Side, win: bool)

  class GameState {
    var guessingGames: map<ChannelId, Guessing.Game>
    var rpsStats: map<UserId, Suit.Record>
    var coinFlipStats: map<UserId, CoinFlip.Record>

    /** Every running game's target is in 1..100, and every user with a
        record has played at least once, so the win-rate denominators of
        `.suitstats` and `.flipstats` are never zero. */
    ghost predicate Valid()
      reads this
    {
      && (forall c | c in guessingGames :: Guessing.Low <= guessingGames[c].number <= Guessing.High)
      && Suit.AllPlayed(rpsStats)
      && CoinFlip.AllPlayed(coinFlipStats)
    }

    /** The game count `.suitstats` divides by for a user with a record
        (`wins + losses + draws`); it is never zero. */
    function SuitGames(user: UserId): (n: nat)
      reads this
      requires Valid() && user in rpsStats
      ensures n >= 1
      ensures n == Suit.Total(rpsStats[user])
    {
      rpsStats[user].wins + rpsStats[user].losses + rpsStats[user].draws
    }

    /** The game count `.flipstats` divides by for a user with a record
        (`wins + losses`); it is never zero. */
    function FlipGames(user: UserId): (n: nat)
      reads this
      requires Valid() && user in coinFlipStats
      ensures n >= 1
      ensures n == CoinFlip.Total(coinFlipStats[user])
    {
      coinFlipStats[user].wins + coinFlipStats[user].losses
    }

    /** At start-up every table is empty. */
    constructor ()
      ensures Valid()
      ensures guessingGames == map[] && rpsStats == map[] && coinFlipStats == map[]
    {
      guessingGames := map[];
      rpsStats := map[];
      coinFlipStats := map[];
    }

    /** `.tebak`: starts a game in `channel` with the drawn `target`, unless
        one is already running there. */
    method StartGuess(channel: ChannelId, author: UserId, target: int) returns (started: bool)
      requires Valid()
      requires Guessing.Low <= target <= Guessing.High
      modifies this`guessingGames
      ensures Valid()
      ensures started <==> channel !in old(guessingGames)
      ensures !started ==> guessingGames == old(guessingGames)
      ensures started ==> guessingGames == old(guessingGames)[channel := Guessing.Game(target, 0, author)]
    {
      if channel in guessingGames {
        return false;
      }
      guessingGames := guessingGames[channel := Guessing.Game(target, 0, author)];
      started := true;
    }

    /** `.tebakangka angka`: counts the attempt, ends the game on a hit and
        otherwise says whether the guess was too low or too high. */
    method Guess(channel: ChannelId, guess: int) returns (reply: Guessing.Reply)
      requires Valid()
      modifies this`guessingGames
      ensures Valid()
      ensures channel !in old(guessingGames) ==> reply == Guessing.NoGame && guessingGames == old(guessingGames)
      ensures channel in old(guessingGames) && guess == old(guessingGames)[channel].number ==>
                && reply == Guessing.Correct(guess, old(guessingGames)[channel].attempts + 1)
                && guessingGames == old(guessingGames) - {channel}
      ensures channel in old(guessingGames) && guess != old(guessingGames)[channel].number ==>
                var g := old(guessingGames)[channel];
                && reply == Guessing.Hint(guess, g.number)
                && guessingGames == old(guessingGames)[channel := g.(attempts := g.attempts + 1)]
    {
      if channel !in guessingGames {
        return Guessing.NoGame;
      }
      var game := guessingGames[channel];
      game := game.(attempts := game.attempts + 1);
      guessingGames := guessingGames[channel := game];
      var target := game.number;
      if guess == target {
        reply := Guessing.Correct(target, game.attempts);
        guessingGames := guessingGames - {channel};
      } else {
        reply := Guessing.Hint(guess, target);
      }
    }

    /** `.cleargames`: deletes every running game and reports how many it
        deleted. */
    method ClearGames() returns (removed: nat)
      requires Valid()
      modifies this`guessingGames
      ensures Valid()
      ensures guessingGames == map[]
      ensures removed == |old(guessingGames)|
    {
      removed := 0;
      var pending: set<ChannelId> := guessingGames.Keys;
      while pending != {}
        invariant guessingGames.Keys == pending
        invariant Valid()
        invariant removed + |pending| == |old(guessingGames)|
        decreases |pending|
      {
        assert (forall c :: c !in pending) ==> pending == {};
        var c :| c in pending;
        // `del` cannot miss here: the snapshot and the table keep the same keys.
        if c in guessingGames {
          guessingGames := guessingGames - {c};
          removed := removed + 1;
        }
        pending := pending - {c};
      }
    }

    /** `.suit [pilihan]`: with a valid choice, plays it against the bot's
        draw `botHand` and counts the outcome for `user`; otherwise only
        replies. */
    method PlaySuit(user: UserId, choice: Option<string>, botHand: Suit.Hand) returns (reply: SuitReply)
      requires Valid()
      modifies this`rpsStats
      ensures Valid()
      ensures !Given(choice) ==> reply == SuitPrompt
      ensures Given(choice) && Suit.ParseHand(choice.value).None? ==> reply == SuitInvalid
      ensures Given(choice) && Suit.ParseHand(choice.value).Some? ==>
                var h := Suit.ParseHand(choice.value).value;
                reply == SuitPlayed(h, botHand, Suit.Judge(h, botHand))
      ensures reply.SuitPlayed? ==> rpsStats == Suit.RecordPlay(old(rpsStats), user, reply.outcome)
      ensures !reply.SuitPlayed? ==> rpsStats == old(rpsStats)
    {
      if !Given(choice) {
        return SuitPrompt;
      }
      var parsed := Suit.ParseHand(choice.value);
      if parsed.None? {
        return SuitInvalid;
      }
      var outcome := Suit.Judge(parsed.value, botHand);
      Suit.RecordPlayKeepsPlayed(rpsStats, user, outcome);
      rpsStats := Suit.RecordPlay(rpsStats, user, outcome);
      reply := SuitPlayed(parsed.value, botHand, outcome);
    }

    /** `.flip [tebakan]`: rejects an invalid guess before anything else;
        otherwise the coin shows `result`, and a given guess is judged and
        counted for `user`. */
    method Flip(user: UserId, guess: Option<string>, result: CoinFlip.Side) returns (reply: FlipReply)
      requires Valid()
      modifies this`coinFlipStats
      ensures Valid()
      ensures !Given(guess) ==> reply == FlipTossed(result)
      ensures Given(guess) && CoinFlip.ParseCall(guess.value).None? ==> reply == FlipInvalid
      ensures Given(guess) && CoinFlip.ParseCall(guess.value).Some? ==>
                var c := CoinFlip.ParseCall(guess.value).value;
                reply == FlipCalled(c, result, CoinFlip.Wins(c, result))
      ensures reply.FlipCalled? ==> coinFlipStats == CoinFlip.RecordFlip(old(coinFlipStats), user, reply.win)
      ensures !reply.FlipCalled? ==> coinFlipStats == old(coinFlipStats)
    {
      if !Given(guess) {
        return FlipTossed(result);
      }
      var parsed := CoinFlip.ParseCall(guess.value);
      if parsed.None? {
        return FlipInvalid;
      }
      var win := CoinFlip.Wins(parsed.value, result);
      CoinFlip.RecordFlipKeepsPlayed(coinFlipStats, user, win);
      coinFlipStats := CoinFlip.RecordFlip(coinFlipStats, user, win);
      reply := FlipCalled(parsed.value, result, win);
    }
  }
}
