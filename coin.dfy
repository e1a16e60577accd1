/** Coin flip (`.flip`): the guess check with its aliases, the win rule and
    the per-user win/loss counters. */
module CoinFlip {
  import opened Types
  import Text

  /** The two sides the coin can land on. */
  datatype Side = Angka | Gambar

  /** The four accepted guesses: `angka`, `gambar` and their aliases
      `head` and `tail`. */
  datatype Call = CallAngka | CallGambar | CallHead | CallTail

  function CallName(c: Call): string
  {
    match c
    case CallAngka => "angka"
    case CallGambar => "gambar"
    case CallHead => "head"
    case CallTail => "tail"
  }

  /** Validates a guess after lower-casing it: exactly the four names pass. */
  function ParseCall(s: string): (r: Option<Call>)
    ensures forall c :: r == Some(c) <==> CallName(c) == Text.Lower(s)
  {
    var l := Text.Lower(s);
    if l == "angka" then Some(CallAngka)
    else if l == "gambar" then Some(CallGambar)
    else if l == "head" then Some(CallHead)
    else if l == "tail" then Some(CallTail)
    else None
  }

  /** A guess's own name is accepted as that guess: `ParseCall` inverts
      `CallName`. */
  lemma ParseCallName(c: Call)
    ensures ParseCall(CallName(c)) == Some(c)
  {
    Text.LowerAnyCase(CallName(c), CallName(c));
  }

  /** Any capitalisation of a guess's name is accepted as that guess. */
  lemma ParseCallAnyCase(c: Call, s: string)
    requires Text.SpellsAnyCase(s, CallName(c))
    ensures ParseCall(s) == Some(c)
  {
    Text.LowerAnyCase(s, CallName(c));
  }

  /** The side a guess names once the alias is resolved. */
  function Means(c: Call): Side
  {
    match c
    case CallAngka => Angka
    case CallHead => Angka
    case CallGambar => Gambar
    case CallTail => Gambar
  }

  /** The win rule: a guess wins iff it names, directly or by alias, the side
      the coin landed on. */
  function Wins(c: Call, result: Side): (win: bool)
    ensures win <==> Means(c) == result
  {
    (c == CallAngka && result == Angka)
    || (c == CallGambar && result == Gambar)
    || (c == CallHead && result == Angka)
    || (c == CallTail && result == Gambar)
  }

  /** Whatever the coin shows, each side has exactly one winning guess among
      `angka`/`gambar` and one among `head`/`tail`. */
  lemma OneWinnerPerSpelling(result: Side)
    ensures Wins(CallAngka, result) != Wins(CallGambar, result)
    ensures Wins(CallHead, result) != Wins(CallTail, result)
    ensures Wins(CallAngka, result) == Wins(CallHead, result)
  {
  }

  /** One user's counters (`{"wins", "losses"}`). */
  datatype Record = Record(wins: nat, losses: nat)

  const Fresh := Record(0, 0)

  function Total(r: Record): nat
  {
    r.wins + r.losses
  }

  function Prior(stats: map<UserId, Record>, user: UserId): Record
  {
    if user in stats then stats[user] else Fresh
  }

  /** The counter the result selects goes up by one. */
  function Tally(r: Record, win: bool): (r': Record)
    ensures r'.wins == r.wins + (if win then 1 else 0)
    ensures r'.losses == r.losses + (if win then 0 else 1)
    ensures Total(r') == Total(r) + 1
  {
    if win then r.(wins := r.wins + 1) else r.(losses := r.losses + 1)
  }

  /** `coin_flip_stats` after one guessed flip: the user is created at zero if
      unseen, exactly one of their wins/losses goes up by one, matching the
      result, and every other user keeps their record. */
  function RecordFlip(stats: map<UserId, Record>, user: UserId, win: bool): (s': map<UserId, Record>)
    ensures s'.Keys == stats.Keys + {user}
    ensures s'[user] == Tally(Prior(stats, user), win)
    ensures forall u | u in stats && u != user :: s'[u] == stats[u]
  {
    stats[user := Tally(Prior(stats, user), win)]
  }

  /** Every user in the table has at least one flip recorded. */
  predicate AllPlayed(stats: map<UserId, Record>)
  {
    forall u | u in stats :: Total(stats[u]) >= 1
  }

  /** Recording a flip keeps every user's total positive, the new user's
      included. */
  lemma RecordFlipKeepsPlayed(stats: map<UserId, Record>, user: UserId, win: bool)
    requires AllPlayed(stats)
    ensures AllPlayed(RecordFlip(stats, user, win))
  {
    var s' := RecordFlip(stats, user, win);
    forall u | u in s'
      ensures Total(s'[u]) >= 1
    {
      if u != user {
        assert u in stats;
      }
    }
  }
}
