/** Rock-paper-scissors (`.suit`): the choice check, the outcome rule and the
    per-user win/loss/draw counters. */
module Suit {
  import opened Types
  import Text

  datatype Hand = Batu | Gunting | Kertas

  /** The outcome from the player's side. */
  datatype Outcome = Draw | Win | Loss

  /** The spelling the player types for each hand. */
  function Name(h: Hand): string
  {
    match h
    case Batu => "batu"
    case Gunting => "gunting"
    case Kertas => "kertas"
  }

  /** The bot's choices; its draw is one of these. */
  const Choices: seq<Hand> := [Batu, Gunting, Kertas]

  /** Validates a choice after lower-casing it: exactly the three names pass. */
  function ParseHand(s: string): (r: Option<Hand>)
    ensures forall h :: r == Some(h) <==> Name(h) == Text.Lower(s)
  {
    var l := Text.Lower(s);
    if l == "batu" then Some(Batu)
    else if l == "gunting" then Some(Gunting)
    else if l == "kertas" then Some(Kertas)
    else None
  }

  /** A hand's own name is accepted as that hand: `ParseHand` inverts `Name`. */
  lemma ParseName(h: Hand)
    ensures ParseHand(Name(h)) == Some(h)
  {
    Text.LowerAnyCase(Name(h), Name(h));
  }

  /** Any capitalisation of a hand's name is accepted as that hand. */
  lemma ParseAnyCase(h: Hand, s: string)
    requires Text.SpellsAnyCase(s, Name(h))
    ensures ParseHand(s) == Some(h)
  {
    Text.LowerAnyCase(s, Name(h));
  }

  /** Position of a hand on the cycle batu -> gunting -> kertas -> batu. */
  function Index(h: Hand): nat
  {
    match h
    case Batu => 0
    case Gunting => 1
    case Kertas => 2
  }

  /** Cyclic dominance: each hand beats the one after it on the cycle. */
  predicate Beats(h: Hand, g: Hand)
  {
    Index(g) == (Index(h) + 1) % 3
  }

  /** The outcome rule of the game, stated against the cyclic relation. */
  function Judge(player: Hand, bot: Hand): (o: Outcome)
    ensures o == Draw <==> player == bot
    ensures o == Win <==> Beats(player, bot)
    ensures o == Loss <==> Beats(bot, player)
  {
    if player == bot then Draw
    else if (player == Batu && bot == Gunting)
         || (player == Gunting && bot == Kertas)
         || (player == Kertas && bot == Batu) then Win
    else Loss
  }

  /** Swapping the two sides turns a win into a loss and keeps a draw. */
  lemma JudgeSwap(p: Hand, b: Hand)
    ensures Judge(p, b) == Win <==> Judge(b, p) == Loss
    ensures Judge(p, b) == Draw <==> Judge(b, p) == Draw
  {
  }

  /** Against the bot's three choices every hand wins once, loses once and
      draws once. */
  lemma Fair(p: Hand)
    ensures multiset{Judge(p, Choices[0]), Judge(p, Choices[1]), Judge(p, Choices[2])}
            == multiset{Draw, Win, Loss}
  {
  }

  /** One user's counters (`{"wins", "losses", "draws"}`). */
  datatype Record = Record(wins: nat, losses: nat, draws: nat)

  /** The record a new user starts from. */
  const Fresh := Record(0, 0, 0)

  function Total(r: Record): nat
  {
    r.wins + r.losses + r.draws
  }

  /** The record a user has before a play: theirs, or the all-zero one. */
  function Prior(stats: map<UserId, Record>, user: UserId): Record
  {
    if user in stats then stats[user] else Fresh
  }

  /** The counter the outcome selects goes up by one. */
  function Bump(r: Record, o: Outcome): (r': Record)
    ensures Total(r') == Total(r) + 1
    ensures r'.wins == r.wins + (if o == Win then 1 else 0)
    ensures r'.losses == r.losses + (if o == Loss then 1 else 0)
    ensures r'.draws == r.draws + (if o == Draw then 1 else 0)
  {
    match o
    case Win => r.(wins := r.wins + 1)
    case Loss => r.(losses := r.losses + 1)
    case Draw => r.(draws := r.draws + 1)
  }

  /** `rps_stats` after one valid play: the user is created at zero if unseen,
      exactly one counter moves, every other user keeps their record. */
  function RecordPlay(stats: map<UserId, Record>, user: UserId, o: Outcome): (s': map<UserId, Record>)
    ensures s'.Keys == stats.Keys + {user}
    ensures s'[user] == Bump(Prior(stats, user), o)
    ensures forall u | u in stats && u != user :: s'[u] == stats[u]
  {
    stats[user := Bump(Prior(stats, user), o)]
  }

  /** Every user in the table has at least one play recorded. */
  predicate AllPlayed(stats: map<UserId, Record>)
  {
    forall u | u in stats :: Total(stats[u]) >= 1
  }

  /** Recording a play keeps every user's total positive, the new user's
      included. */
  lemma RecordPlayKeepsPlayed(stats: map<UserId, Record>, user: UserId, o: Outcome)
    requires AllPlayed(stats)
    ensures AllPlayed(RecordPlay(stats, user, o))
  {
    var s' := RecordPlay(stats, user, o);
    forall u | u in s'
      ensures Total(s'[u]) >= 1
    {
      if u != user {
        assert u in stats;
      }
    }
  }

  /** One valid play, as a history entry. */
  datatype Play = Play(user: UserId, outcome: Outcome)

  /** The counters after a history of plays, applied oldest first. */
  function Replay(stats: map<UserId, Record>, plays: seq<Play>): map<UserId, Record>
    decreases |plays|
  {
    if plays == [] then stats
    else Replay(RecordPlay(stats, plays[0].user, plays[0].outcome), plays[1..])
  }

  /** How many plays of `user` in the history ended with `o`. */
  function Count(plays: seq<Play>, user: UserId, o: Outcome): nat
  {
    if plays == [] then 0
    else (if plays[0] == Play(user, o) then 1 else 0) + Count(plays[1..], user, o)
  }

  /** Whether `user` played at all in the history. */
  predicate Played(plays: seq<Play>, user: UserId)
    decreases |plays|
  {
    plays != [] && (plays[0].user == user || Played(plays[1..], user))
  }

  /** A user has an entry after a history iff they had one before or played. */
  lemma {:induction false} ReplayKeys(stats: map<UserId, Record>, plays: seq<Play>, user: UserId)
    ensures user in Replay(stats, plays) <==> user in stats || Played(plays, user)
    decreases |plays|
  {
    if plays != [] {
      ReplayKeys(RecordPlay(stats, plays[0].user, plays[0].outcome), plays[1..], user);
    }
  }

  /** The counter of a record that an outcome selects. */
  function Counter(r: Record, o: Outcome): nat
  {
    match o
    case Win => r.wins
    case Loss => r.losses
    case Draw => r.draws
  }

  /** Bumping moves the selected counter iff the outcomes agree. */
  lemma CounterBump(r: Record, played: Outcome, o: Outcome)
    ensures Counter(Bump(r, played), o) == Counter(r, o) + (if played == o then 1 else 0)
  {
  }

  /** One play moves the user's selected counter iff it is theirs with that
      outcome. */
  lemma CounterAfterPlay(stats: map<UserId, Record>, p: Play, user: UserId, o: Outcome)
    ensures Counter(Prior(RecordPlay(stats, p.user, p.outcome), user), o)
            == Counter(Prior(stats, user), o) + (if p == Play(user, o) then 1 else 0)
  {
    var next := RecordPlay(stats, p.user, p.outcome);
    var after := Prior(next, user);
    if p.user != user {
      assert after == Prior(stats, user);
    } else {
      assert after == Bump(Prior(stats, user), p.outcome) by {
        assert user in next;
      }
      CounterBump(Prior(stats, user), p.outcome, o);
    }
  }

  /** The counters count the plays: each of the user's wins, losses and
      draws grows by exactly the number of their plays with that outcome. */
  lemma {:induction false} ReplayCounts(stats: map<UserId, Record>, plays: seq<Play>, user: UserId, o: Outcome)
    ensures Counter(Prior(Replay(stats, plays), user), o) == Counter(Prior(stats, user), o) + Count(plays, user, o)
    decreases |plays|
  {
    if plays != [] {
      var next := RecordPlay(stats, plays[0].user, plays[0].outcome);
      CounterAfterPlay(stats, plays[0], user, o);
      ReplayCounts(next, plays[1..], user, o);
    }
  }
}
