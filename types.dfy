/**
 * The score sheet's vocabulary (src/components/types.ts): suits, ranks, the
 * `suit-rank` card key, one player's record of a round and the 2 × 3 game.
 */
module Types {
  import opened Wrappers
  import opened Strings

  datatype Suit = Yellow | Blue | White | Green | Red | Purple

  /** `suits`, in declaration order. */
  const Suits: seq<Suit> := [Yellow, Blue, White, Green, Red, Purple]

  /** An expedition card's value. */
  type Rank = r: int | 2 <= r <= 10 witness 2

  /** `ranks` as text, in declaration order. */
  const RankNames: seq<string> := ["2", "3", "4", "5", "6", "7", "8", "9", "10"]

  /** The values of `ranks`, ascending. */
  const Ranks: seq<Rank> := [2, 3, 4, 5, 6, 7, 8, 9, 10]

  /** An `ExpeditionCard`, kept as the pair that its key spells out. */
  datatype Card = Card(suit: Suit, rank: Rank)

  /** Played cards of one round: present and truthy means played. */
  type Expeditions = map<Card, bool>

  /** Wager multipliers of one round: an absent suit has multiplier 1. */
  type Wagers = map<Suit, int>

  /** `GameRoundState`. */
  datatype GameRoundState = GameRoundState(expeditions: Expeditions, wagers: Wagers)

  /** Exactly one record per round: a tuple of three. */
  type Rounds3 = s: seq<GameRoundState> | |s| == 3
    witness [GameRoundState(map[], map[]), GameRoundState(map[], map[]), GameRoundState(map[], map[])]

  /** `GameState`: three rounds for each of the two players. */
  datatype GameState = GameState(player1: Rounds3, player2: Rounds3)

  /** A round with nothing recorded. */
  const EmptyRound := GameRoundState(map[], map[])

  lemma SuitsComplete()
    ensures |Suits| == 6
    ensures forall i, j :: 0 <= i < j < |Suits| ==> Suits[i] != Suits[j]
    ensures forall s: Suit :: s in Suits
  {
    forall s: Suit ensures s in Suits {
      match s
      case Yellow => assert Suits[0] == s;
      case Blue => assert Suits[1] == s;
      case White => assert Suits[2] == s;
      case Green => assert Suits[3] == s;
      case Red => assert Suits[4] == s;
      case Purple => assert Suits[5] == s;
    }
  }

  lemma RanksAscending()
    ensures |Ranks| == 9
    ensures forall i :: 0 <= i < |Ranks| ==> Ranks[i] == i + 2
    ensures forall r: Rank :: r in Ranks
  {
  }

  function SuitName(s: Suit): (name: string)
    ensures '-' !in name
  {
    match s
    case Yellow => "yellow"
    case Blue => "blue"
    case White => "white"
    case Green => "green"
    case Red => "red"
    case Purple => "purple"
  }

  function SuitOfName(name: string): (s: Option<Suit>)
    ensures s.Some? ==> SuitName(s.value) == name
    ensures forall t :: name == SuitName(t) ==> s == Some(t)
  {
    if name == "yellow" then Some(Yellow)
    else if name == "blue" then Some(Blue)
    else if name == "white" then Some(White)
    else if name == "green" then Some(Green)
    else if name == "red" then Some(Red)
    else if name == "purple" then Some(Purple)
    else None
  }

  lemma SuitNameInjective(a: Suit, b: Suit)
    ensures SuitName(a) == SuitName(b) ==> a == b
  {
  }

  /** A rank's text form, one of `ranks`. */
  function RankText(r: Rank): (t: string)
    ensures t in RankNames && '-' !in t
  {
    RankNames[r - 2]
  }

  /** `Number.parseInt(t, 10)` restricted to the texts "2".."10". */
  function ParseRank(t: string): (r: Rank)
    requires t in RankNames
    ensures RankText(r) == t
  {
    if t == "10" then 10 else t[0] as int - '0' as int
  }

  lemma {:induction false} ParseRankText(r: Rank)
    ensures ParseRank(RankText(r)) == r
  {
    var t := RankText(r);
    assert RankText(ParseRank(t)) == t;
    assert forall i, j :: 0 <= i < j < |RankNames| ==> RankNames[i] != RankNames[j];
  }

  /** The key `${suit}-${rank}` under which a card is stored. */
  function CardKey(c: Card): (key: string)
    ensures Split(key, '-') == [SuitName(c.suit), RankText(c.rank)]
  {
    SplitPair(SuitName(c.suit), RankText(c.rank), '-');
    SuitName(c.suit) + "-" + RankText(c.rank)
  }

  /** Reads a card key back; anything that is not exactly `suit-rank` is refused. */
  function ParseCardKey(key: string): (c: Option<Card>)
    ensures c.Some? ==> CardKey(c.value) == key
  {
    var parts := Split(key, '-');
    if |parts| == 2 && SuitOfName(parts[0]).Some? && parts[1] in RankNames then
      JoinSplit(key, '-');
      Some(Card(SuitOfName(parts[0]).value, ParseRank(parts[1])))
    else None
  }

  lemma {:induction false} CardKeyRoundTrip(c: Card)
    ensures ParseCardKey(CardKey(c)) == Some(c)
  {
    ParseRankText(c.rank);
  }

  lemma CardKeyInjective(c1: Card, c2: Card)
    ensures CardKey(c1) == CardKey(c2) ==> c1 == c2
  {
    CardKeyRoundTrip(c1);
    CardKeyRoundTrip(c2);
  }

  /** The value stored for `c` is truthy. */
  predicate IsPlayed(e: Expeditions, c: Card)
  {
    c in e && e[c]
  }

  /** Every stored expedition value is `true`. */
  predicate OnlyTrue(e: Expeditions)
  {
    forall c :: c in e ==> e[c]
  }

  /** A stored wager is `2 | 3 | 4`. */
  predicate IsWager(v: int)
  {
    v == 2 || v == 3 || v == 4
  }

  predicate ValidWagers(w: Wagers)
  {
    forall s :: s in w ==> IsWager(w[s])
  }

  /** The shape `GameRoundState`'s type promises. */
  predicate WellFormedRound(state: GameRoundState)
  {
    OnlyTrue(state.expeditions) && ValidWagers(state.wagers)
  }
}
