/**
 * The game aggregator (src/stores/gameState.ts): the 2 × 3 matrix of round
 * records, lookup by (round, player), the update of the selected slot, the
 * cards the other player has already claimed, and reset.
 */
module GameStore {
  import opened Types
  import opened PlayerStore
  import opened RoundStore

  /** `INITIAL_STATE`: all six slots blank. */
  const InitialState: GameState :=
    GameState([EmptyRound, EmptyRound, EmptyRound], [EmptyRound, EmptyRound, EmptyRound])

  /** `getRoundIndex`: a position in the three-slot tuple. */
  function RoundIndex(r: RoundState): (i: nat)
    ensures i < 3
  {
    if r == Round1 then 0 else if r == Round2 then 1 else 2
  }

  /** Each of the three slots belongs to exactly one round. */
  lemma RoundIndexBijective()
    ensures forall a, b :: RoundIndex(a) == RoundIndex(b) ==> a == b
    ensures RoundIndex(Round1) == 0 && RoundIndex(Round2) == 1 && RoundIndex(Round3) == 2
  {
  }

  /** The opponent of `p` (`otherPlayer`). */
  function Other(p: PlayerState): (q: PlayerState)
    ensures q != p
  {
    if p == Player1 then Player2 else Player1
  }

  /** Taking the opponent twice gives back the player. */
  lemma OtherInvolution(p: PlayerState)
    ensures Other(Other(p)) == p
  {
  }

  /** The tuple a player key selects (`state.player1` or `state.player2`). */
  function PlayerRounds(g: GameState, p: PlayerState): (rounds: Rounds3)
    ensures p == Player1 ==> rounds == g.player1
    ensures p == Player2 ==> rounds == g.player2
  {
    if p == Player1 then g.player1 else g.player2
  }

  /** `getCardsForPlayer`. */
  function CardsForPlayer(g: GameState, r: RoundState, p: PlayerState): (rs: GameRoundState)
    ensures rs == PlayerRounds(g, p)[RoundIndex(r)]
  {
    var index := RoundIndex(r);
    if p == Player1 then g.player1[index] else g.player2[index]
  }

  /** The `produce` step of `handleChange`: slot (p, r) becomes `x`. */
  function WithSlot(g: GameState, p: PlayerState, r: RoundState, x: GameRoundState): (g': GameState)
    ensures CardsForPlayer(g', r, p) == x
    ensures forall p', r' :: (p', r') != (p, r) ==> CardsForPlayer(g', r', p') == CardsForPlayer(g, r', p')
    ensures PlayerRounds(g', Other(p)) == PlayerRounds(g, Other(p))
  {
    var index := RoundIndex(r);
    RoundIndexBijective();
    if p == Player1 then g.(player1 := g.player1[index := x])
    else g.(player2 := g.player2[index := x])
  }

  /** Writing back the slot that is already there changes nothing. */
  lemma {:induction false} WithSlotSame(g: GameState, p: PlayerState, r: RoundState)
    ensures WithSlot(g, p, r, CardsForPlayer(g, r, p)) == g
  {
    var g' := WithSlot(g, p, r, CardsForPlayer(g, r, p));
    forall i | 0 <= i < 3
      ensures g'.player1[i] == g.player1[i] && g'.player2[i] == g.player2[i]
    {
      var r' := if i == 0 then Round1 else if i == 1 then Round2 else Round3;
      assert RoundIndex(r') == i;
      assert CardsForPlayer(g', r', Player1) == CardsForPlayer(g, r', Player1);
      assert CardsForPlayer(g', r', Player2) == CardsForPlayer(g, r', Player2);
    }
    assert g'.player1 == g.player1;
    assert g'.player2 == g.player2;
  }

  /** Every slot is in the shape `GameRoundState` promises. */
  predicate WellFormedGame(g: GameState)
  {
    forall p, r :: WellFormedRound(CardsForPlayer(g, r, p))
  }

  /** A blank game is well formed. */
  lemma InitialStateBlank()
    ensures forall p, r :: CardsForPlayer(InitialState, r, p) == EmptyRound
    ensures WellFormedGame(InitialState)
  {
  }

  /** Writing a well-formed record into a well-formed game keeps it well formed. */
  lemma WithSlotKeepsWellFormed(g: GameState, p: PlayerState, r: RoundState, x: GameRoundState)
    requires WellFormedGame(g) && WellFormedRound(x)
    ensures WellFormedGame(WithSlot(g, p, r, x))
  {
    var g' := WithSlot(g, p, r, x);
    forall p', r' ensures WellFormedRound(CardsForPlayer(g', r', p')) {
      if (p', r') != (p, r) {
        assert CardsForPlayer(g', r', p') == CardsForPlayer(g, r', p');
      }
    }
  }

  /** The keys of `e` whose value is truthy. */
  function TruthyKeys(e: Expeditions): (keys: set<Card>)
    ensures forall c :: c in keys <==> IsPlayed(e, c)
  {
    set c | c in e && e[c]
  }

  /** `getDisabledCards` for selector values `current` and `r`. */
  function DisabledCards(g: GameState, current: PlayerState, r: RoundState): (d: set<Card>)
    ensures forall c :: c in d <==> IsPlayed(CardsForPlayer(g, r, Other(current)).expeditions, c)
  {
    var otherPlayer := Other(current);
    TruthyKeys(CardsForPlayer(g, r, otherPlayer).expeditions)
  }

  /** What the current player records, in any of their rounds, never disables a card. */
  lemma DisabledCardsIgnoreOwnSlots(g: GameState, current: PlayerState, r: RoundState, r': RoundState, x: GameRoundState)
    ensures DisabledCards(WithSlot(g, current, r', x), current, r) == DisabledCards(g, current, r)
  {
    var g' := WithSlot(g, current, r', x);
    assert CardsForPlayer(g', r, Other(current)) == CardsForPlayer(g, r, Other(current));
  }

  /** A card recorded by one player is disabled for the other in the same round, and only then. */
  lemma DisabledCardsSymmetric(g: GameState, p: PlayerState, r: RoundState, c: Card)
    ensures c in DisabledCards(g, Other(p), r) <==> IsPlayed(CardsForPlayer(g, r, p).expeditions, c)
  {
  }

  /** Keys stored with a falsy value are not disabled: the other player's blue 5 and 6 are stored but unset. */
  lemma FalsyEntriesNotDisabled()
    ensures var slot := GameRoundState(map[Card(Blue, 5) := false, Card(Blue, 6) := false], map[]);
            DisabledCards(WithSlot(InitialState, Player1, Round3, slot), Player2, Round3) == {}
  {
    var slot := GameRoundState(map[Card(Blue, 5) := false, Card(Blue, 6) := false], map[]);
    var d := DisabledCards(WithSlot(InitialState, Player1, Round3, slot), Player2, Round3);
    assert forall c :: c !in d;
  }

  /** The other player's two played yellow cards are exactly the disabled ones. */
  lemma PlayedEntriesDisabled()
    ensures var slot := GameRoundState(map[Card(Yellow, 2) := true, Card(Yellow, 4) := true], map[]);
            DisabledCards(WithSlot(InitialState, Player2, Round1, slot), Player1, Round1) == {Card(Yellow, 2), Card(Yellow, 4)}
  {
  }

  /** The `gameState` atom, coupled to the two selector atoms it reads. */
  class GameAtom {
    var game: GameState
    const players: PlayerAtom
    const rounds: RoundAtom

    constructor (players: PlayerAtom, rounds: RoundAtom)
      ensures game == InitialState && WellFormedGame(game)
      ensures this.players == players && this.rounds == rounds
    {
      game := InitialState;
      this.players := players;
      this.rounds := rounds;
    }

    /** `getCurrentRound(state)`: the slot of `state` the selectors point at. */
    function CurrentRound(state: GameState): (rs: GameRoundState)
      reads players, rounds
      ensures rs == PlayerRounds(state, players.value)[RoundIndex(rounds.value)]
    {
      CardsForPlayer(state, rounds.value, players.value)
    }

    /** `getDisabledCards(state)`. */
    function GetDisabledCards(state: GameState): (d: set<Card>)
      reads players, rounds
      ensures forall c :: c in d <==> IsPlayed(CardsForPlayer(state, rounds.value, Other(players.value)).expeditions, c)
    {
      DisabledCards(state, players.value, rounds.value)
    }

    /** `handleChange`: only the selected slot is replaced, by `update` of itself. */
    method HandleChange(update: GameRoundState -> GameRoundState)
      modifies this
      ensures game == WithSlot(old(game), players.value, rounds.value, update(old(CurrentRound(game))))
      ensures CurrentRound(game) == update(old(CurrentRound(game)))
      ensures forall p, r :: (p, r) != (players.value, rounds.value) ==>
        CardsForPlayer(game, r, p) == CardsForPlayer(old(game), r, p)
    {
      var prev := game;
      var player := players.value;
      var round := rounds.value;
      game := WithSlot(prev, player, round, update(CardsForPlayer(prev, round, player)));
    }

    /** `resetGame`. */
    method ResetGame()
      modifies this
      ensures game == InitialState && WellFormedGame(game)
      ensures forall p, r :: CardsForPlayer(game, r, p) == EmptyRound
    {
      game := InitialState;
    }
  }
}
