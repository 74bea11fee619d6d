/**
 * One suit's column (src/components/ColumnCalculator.tsx): the wager cycle,
 * the card toggle, `getCardsInSuit`, and the score the column displays.
 */
module ColumnCalculator {
  import opened Types
  import opened Strings
  import opened App
  import opened GameStore
  import opened PlayerStore
  import opened RoundStore

  /** `wagers[suit] ?? 1`. */
  function WagerOrDefault(w: Wagers, s: Suit): (m: int)
    ensures m == Multiplier(w, s) || (s in w && w[s] == 0 && m == 0)
    ensures ValidWagers(w) ==> m == Multiplier(w, s)
    ensures s !in w ==> m == 1
    ensures s in w && w[s] == 0 ==> m == 0
  {
    if s in w then w[s] else 1
  }

  /** A stored 0 is the one wager on which `?? 1` and `|| 1` disagree. */
  lemma DefaultsDisagreeOnZero(w: Wagers, s: Suit)
    ensures WagerOrDefault(w, s) != Multiplier(w, s) <==> s in w && w[s] == 0
  {
  }

  /** `updateWager(suit)(state)`: one step of 1 → 2 → 3 → 4 → removed. */
  function UpdateWager(s: Suit, state: GameRoundState): (r: GameRoundState)
    ensures r.expeditions == state.expeditions
    ensures r.wagers - {s} == state.wagers - {s}
    ensures s in r.wagers <==> WagerOrDefault(state.wagers, s) < 4
    ensures s in r.wagers ==> r.wagers[s] == WagerOrDefault(state.wagers, s) + 1
  {
    var wager := WagerOrDefault(state.wagers, s);
    if wager < 4 then state.(wagers := state.wagers[s := wager + 1])
    else state.(wagers := state.wagers - {s})
  }

  /** On a well-formed round the multiplier steps 1 → 2 → 3 → 4 → 1 and stays in {2, 3, 4} when stored. */
  lemma UpdateWagerSteps(s: Suit, state: GameRoundState)
    requires ValidWagers(state.wagers)
    ensures ValidWagers(UpdateWager(s, state).wagers)
    ensures Multiplier(UpdateWager(s, state).wagers, s) == if Multiplier(state.wagers, s) == 4 then 1 else Multiplier(state.wagers, s) + 1
    ensures forall t :: t != s ==> Multiplier(UpdateWager(s, state).wagers, t) == Multiplier(state.wagers, t)
  {
    var r := UpdateWager(s, state);
    forall t | t != s ensures Multiplier(r.wagers, t) == Multiplier(state.wagers, t) {
      assert t in r.wagers <==> t in r.wagers - {s};
      assert t in state.wagers <==> t in state.wagers - {s};
      if t in r.wagers {
        assert r.wagers[t] == (r.wagers - {s})[t];
        assert state.wagers[t] == (state.wagers - {s})[t];
      }
    }
  }

  /** From no wager, presses give 2, 3, 4 and then no wager again. */
  lemma UpdateWagerFromAbsent(s: Suit, state: GameRoundState)
    requires s !in state.wagers
    ensures var one := UpdateWager(s, state);
            var two := UpdateWager(s, one);
            var three := UpdateWager(s, two);
            var four := UpdateWager(s, three);
            && s in one.wagers && one.wagers[s] == 2
            && s in two.wagers && two.wagers[s] == 3
            && s in three.wagers && three.wagers[s] == 4
            && s !in four.wagers
  {
  }

  /** Four presses of a wager button give back the round exactly. */
  lemma UpdateWagerFourTimes(s: Suit, state: GameRoundState)
    requires ValidWagers(state.wagers)
    ensures UpdateWager(s, UpdateWager(s, UpdateWager(s, UpdateWager(s, state)))) == state
  {
    var four := UpdateWager(s, UpdateWager(s, UpdateWager(s, UpdateWager(s, state))));
    assert four.wagers - {s} == state.wagers - {s};
    assert s in four.wagers <==> s in state.wagers;
    assert s in state.wagers ==> four.wagers[s] == state.wagers[s];
    assert forall t :: t in four.wagers <==> t in state.wagers - {s} || (t == s && s in state.wagers);
    assert forall t :: t in four.wagers && t != s ==> four.wagers[t] == (four.wagers - {s})[t];
    assert four.wagers == state.wagers;
  }

  /** `toggleExpeditionCard(key)(state)`: a played card is removed, any other becomes `true`. */
  function ToggleExpeditionCard(key: Card, state: GameRoundState): (r: GameRoundState)
    ensures r.wagers == state.wagers
    ensures r.expeditions - {key} == state.expeditions - {key}
    ensures IsPlayed(r.expeditions, key) <==> !IsPlayed(state.expeditions, key)
    ensures key in r.expeditions <==> IsPlayed(r.expeditions, key)
  {
    var next := state.expeditions;
    if IsPlayed(next, key) then state.(expeditions := next - {key})
    else state.(expeditions := next[key := true])
  }

  /** Toggling twice restores the round, unless the key was stored with a falsy value. */
  lemma ToggleTwice(key: Card, state: GameRoundState)
    requires key in state.expeditions ==> state.expeditions[key]
    ensures ToggleExpeditionCard(key, ToggleExpeditionCard(key, state)) == state
  {
    var twice := ToggleExpeditionCard(key, ToggleExpeditionCard(key, state));
    assert twice.expeditions - {key} == state.expeditions - {key};
    assert key in twice.expeditions <==> key in state.expeditions;
    assert forall c :: c in twice.expeditions && c != key ==> twice.expeditions[c] == (twice.expeditions - {key})[c];
    assert forall c :: c in state.expeditions && c != key ==> state.expeditions[c] == (state.expeditions - {key})[c];
    assert twice.expeditions == state.expeditions;
  }

  /** Both updaters keep a round in the shape `GameRoundState` promises. */
  lemma UpdatersKeepWellFormed(s: Suit, key: Card, state: GameRoundState)
    requires WellFormedRound(state)
    ensures WellFormedRound(UpdateWager(s, state))
    ensures WellFormedRound(ToggleExpeditionCard(key, state))
  {
    UpdateWagerSteps(s, state);
    var t := ToggleExpeditionCard(key, state);
    forall c | c in t.expeditions ensures t.expeditions[c] {
      if c != key {
        assert t.expeditions[c] == (t.expeditions - {key})[c] == state.expeditions[c];
      }
    }
  }

  /** An entry `{ suit, value }` of `getCardsInSuit`: the key's two parts, the second parsed. */
  datatype ParsedCard = ParsedCard(suit: string, value: int)

  /**
   * `getCardsInSuit(expeditions, suit)`, where `keys` is `Object.keys(expeditions)`:
   * each key is split at "-", its rank parsed, and only those of `suit` kept.
   */
  function CardsInSuit(keys: seq<Card>, s: Suit): (cards: seq<ParsedCard>)
    ensures |cards| <= |keys|
    ensures forall i :: 0 <= i < |cards| ==> cards[i].suit == SuitName(s) && 2 <= cards[i].value <= 10
    ensures forall r: Rank :: ParsedCard(SuitName(s), r) in cards <==> Card(s, r) in keys
  {
    if keys == [] then []
    else
      var k := keys[0];
      var parts := Split(CardKey(k), '-');
      ParseRankText(k.rank);
      SuitNameInjective(k.suit, s);
      var card := ParsedCard(parts[0], ParseRank(parts[1]));
      assert card == ParsedCard(SuitName(k.suit), k.rank);
      (if card.suit == SuitName(s) then [card] else []) + CardsInSuit(keys[1..], s)
  }

  lemma CardsInSuitStep(keys: seq<Card>, s: Suit)
    requires keys != []
    ensures CardsInSuit(keys, s) ==
      (if keys[0].suit == s then [ParsedCard(SuitName(s), keys[0].rank)] else []) + CardsInSuit(keys[1..], s)
  {
    ParseRankText(keys[0].rank);
    SuitNameInjective(keys[0].suit, s);
  }

  /** `reduce((total, card) => total + card.value, 0)`. */
  function SumValues(cards: seq<ParsedCard>): (total: int)
    ensures (forall i :: 0 <= i < |cards| ==> 2 <= cards[i].value <= 10) ==> 2 * |cards| <= total <= 10 * |cards|
  {
    if cards == [] then 0 else cards[0].value + SumValues(cards[1..])
  }

  /** What the column shows: `roi`, `x{wager}`, `+{bonus}` and the score. */
  datatype ColumnSummary = ColumnSummary(roi: int, wager: int, bonus: int, score: int)

  /** The column's own scoring of suit `s` (lines 65-79), reading `keys = Object.keys(expeditions)`. */
  function ColumnScore(state: GameRoundState, s: Suit, keys: seq<Card>): (c: ColumnSummary)
    ensures c.score == c.roi * c.wager + c.bonus
    ensures c.bonus == 0 || c.bonus == 20
  {
    var wager := WagerOrDefault(state.wagers, s);
    var cardsInSuit := CardsInSuit(keys, s);
    var sum := SumValues(cardsInSuit);
    var cardCount := |cardsInSuit| + (wager - 1);
    var roi := if cardCount == 0 then 0 else sum - 20;
    var bonus := if cardCount >= 8 then 20 else 0;
    ColumnSummary(roi, wager, bonus, roi * wager + bonus)
  }

  /** The column's summary from its three tallies: sum, cards and wager. */
  lemma ColumnScoreOf(state: GameRoundState, s: Suit, keys: seq<Card>, total: int, count: int, m: int)
    requires SumValues(CardsInSuit(keys, s)) == total && |CardsInSuit(keys, s)| == count
    requires WagerOrDefault(state.wagers, s) == m
    ensures var roi := if count + m - 1 == 0 then 0 else total - 20;
            var bonus := if count + m - 1 >= 8 then 20 else 0;
            ColumnScore(state, s, keys) == ColumnSummary(roi, m, bonus, roi * m + bonus)
  {
  }

  /** `keys` lists every key of `e` exactly once, as `Object.keys` does. */
  predicate Enumerates(keys: seq<Card>, e: Expeditions)
  {
    && (forall i, j :: 0 <= i < j < |keys| ==> keys[i] != keys[j])
    && (forall c :: c in keys ==> c in e)
    && (forall c :: c in e ==> c in keys)
  }

  // ---------------------------------------------------------------------
  // Agreement with `calculateRoundScore`

  /** The per-rank values of a set of cards, in the shape of `RankPoints`. */
  function PointsIn(cards: set<Card>, s: Suit, rs: seq<Rank>): (points: seq<int>)
    ensures |points| == |rs|
  {
    if rs == [] then []
    else [if Card(s, rs[0]) in cards then rs[0] else 0] + PointsIn(cards, s, rs[1..])
  }

  lemma {:induction false} RankPointsAsSet(e: Expeditions, cards: set<Card>, s: Suit, rs: seq<Rank>)
    requires forall c :: IsPlayed(e, c) <==> c in cards
    ensures RankPoints(e, s, rs) == PointsIn(cards, s, rs)
  {
    if rs != [] {
      RankPointsAsSet(e, cards, s, rs[1..]);
    }
  }

  lemma {:induction false} PointsInEmpty(s: Suit, rs: seq<Rank>)
    ensures Sum(PointsIn({}, s, rs)) == 0 && CountPositive(PointsIn({}, s, rs)) == 0
  {
    if rs != [] {
      PointsInEmpty(s, rs[1..]);
    }
  }

  /** Adding card `c` adds its value, once, in its own suit. */
  lemma {:induction false} PointsInAdd(cards: set<Card>, c: Card, s: Suit, rs: seq<Rank>)
    requires c !in cards
    requires forall i, j :: 0 <= i < j < |rs| ==> rs[i] != rs[j]
    ensures Sum(PointsIn(cards + {c}, s, rs))
      == Sum(PointsIn(cards, s, rs)) + (if c.suit == s && c.rank in rs then c.rank else 0)
    ensures CountPositive(PointsIn(cards + {c}, s, rs))
      == CountPositive(PointsIn(cards, s, rs)) + (if c.suit == s && c.rank in rs then 1 else 0)
  {
    if rs != [] {
      PointsInAdd(cards, c, s, rs[1..]);
      assert c.rank in rs <==> c.rank == rs[0] || c.rank in rs[1..];
      if c == Card(s, rs[0]) {
        assert rs[0] !in rs[1..];
      }
    }
  }

  function KeySet(keys: seq<Card>): set<Card>
  {
    set k | k in keys
  }

  /** The column's card count and sum are the round's count and sum for that suit. */
  lemma {:induction false} ColumnTallies(keys: seq<Card>, s: Suit)
    requires forall i, j :: 0 <= i < j < |keys| ==> keys[i] != keys[j]
    ensures |CardsInSuit(keys, s)| == CountPositive(PointsIn(KeySet(keys), s, Ranks))
    ensures SumValues(CardsInSuit(keys, s)) == Sum(PointsIn(KeySet(keys), s, Ranks))
  {
    if keys == [] {
      assert KeySet(keys) == {};
      PointsInEmpty(s, Ranks);
    } else {
      var k, rest := keys[0], keys[1..];
      assert KeySet(keys) == KeySet(rest) + {k};
      assert k !in KeySet(rest);
      ColumnTallies(rest, s);
      CardsInSuitStep(keys, s);
      RanksAscending();
      PointsInAdd(KeySet(rest), k, s, Ranks);
      var head := if k.suit == s then [ParsedCard(SuitName(s), k.rank)] else [];
      assert CardsInSuit(keys, s) == head + CardsInSuit(rest, s);
      if k.suit == s {
        assert (head + CardsInSuit(rest, s))[1..] == CardsInSuit(rest, s);
      } else {
        assert head + CardsInSuit(rest, s) == CardsInSuit(rest, s);
      }
    }
  }

  /**
   * With the round in the shape its type promises, the column shows exactly
   * the suit's term of `calculateRoundScore`, with the same multiplier.
   */
  lemma ColumnMatchesRound(state: GameRoundState, s: Suit, keys: seq<Card>)
    requires WellFormedRound(state) && Enumerates(keys, state.expeditions)
    ensures ColumnScore(state, s, keys).score == SuitScore(state, s)
    ensures ColumnScore(state, s, keys).wager == Multiplier(state.wagers, s)
  {
    var e := state.expeditions;
    assert forall c :: IsPlayed(e, c) <==> c in KeySet(keys);
    RankPointsAsSet(e, KeySet(keys), s, Ranks);
    ColumnTallies(keys, s);
    var total, count, m := PlayedTotal(e, s), PlayedCount(e, s), Multiplier(state.wagers, s);
    assert |CardsInSuit(keys, s)| == count && SumValues(CardsInSuit(keys, s)) == total;
    ColumnScoreOf(state, s, keys, total, count, m);
    SuitScoreOf(state, s, total, count, m);
  }

  /** In a game kept well formed, every column shows its suit's term of the round it displays. */
  lemma ColumnMatchesSlot(g: GameState, p: PlayerState, r: RoundState, s: Suit, keys: seq<Card>)
    requires WellFormedGame(g) && Enumerates(keys, CardsForPlayer(g, r, p).expeditions)
    ensures ColumnScore(CardsForPlayer(g, r, p), s, keys).score == SuitScore(CardsForPlayer(g, r, p), s)
  {
    ColumnMatchesRound(CardsForPlayer(g, r, p), s, keys);
  }

  /** A key stored with a falsy value is counted by the column but not by the round total. */
  lemma FalsyKeyDisagrees()
    ensures var state := GameRoundState(map[Card(Blue, 7) := false], map[]);
            && ColumnScore(state, Blue, [Card(Blue, 7)]).score == -13
            && SuitScore(state, Blue) == 0
  {
    var state := GameRoundState(map[Card(Blue, 7) := false], map[]);
    CardsInSuitStep([Card(Blue, 7)], Blue);
    assert CardsInSuit([Card(Blue, 7)], Blue) == [ParsedCard("blue", 7)];
    SuitScoreUntouched(state, Blue);
  }

  // ---------------------------------------------------------------------
  // The column's buttons

  /** The wager button: `handleChange(updateWager(suit))`. */
  method PressWager(atom: GameAtom, s: Suit)
    requires WellFormedGame(atom.game)
    modifies atom
    ensures atom.CurrentRound(atom.game) == UpdateWager(s, old(atom.CurrentRound(atom.game)))
    ensures forall p, r :: (p, r) != (atom.players.value, atom.rounds.value) ==>
      CardsForPlayer(atom.game, r, p) == CardsForPlayer(old(atom.game), r, p)
    ensures WellFormedGame(atom.game)
  {
    var current := atom.CurrentRound(atom.game);
    UpdatersKeepWellFormed(s, Card(s, 2), current);
    WithSlotKeepsWellFormed(atom.game, atom.players.value, atom.rounds.value, UpdateWager(s, current));
    atom.HandleChange(state => UpdateWager(s, state));
  }

  /** A card button: `handleChange(toggleExpeditionCard(key))`. */
  method PressCard(atom: GameAtom, key: Card)
    requires WellFormedGame(atom.game)
    modifies atom
    ensures atom.CurrentRound(atom.game) == ToggleExpeditionCard(key, old(atom.CurrentRound(atom.game)))
    ensures forall p, r :: (p, r) != (atom.players.value, atom.rounds.value) ==>
      CardsForPlayer(atom.game, r, p) == CardsForPlayer(old(atom.game), r, p)
    ensures WellFormedGame(atom.game)
  {
    var current := atom.CurrentRound(atom.game);
    UpdatersKeepWellFormed(key.suit, key, current);
    WithSlotKeepsWellFormed(atom.game, atom.players.value, atom.rounds.value, ToggleExpeditionCard(key, current));
    atom.HandleChange(state => ToggleExpeditionCard(key, state));
  }
}
