/**
 * Round scoring and the game totals (src/components/App.tsx).
 */
module App {
  import opened Types
  import opened PlayerStore
  import opened RoundStore
  import opened GameStore
  import opened RoundCalculator

  /** `ranks.map(...)`: each rank's value when that card of suit `s` is played, else 0. */
  function RankPoints(e: Expeditions, s: Suit, rs: seq<Rank>): (points: seq<int>)
    ensures |points| == |rs|
    ensures forall i :: 0 <= i < |rs| ==> points[i] == if IsPlayed(e, Card(s, rs[i])) then rs[i] else 0
  {
    if rs == [] then []
    else [if IsPlayed(e, Card(s, rs[0])) then rs[0] else 0] + RankPoints(e, s, rs[1..])
  }

  /** `reduce((sum, x) => sum + x, 0)`. */
  function Sum(xs: seq<int>): (total: int)
    ensures (forall i :: 0 <= i < |xs| ==> xs[i] >= 0) ==> total >= 0
  {
    if xs == [] then 0 else xs[0] + Sum(xs[1..])
  }

  /** `filter(i => i > 0).length`. */
  function CountPositive(xs: seq<int>): (count: nat)
    ensures count <= |xs|
    ensures count == 0 <==> forall i :: 0 <= i < |xs| ==> xs[i] <= 0
  {
    if xs == [] then 0 else (if xs[0] > 0 then 1 else 0) + CountPositive(xs[1..])
  }

  /** `state.wagers[suit] || 1`: an absent (or falsy) wager counts as 1. */
  function Multiplier(w: Wagers, s: Suit): (m: int)
    ensures m != 0
    ensures s in w && w[s] != 0 ==> m == w[s]
    ensures m == 1 || s in w
    ensures !(s in w && w[s] != 0) ==> m == 1
  {
    if s in w && w[s] != 0 then w[s] else 1
  }

  /** `expeditionTotal`. */
  function PlayedTotal(e: Expeditions, s: Suit): int
  {
    Sum(RankPoints(e, s, Ranks))
  }

  /** The number of played cards of suit `s`. */
  function PlayedCount(e: Expeditions, s: Suit): nat
  {
    CountPositive(RankPoints(e, s, Ranks))
  }

  /** One suit's term of `calculateRoundScore`; with wagers in {2, 3, 4} it lies in [-80, 156]. */
  function SuitScore(state: GameRoundState, s: Suit): (score: int)
    ensures ValidWagers(state.wagers) ==> -80 <= score <= 156
  {
    var parsed := RankPoints(state.expeditions, s, Ranks);
    var expeditionTotal := Sum(parsed);
    var wagerMultiplier := Multiplier(state.wagers, s);
    var cardCount := CountPositive(parsed) + (wagerMultiplier - 1);
    var roi := if cardCount == 0 then 0 else expeditionTotal - 20;
    var bonus := if cardCount >= 8 then 20 else 0;
    PlayedBounds(state.expeditions, s);
    TermBounds(roi, wagerMultiplier, bonus);
    roi * wagerMultiplier + bonus
  }

  /** A suit's term from its three tallies: points, cards and multiplier. */
  lemma SuitScoreOf(state: GameRoundState, s: Suit, total: int, count: int, m: int)
    requires PlayedTotal(state.expeditions, s) == total && PlayedCount(state.expeditions, s) == count
    requires Multiplier(state.wagers, s) == m
    ensures SuitScore(state, s) == (if count + m - 1 == 0 then 0 else total - 20) * m + (if count + m - 1 >= 8 then 20 else 0)
  {
  }

  /** `roi · m + bonus` for the ranges one suit can produce. */
  lemma TermBounds(roi: int, m: int, bonus: int)
    requires -20 <= roi <= 34 && (bonus == 0 || bonus == 20)
    ensures 1 <= m <= 4 ==> -80 <= roi * m + bonus <= 156
  {
    if m == 1 {
    } else if m == 2 {
    } else if m == 3 {
    } else if m == 4 {
    }
  }

  /** `calculateRoundScore`: the sum of the suit terms over `suitsToUse`. */
  function RoundScore(state: GameRoundState, suitsToUse: seq<Suit>): (total: int)
    ensures ValidWagers(state.wagers) ==> -80 * |suitsToUse| <= total <= 156 * |suitsToUse|
  {
    if suitsToUse == [] then 0
    else SuitScore(state, suitsToUse[0]) + RoundScore(state, suitsToUse[1..])
  }

  /** A player's game score: the sum of their three round scores. */
  function PlayerTotal(rounds: Rounds3, suitsToUse: seq<Suit>): (total: int)
    ensures (forall i :: 0 <= i < 3 ==> ValidWagers(rounds[i].wagers)) ==>
      -240 * |suitsToUse| <= total <= 468 * |suitsToUse|
  {
    RoundScore(rounds[0], suitsToUse) + RoundScore(rounds[1], suitsToUse) + RoundScore(rounds[2], suitsToUse)
  }

  /** No card of suit `s` is played. */
  predicate NonePlayed(e: Expeditions, s: Suit)
  {
    forall r: Rank :: !IsPlayed(e, Card(s, r))
  }

  // ---------------------------------------------------------------------
  // What the per-rank values add up to

  lemma {:induction false} RankPointsBounds(e: Expeditions, s: Suit, rs: seq<Rank>)
    ensures 0 <= Sum(RankPoints(e, s, rs)) <= Sum(rs)
    ensures CountPositive(RankPoints(e, s, rs)) <= |rs|
    ensures 2 * CountPositive(RankPoints(e, s, rs)) <= Sum(RankPoints(e, s, rs))
  {
    if rs != [] {
      RankPointsBounds(e, s, rs[1..]);
    }
  }

  lemma {:induction false} RankPointsNone(e: Expeditions, s: Suit, rs: seq<Rank>)
    ensures CountPositive(RankPoints(e, s, rs)) == 0 <==> forall i :: 0 <= i < |rs| ==> !IsPlayed(e, Card(s, rs[i]))
    ensures CountPositive(RankPoints(e, s, rs)) == 0 ==> Sum(RankPoints(e, s, rs)) == 0
  {
    if rs != [] {
      RankPointsNone(e, s, rs[1..]);
      assert forall i :: 1 <= i < |rs| ==> rs[i] == rs[1..][i - 1];
    }
  }

  lemma RanksSum()
    ensures Sum(Ranks) == 54
  {
    assert Ranks[1..] == [3, 4, 5, 6, 7, 8, 9, 10];
    assert Ranks[2..] == [4, 5, 6, 7, 8, 9, 10];
    assert Ranks[3..] == [5, 6, 7, 8, 9, 10];
    assert Ranks[4..] == [6, 7, 8, 9, 10];
    assert Ranks[5..] == [7, 8, 9, 10];
    assert Ranks[6..] == [8, 9, 10];
    assert Ranks[7..] == [9, 10];
    assert Ranks[8..] == [10];
  }

  /** Nothing counted in a suit exactly when no card of that suit is played. */
  lemma PlayedCountZero(e: Expeditions, s: Suit)
    ensures PlayedCount(e, s) == 0 <==> NonePlayed(e, s)
    ensures PlayedCount(e, s) == 0 ==> PlayedTotal(e, s) == 0
  {
    RankPointsNone(e, s, Ranks);
    RanksAscending();
    if forall i :: 0 <= i < |Ranks| ==> !IsPlayed(e, Card(s, Ranks[i])) {
      forall r: Rank ensures !IsPlayed(e, Card(s, r)) {
        assert Ranks[r - 2] == r;
      }
    }
  }

  /** At most nine cards worth at most 54 points in one suit. */
  lemma PlayedBounds(e: Expeditions, s: Suit)
    ensures 0 <= PlayedTotal(e, s) <= 54
    ensures PlayedCount(e, s) <= 9
    ensures 2 * PlayedCount(e, s) <= PlayedTotal(e, s)
  {
    RankPointsBounds(e, s, Ranks);
    RanksSum();
  }

  lemma MultiplierRange(w: Wagers, s: Suit)
    requires ValidWagers(w)
    ensures 1 <= Multiplier(w, s) <= 4
    ensures s !in w <==> Multiplier(w, s) == 1
  {
  }

  // ---------------------------------------------------------------------
  // One suit's term

  /** An untouched suit contributes nothing. */
  lemma SuitScoreUntouched(state: GameRoundState, s: Suit)
    requires NonePlayed(state.expeditions, s) && s !in state.wagers
    ensures SuitScore(state, s) == 0
  {
    PlayedCountZero(state.expeditions, s);
  }

  /** Without a wager a started expedition scores its points minus 20, plus 20 from 8 cards on. */
  lemma SuitScoreNoWager(state: GameRoundState, s: Suit)
    requires !NonePlayed(state.expeditions, s) && s !in state.wagers
    ensures SuitScore(state, s) ==
      PlayedTotal(state.expeditions, s) - 20 + (if PlayedCount(state.expeditions, s) >= 8 then 20 else 0)
  {
    PlayedCountZero(state.expeditions, s);
  }

  /** A wager alone still costs the investment, multiplied: `-20 · w`. */
  lemma SuitScoreWagerOnly(state: GameRoundState, s: Suit)
    requires NonePlayed(state.expeditions, s) && s in state.wagers && IsWager(state.wagers[s])
    ensures SuitScore(state, s) == -20 * state.wagers[s]
  {
    PlayedCountZero(state.expeditions, s);
  }

  /**
   * Putting wager `m` on a started expedition multiplies its points-minus-20,
   * while the 20-point bonus is added once, unscaled, and from a combined
   * count of 8 (cards plus `m - 1`).
   */
  lemma SuitScoreWagered(state: GameRoundState, s: Suit, m: int)
    requires IsWager(m) && !NonePlayed(state.expeditions, s)
    ensures var plain := state.(wagers := state.wagers - {s});
            var wagered := state.(wagers := state.wagers[s := m]);
            var count := PlayedCount(state.expeditions, s);
            && SuitScore(wagered, s) - (if count + m - 1 >= 8 then 20 else 0)
               == m * (SuitScore(plain, s) - (if count >= 8 then 20 else 0))
            && SuitScore(wagered, s) - (if count + m - 1 >= 8 then 20 else 0)
               == m * (PlayedTotal(state.expeditions, s) - 20)
  {
    PlayedCountZero(state.expeditions, s);
  }

  /** A suit's term reads only that suit's cards and wager. */
  lemma {:induction false} RankPointsLocal(a: Expeditions, b: Expeditions, s: Suit, rs: seq<Rank>)
    requires forall r: Rank :: IsPlayed(a, Card(s, r)) == IsPlayed(b, Card(s, r))
    ensures RankPoints(a, s, rs) == RankPoints(b, s, rs)
  {
    if rs != [] {
      RankPointsLocal(a, b, s, rs[1..]);
    }
  }

  /** Two rounds that agree on suit `s` give it the same term. */
  predicate AgreeOnSuit(a: GameRoundState, b: GameRoundState, s: Suit)
  {
    && (forall r: Rank :: IsPlayed(a.expeditions, Card(s, r)) == IsPlayed(b.expeditions, Card(s, r)))
    && Multiplier(a.wagers, s) == Multiplier(b.wagers, s)
  }

  lemma SuitScoreLocal(a: GameRoundState, b: GameRoundState, s: Suit)
    requires AgreeOnSuit(a, b, s)
    ensures SuitScore(a, s) == SuitScore(b, s)
  {
    RankPointsLocal(a.expeditions, b.expeditions, s, Ranks);
  }

  // ---------------------------------------------------------------------
  // The round total

  /** Data recorded for suits outside `suitsToUse` does not affect the round total. */
  lemma {:induction false} RoundScoreLocal(a: GameRoundState, b: GameRoundState, suitsToUse: seq<Suit>)
    requires forall s :: s in suitsToUse ==> AgreeOnSuit(a, b, s)
    ensures RoundScore(a, suitsToUse) == RoundScore(b, suitsToUse)
  {
    if suitsToUse != [] {
      SuitScoreLocal(a, b, suitsToUse[0]);
      RoundScoreLocal(a, b, suitsToUse[1..]);
    }
  }

  lemma {:induction false} RoundScoreAppend(state: GameRoundState, xs: seq<Suit>, ys: seq<Suit>)
    ensures RoundScore(state, xs + ys) == RoundScore(state, xs) + RoundScore(state, ys)
  {
    if xs != [] {
      assert (xs + ys)[1..] == xs[1..] + ys;
      RoundScoreAppend(state, xs[1..], ys);
    } else {
      assert xs + ys == ys;
    }
  }

  /** The long game scores purple on top of the short game's five suits. */
  lemma LongGameAddsPurple(state: GameRoundState)
    ensures RoundScore(state, EnabledSuits("true")) == SuitScore(state, Purple) + RoundScore(state, EnabledSuits("false"))
  {
    assert EnabledSuits("true") == [Purple] + EnabledSuits("false");
  }

  /** A blank round scores 0 whatever the suits. */
  lemma {:induction false} RoundScoreEmpty(suitsToUse: seq<Suit>)
    ensures RoundScore(EmptyRound, suitsToUse) == 0
  {
    if suitsToUse != [] {
      SuitScoreUntouched(EmptyRound, suitsToUse[0]);
      RoundScoreEmpty(suitsToUse[1..]);
    }
  }

  // ---------------------------------------------------------------------
  // Game totals

  /** A fresh or reset game shows 0 for both players. */
  lemma InitialTotalsZero(p: PlayerState, suitsToUse: seq<Suit>)
    ensures PlayerTotal(PlayerRounds(InitialState, p), suitsToUse) == 0
  {
    RoundScoreEmpty(suitsToUse);
  }

  /**
   * `handleChange` on slot (p, r) moves p's total by exactly the change of that
   * round's score and leaves the other player's total as it was.
   */
  lemma TotalsAfterChange(g: GameState, p: PlayerState, r: RoundState, x: GameRoundState, suitsToUse: seq<Suit>)
    ensures var g' := WithSlot(g, p, r, x);
            PlayerTotal(PlayerRounds(g', p), suitsToUse)
            == PlayerTotal(PlayerRounds(g, p), suitsToUse) - RoundScore(CardsForPlayer(g, r, p), suitsToUse) + RoundScore(x, suitsToUse)
    ensures PlayerTotal(PlayerRounds(WithSlot(g, p, r, x), Other(p)), suitsToUse) == PlayerTotal(PlayerRounds(g, Other(p)), suitsToUse)
  {
    var g' := WithSlot(g, p, r, x);
    var i := RoundIndex(r);
    forall j | 0 <= j < 3 && j != i
      ensures PlayerRounds(g', p)[j] == PlayerRounds(g, p)[j]
    {
      var r' := if j == 0 then Round1 else if j == 1 then Round2 else Round3;
      assert RoundIndex(r') == j;
      assert CardsForPlayer(g', r', p) == CardsForPlayer(g, r', p);
    }
    assert PlayerRounds(g', p)[i] == x;
  }

  /**
   * The Reset button: when the confirmation (a parameter here) is given,
   * `resetGame`, `resetRound` and `resetPlayer` run in turn.
   */
  method ResetButton(atom: GameAtom, confirmed: bool)
    modifies atom, atom.players, atom.rounds
    ensures confirmed ==> atom.game == InitialState && atom.rounds.value == InitialRound && atom.players.value == InitialPlayer
    ensures !confirmed ==> atom.game == old(atom.game) && atom.rounds.value == old(atom.rounds.value) && atom.players.value == old(atom.players.value)
    ensures confirmed ==> forall p, suits :: PlayerTotal(PlayerRounds(atom.game, p), suits) == 0
    ensures confirmed ==> WellFormedGame(atom.game)
  {
    if confirmed {
      atom.ResetGame();
      atom.rounds.ResetRound();
      atom.players.ResetPlayer();
      forall p, suits ensures PlayerTotal(PlayerRounds(atom.game, p), suits) == 0 {
        InitialTotalsZero(p, suits);
      }
    }
  }

  // ---------------------------------------------------------------------
  // Worked examples

  lemma {:induction false} SumAppend(xs: seq<int>, ys: seq<int>)
    ensures Sum(xs + ys) == Sum(xs) + Sum(ys)
    ensures CountPositive(xs + ys) == CountPositive(xs) + CountPositive(ys)
  {
    if xs == [] {
      assert xs + ys == ys;
    } else {
      assert (xs + ys)[1..] == xs[1..] + ys;
      SumAppend(xs[1..], ys);
    }
  }

  lemma {:induction false} SumZeros(xs: seq<int>)
    requires forall i :: 0 <= i < |xs| ==> xs[i] == 0
    ensures Sum(xs) == 0 && CountPositive(xs) == 0
  {
    if xs != [] {
      SumZeros(xs[1..]);
    }
  }

  lemma {:induction false} SumSingle(xs: seq<int>, k: nat)
    requires k < |xs| && xs[k] >= 0
    requires forall i :: 0 <= i < |xs| && i != k ==> xs[i] == 0
    ensures Sum(xs) == xs[k]
    ensures CountPositive(xs) == if xs[k] > 0 then 1 else 0
  {
    if k == 0 {
      SumZeros(xs[1..]);
    } else {
      SumSingle(xs[1..], k - 1);
    }
  }

  /** A suit with exactly one played card and no wager scores that card's value minus 20. */
  lemma SingleCardSuit(state: GameRoundState, c: Card)
    requires forall r: Rank :: IsPlayed(state.expeditions, Card(c.suit, r)) <==> r == c.rank
    requires c.suit !in state.wagers
    ensures SuitScore(state, c.suit) == c.rank - 20
  {
    var points := RankPoints(state.expeditions, c.suit, Ranks);
    assert forall i :: 0 <= i < 9 ==> points[i] == if i == c.rank - 2 then c.rank else 0;
    SumSingle(points, c.rank - 2);
  }

  /** A round total over five suits, term by term. */
  lemma RoundScoreFive(state: GameRoundState, a: Suit, b: Suit, c: Suit, d: Suit, e: Suit)
    ensures RoundScore(state, [a, b, c, d, e])
      == SuitScore(state, a) + SuitScore(state, b) + SuitScore(state, c) + SuitScore(state, d) + SuitScore(state, e)
  {
    assert [a, b, c, d, e][1..] == [b, c, d, e];
    assert [b, c, d, e][1..] == [c, d, e];
    assert [c, d, e][1..] == [d, e];
    assert [d, e][1..] == [e];
    assert [e][1..] == [];
    assert RoundScore(state, [e]) == SuitScore(state, e);
    assert RoundScore(state, [d, e]) == SuitScore(state, d) + RoundScore(state, [e]);
    assert RoundScore(state, [c, d, e]) == SuitScore(state, c) + RoundScore(state, [d, e]);
    assert RoundScore(state, [b, c, d, e]) == SuitScore(state, b) + RoundScore(state, [c, d, e]);
  }

  /** The round with blue 7 and red 3 and no wagers: the two started suits. */
  lemma ExampleStartedSuits(state: GameRoundState)
    requires state == GameRoundState(map[Card(Blue, 7) := true, Card(Red, 3) := true], map[])
    ensures SuitScore(state, Blue) == -13 && SuitScore(state, Red) == -17
  {
    var e := state.expeditions;
    assert forall r: Rank :: IsPlayed(e, Card(Blue, r)) <==> r == 7;
    assert forall r: Rank :: IsPlayed(e, Card(Red, r)) <==> r == 3;
    SingleCardSuit(state, Card(Blue, 7));
    SingleCardSuit(state, Card(Red, 3));
  }

  /** The same round: the three suits it leaves untouched. */
  lemma ExampleUntouchedSuits(state: GameRoundState)
    requires state == GameRoundState(map[Card(Blue, 7) := true, Card(Red, 3) := true], map[])
    ensures SuitScore(state, Green) == 0 && SuitScore(state, White) == 0 && SuitScore(state, Yellow) == 0
  {
    SuitScoreUntouched(state, Green);
    SuitScoreUntouched(state, White);
    SuitScoreUntouched(state, Yellow);
  }

  /** Blue 7 and red 3, no wagers, short game: -13 + -17, the other three suits 0. */
  lemma ExampleTwoSuits(state: GameRoundState)
    requires state == GameRoundState(map[Card(Blue, 7) := true, Card(Red, 3) := true], map[])
    ensures RoundScore(state, EnabledSuits("false")) == -30
  {
    ExampleStartedSuits(state);
    ExampleUntouchedSuits(state);
    RoundScoreFive(state, Red, Green, Blue, White, Yellow);
    ShortGameSuits();
  }

  /** Green 2 and 3 played: five points from two cards. */
  lemma ExampleWagerTallies(e: Expeditions)
    requires e == map[Card(Green, 2) := true, Card(Green, 3) := true]
    ensures PlayedTotal(e, Green) == 5 && PlayedCount(e, Green) == 2
  {
    var points := RankPoints(e, Green, Ranks);
    var expected := [2, 3] + [0, 0, 0, 0, 0, 0, 0];
    forall i | 0 <= i < 9
      ensures points[i] == expected[i]
    {
      assert Ranks[i] == i + 2;
    }
    assert points == expected;
    SumZeros([0, 0, 0, 0, 0, 0, 0]);
    SumAppend([2, 3], [0, 0, 0, 0, 0, 0, 0]);
  }

  /** Green 2 and 3 with wager 3: count 4, points 5, score -15 · 3. */
  lemma ExampleWager(state: GameRoundState)
    requires state == GameRoundState(map[Card(Green, 2) := true, Card(Green, 3) := true], map[Green := 3])
    ensures SuitScore(state, Green) == -45
  {
    ExampleWagerTallies(state.expeditions);
    assert Multiplier(state.wagers, Green) == 3;
    SuitScoreOf(state, Green, 5, 2, 3);
  }
}
