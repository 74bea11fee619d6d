# Lost Cities score sheet — a Dafny model

This project models the engine behind a two-player *Lost Cities* score
sheet. Two players record, for each of three rounds, which expedition cards
(a suit and a rank 2..10) they played and which wager multiplier (2, 3 or 4)
they put on each suit. The engine derives the points per suit, per round and
per game.

The model has one Dafny module per source file:

- `Types` (`src/components/types.ts`): suits, ranks, the `suit-rank` card key
  and its parse, `GameRoundState`, and the fixed 2 × 3 `GameState`.
- `Strings`: the part of JavaScript's `split` that the card keys rely on,
  and the join that undoes it.
- `App` (`src/components/App.tsx`): `calculateRoundScore`, one suit's term,
  the three-round game totals and the Reset button.
- `ColumnCalculator` (`src/components/ColumnCalculator.tsx`):
  - the wager cycle and the card toggle;
  - `getCardsInSuit`;
  - the score each column displays, proved equal to the suit's term of
    `calculateRoundScore`;
  - the two button handlers.
- `GameStore` (`src/stores/gameState.ts`): the `gameState` atom as a class,
  with its lookups, `handleChange`, `getDisabledCards` and `resetGame`.
- `PlayerStore`, `RoundStore`, `SettingsStore`: the selector and settings
  atoms as classes with set and reset.
- `RoundCalculator` (`src/components/RoundCalculator.tsx`): the rule that
  enables six or five suits.
- `Wrappers`: an `Option` type.

Modelling choices:

- Expeditions are `map<Card, bool>`. A card counts as played when its key is
  present *and* truthy. `false` stands for the falsy or `undefined` values the
  store tests put into the map. `OnlyTrue` is the promise `{ [K]?: true }` in
  types.ts.
- Wagers are `map<Suit, int>`; `ValidWagers` is the `2 | 3 | 4` promise. The
  two source files default an absent wager differently:
  - `calculateRoundScore` uses `|| 1` (`Multiplier`): absent or 0 means 1;
  - the column uses `?? 1` (`WagerOrDefault`): only absent means 1.
  The agreement lemma therefore needs a well-formed round.
- `Object.keys(expeditions)` becomes a parameter `keys` that lists every key
  once (`Enumerates`), in an order the model does not fix.
- App.tsx:15-16 imports `suitsLongGame` and `suitsShortGame`, but types.ts
  does not define them. The active suit set is therefore a parameter. Where
  the flag chooses it, the model uses RoundCalculator.tsx:19: all six
  `SUITS`, or `SUITS.slice(1)`.
- The settings test expects a record with two keys. settingsStore.ts:9-13
  has three (`enableLongGame` as well). The model follows the source.
- The selector atoms are read by reference: `GameAtom` holds the
  `PlayerAtom` and `RoundAtom` it reads, as gameState.ts imports them.
  `CurrentRound` and `GetDisabledCards` take the game state as a parameter,
  as `getCurrentRound(state)` and `getDisabledCards(state)` do, so they apply
  to any state. The store tests pass such states.
- `WellFormedGame` says that all six slots keep the shape types.ts promises.
  The atom's constructor and `ResetGame` establish it. The column's two
  buttons preserve it. So `ColumnMatchesSlot` applies to every state the
  buttons reach. `handleChange` itself accepts any updater and promises no
  shape.

## Model

| member | source | states |
|---|---|---|
| `Types.SuitsComplete` | src/components/types.ts:1 | there are exactly six suits, pairwise distinct, and every suit is listed |
| `Types.RanksAscending` | src/components/types.ts:2 | the ranks are the nine values 2..10 in ascending order, and every rank is listed |
| `Types.SuitName` | src/components/types.ts:1 | no suit name contains "-" |
| `Types.SuitOfName` | src/components/types.ts:4 | a text parses as a suit exactly when it is that suit's name: every name parses to its own suit, and a successful parse returns the suit the text names |
| `Types.SuitNameInjective` | src/components/types.ts:1 | distinct suits have distinct names |
| `Types.RankText` | src/components/types.ts:2 | a rank's text is one of `ranks` and contains no "-" |
| `Types.ParseRank` | src/components/App.tsx:25 | parsing a rank text gives the rank whose text it is |
| `Types.ParseRankText` | src/components/ColumnCalculator.tsx:49 | parsing a rank's text gives back that rank |
| `Types.CardKey` | src/components/types.ts:7 | the key `${suit}-${rank}` splits at "-" into exactly the suit's name and the rank's text (used at ColumnCalculator.tsx:46) |
| `Types.ParseCardKey` | src/components/types.ts:7 | a key that parses to a card is exactly that card's `suit-rank` key |
| `Types.CardKeyRoundTrip` | src/components/types.ts:7 | formatting a card as `suit-rank` and parsing it gives the card back |
| `Types.CardKeyInjective` | src/components/types.ts:7 | distinct cards have distinct keys |
| `Strings.Split` | src/components/ColumnCalculator.tsx:46 | `split` returns at least one part, and no part contains the separator |
| `Strings.JoinSplit` | src/components/ColumnCalculator.tsx:46 | joining the parts of a split with the separator gives back the text |
| `Strings.SplitNoSeparator` | src/components/ColumnCalculator.tsx:46 | a text without the separator splits into itself alone |
| `Strings.SplitPair` | src/components/ColumnCalculator.tsx:46 | `a-b`, with no separator in `a` or `b`, splits into exactly `[a, b]` |
| `App.RankPoints` | src/components/App.tsx:24-26 | one entry per rank: the rank's value when that card of the suit is played (present and truthy), otherwise 0 |
| `App.Sum` | src/components/App.tsx:27 | the `reduce` sum; never negative when no entry is negative |
| `App.CountPositive` | src/components/App.tsx:31 | the `filter(i => i > 0).length` count: at most the number of entries, and 0 exactly when no entry is positive |
| `App.Multiplier` | src/components/App.tsx:30 | `wagers[suit] \|\| 1` is never 0: it is the stored wager when that is truthy, and exactly 1 when the suit is absent or stored as 0 |
| `App.SuitScore` | src/components/App.tsx:22-37 | one suit's term of `calculateRoundScore`; with wagers in {2,3,4} it lies in [−80, 156]; its cases are stated by the `SuitScore…` lemmas below |
| `App.RoundScore` | src/components/App.tsx:20-41 | `calculateRoundScore`: with wagers in {2,3,4}, the total over n suits lies in [−80·n, 156·n]; `RoundScoreLocal`, `RoundScoreAppend` and `RoundScoreEmpty` state the rest |
| `App.PlayerTotal` | src/components/App.tsx:53-62 | a player's game score, the sum of three round scores, lies in [−240·n, 468·n] for n suits when all wagers are valid; `TotalsAfterChange` and `InitialTotalsZero` relate it to the store |
| `App.RankPointsBounds` | src/components/App.tsx:24-27 | a suit's points lie between 0 and the sum of the ranks; the count is at most the number of ranks and at most half the points |
| `App.RankPointsNone` | src/components/App.tsx:31 | the count is 0 exactly when none of the listed ranks is played, and then the points are 0 |
| `App.RanksSum` | src/components/types.ts:2 | the ranks 2..10 add up to 54 |
| `App.PlayedCountZero` | src/components/App.tsx:24-31 | a suit counts no card exactly when no card of that suit is played |
| `App.PlayedBounds` | src/components/App.tsx:24-31 | one suit has at most 9 cards worth at most 54 points |
| `App.MultiplierRange` | src/components/App.tsx:30 | with wagers in {2,3,4}, `wagers[suit] \|\| 1` lies in 1..4, and it is 1 exactly when no wager is stored |
| `App.SuitScoreUntouched` | src/components/App.tsx:31-36 | a suit with no played card and no wager contributes exactly 0 |
| `App.SuitScoreNoWager` | src/components/App.tsx:27-36 | with no wager and some cards played, the suit scores its points − 20, plus 20 only from 8 cards on |
| `App.SuitScoreWagerOnly` | src/components/App.tsx:30-36 | a wager `w` with nothing played still costs −20·w |
| `App.SuitScoreWagered` | src/components/App.tsx:31-36 | wager `m` multiplies points − 20; the 20 bonus is added once, unscaled, and only when cards + m − 1 ≥ 8 |
| `App.RankPointsLocal` | src/components/App.tsx:24-26 | the per-rank values read only the suit's own cards |
| `App.SuitScoreLocal` | src/components/App.tsx:24-36 | two rounds that agree on a suit's cards and multiplier give it the same term |
| `App.RoundScoreLocal` | src/components/App.tsx:21-38 | data for suits outside `suitsToUse` does not affect the round total |
| `App.RoundScoreAppend` | src/components/App.tsx:21-38 | the round total over two lists of suits is the sum of the two totals |
| `App.LongGameAddsPurple` | src/components/RoundCalculator.tsx:19 | a long game's round total is the short game's plus purple's term |
| `App.RoundScoreEmpty` | src/components/App.tsx:20-41 | a blank round scores 0 over any suit set |
| `App.InitialTotalsZero` | src/components/App.tsx:53-62 | in the initial game both players' totals are 0 |
| `App.TotalsAfterChange` | src/components/App.tsx:53-62 | replacing slot (p, r) changes p's total by exactly the change in that round's score, and leaves the other player's total unchanged |
| `App.ResetButton` | src/components/App.tsx:145-151 | once confirmed, game, round and player are all back to their initial values, the game is well formed and both totals are 0; otherwise nothing changes |
| `App.SumAppend` | src/components/App.tsx:27 | the sum and the positive count of a concatenation add up |
| `App.SumZeros` | src/components/App.tsx:27 | all-zero values sum to 0 and count nothing |
| `App.SumSingle` | src/components/App.tsx:27 | values that are zero except one add up to that one |
| `App.SingleCardSuit` | src/components/App.tsx:24-36 | a suit with one played card and no wager scores that card's rank − 20 |
| `App.RoundScoreFive` | src/components/App.tsx:21-38 | a total over five suits is the sum of their five terms |
| `App.ExampleStartedSuits` | src/stores/__tests__/gameState.test.ts:46 | in that round, blue 7 alone scores −13 and red 3 alone scores −17 |
| `App.ExampleUntouchedSuits` | src/stores/__tests__/gameState.test.ts:46 | in that round, green, white and yellow score 0 |
| `App.ExampleTwoSuits` | src/stores/__tests__/gameState.test.ts:46 | blue 7 and red 3 with no wagers score −30 in the short game |
| `App.ExampleWagerTallies` | src/stores/__tests__/gameState.test.ts:53 | green 2 and 3 make 5 points from 2 cards |
| `App.ExampleWager` | src/stores/__tests__/gameState.test.ts:53 | green 2 and 3 with wager 3 score −45 |
| `ColumnCalculator.WagerOrDefault` | src/components/ColumnCalculator.tsx:19 | `wagers[suit] ?? 1` is 1 when the suit is absent and keeps a stored 0; otherwise it agrees with `\|\| 1`, and on wagers in {2,3,4} the two defaults agree |
| `ColumnCalculator.DefaultsDisagreeOnZero` | src/components/ColumnCalculator.tsx:19 | `?? 1` and `\|\| 1` (App.tsx:30) give different multipliers exactly when the suit's wager is stored as 0 |
| `ColumnCalculator.UpdateWager` | src/components/ColumnCalculator.tsx:16-28 | only the suit's wager changes: it becomes the old value (default 1) + 1 when that is below 4, and is removed otherwise |
| `ColumnCalculator.UpdateWagerSteps` | src/components/ColumnCalculator.tsx:19-27 | on valid wagers, the multiplier steps 1→2→3→4→1; stored values stay in {2,3,4}; other suits keep their multiplier |
| `ColumnCalculator.UpdateWagerFromAbsent` | src/components/ColumnCalculator.tsx:13-14 | from no wager, four presses give 2, then 3, then 4, then no entry |
| `ColumnCalculator.UpdateWagerFourTimes` | src/components/ColumnCalculator.tsx:16-28 | four presses on valid wagers restore the round exactly |
| `ColumnCalculator.ToggleExpeditionCard` | src/components/ColumnCalculator.tsx:30-40 | only the key's entry changes: it is played afterwards exactly when it was not before, and it is stored only as `true` |
| `ColumnCalculator.ToggleTwice` | src/components/ColumnCalculator.tsx:33-39 | toggling twice restores the round unless the key was stored falsy |
| `ColumnCalculator.UpdatersKeepWellFormed` | src/components/ColumnCalculator.tsx:16-40 | both updaters keep expeditions only-`true` and wagers in {2,3,4} |
| `ColumnCalculator.CardsInSuit` | src/components/ColumnCalculator.tsx:43-53 | each entry is in the suit, with a rank 2..10; a card of the suit is listed exactly when its key is among the keys |
| `ColumnCalculator.CardsInSuitStep` | src/components/ColumnCalculator.tsx:44-52 | each key gets its suit name and parsed rank, and is kept only when its suit matches |
| `ColumnCalculator.SumValues` | src/components/ColumnCalculator.tsx:74 | the column's `reduce` over card values; with values 2..10, n cards sum to between 2·n and 10·n |
| `ColumnCalculator.ColumnScore` | src/components/ColumnCalculator.tsx:65-79 | the displayed score is `roi × wager + bonus`, with a bonus of 0 or 20 |
| `ColumnCalculator.PointsIn` | src/components/App.tsx:24-26 | one value per rank for a set of cards |
| `ColumnCalculator.RankPointsAsSet` | src/components/App.tsx:24-26 | reading truthy entries equals reading the set of played cards |
| `ColumnCalculator.PointsInEmpty` | src/components/App.tsx:24-31 | no cards give no points and no count |
| `ColumnCalculator.PointsInAdd` | src/components/App.tsx:24-31 | adding a card adds its rank, once, only to its own suit's points and count |
| `ColumnCalculator.ColumnTallies` | src/components/ColumnCalculator.tsx:71-75 | the column's card count and sum equal the count and points of the set of stored keys (falsy entries included) for the suit |
| `ColumnCalculator.ColumnMatchesRound` | src/components/ColumnCalculator.tsx:65-79 | on a well-formed round, the column shows the suit's term of `calculateRoundScore`, with the same multiplier |
| `ColumnCalculator.ColumnMatchesSlot` | src/components/ColumnCalculator.tsx:60-79 | in a well-formed game, the column for any slot shows that slot's term of `calculateRoundScore` |
| `ColumnCalculator.FalsyKeyDisagrees` | src/components/ColumnCalculator.tsx:44 | a key stored falsy counts in the column (−13) but not in the round total (0) |
| `ColumnCalculator.PressWager` | src/components/ColumnCalculator.tsx:112 | the wager button applies `updateWager` to the selected slot only, and keeps every slot in the shape types.ts promises |
| `ColumnCalculator.PressCard` | src/components/ColumnCalculator.tsx:144 | a card button applies the toggle to the selected slot only, and keeps every slot in the shape types.ts promises |
| `GameStore.InitialState` | src/stores/gameState.ts:7-18 | `INITIAL_STATE`; `InitialStateBlank` states its contents |
| `GameStore.InitialStateBlank` | src/stores/gameState.ts:7-18 | all six slots of `INITIAL_STATE` are blank, so it is well formed |
| `GameStore.RoundIndex` | src/stores/gameState.ts:29-30 | a round's index is always within the three slots |
| `GameStore.RoundIndexBijective` | src/stores/gameState.ts:29-30 | Round 1/2/3 map to 0/1/2, and distinct rounds get distinct slots |
| `GameStore.Other` | src/stores/gameState.ts:61 | the other player is never the player |
| `GameStore.OtherInvolution` | src/stores/gameState.ts:61 | taking the other player twice gives back the player |
| `GameStore.PlayerRounds` | src/stores/gameState.ts:49 | the `player1` tuple for Player 1 and the `player2` tuple for Player 2 |
| `GameStore.CardsForPlayer` | src/stores/gameState.ts:32-35 | the result is the `player1` or `player2` slot at the round's index |
| `GameStore.WithSlot` | src/stores/gameState.ts:52-56 | slot (p, r) becomes the new record, the other five slots are unchanged, and the other player's tuple is untouched |
| `GameStore.WithSlotSame` | src/stores/gameState.ts:52-56 | writing back the slot that is already there leaves the game equal |
| `GameStore.WithSlotKeepsWellFormed` | src/stores/gameState.ts:52-56 | writing a well-formed record into a well-formed game keeps all six slots well formed |
| `GameStore.TruthyKeys` | src/stores/gameState.ts:65-69 | exactly the keys whose value is truthy |
| `GameStore.DisabledCards` | src/stores/gameState.ts:59-69 | a card is disabled exactly when the other player has it truthy in the same round |
| `GameStore.DisabledCardsIgnoreOwnSlots` | src/stores/gameState.ts:60-63 | the disabled set does not depend on any of the current player's own slots |
| `GameStore.DisabledCardsSymmetric` | src/stores/gameState.ts:60-63 | a card is disabled for the other player exactly when this player has it in the same round |
| `GameStore.FalsyEntriesNotDisabled` | src/stores/__tests__/gameState.test.ts:160-174 | keys stored with falsy values disable nothing |
| `GameStore.PlayedEntriesDisabled` | src/stores/__tests__/gameState.test.ts:143-158 | the other player's yellow 2 and 4 are exactly the disabled cards |
| `GameStore.GameAtom.constructor` | src/stores/gameState.ts:7-23 | the atom starts at `INITIAL_STATE`, which is well formed, and reads the given selector atoms |
| `GameStore.GameAtom.CurrentRound` | src/stores/gameState.ts:37-42 | the slot of the given state that the current player and round selectors point at |
| `GameStore.GameAtom.GetDisabledCards` | src/stores/gameState.ts:59-69 | the cards the other player has truthy in the given state's current round |
| `GameStore.GameAtom.HandleChange` | src/stores/gameState.ts:44-57 | the selected slot becomes `update` of its old value, and the other five slots are unchanged |
| `GameStore.GameAtom.ResetGame` | src/stores/gameState.ts:25-27 | all six slots are blank afterwards, whatever came before, so the game is well formed |
| `PlayerStore.InitialPlayer` | src/stores/playerState.ts:5 | `INITIAL_STATE`; `InitialPlayerLabel` states its value |
| `PlayerStore.InitialPlayerLabel` | src/stores/playerState.ts:5 | the initial value is "Player 1" |
| `PlayerStore.Label` | src/stores/playerState.ts:3 | the value is always "Player 1" or "Player 2", and its text parses back to it |
| `PlayerStore.FromLabel` | src/stores/playerState.ts:3 | only "Player 1" and "Player 2" are player values |
| `PlayerStore.FromLabelSound` | src/stores/playerState.ts:3 | a text that parses as a player is that player's text |
| `PlayerStore.PlayerAtom.constructor` | src/stores/playerState.ts:5-7 | the initial value is "Player 1" |
| `PlayerStore.PlayerAtom.ResetPlayer` | src/stores/playerState.ts:9-11 | afterwards the value is "Player 1" |
| `PlayerStore.PlayerAtom.SetPlayer` | src/stores/playerState.ts:13-15 | afterwards the value is the given player |
| `PlayerStore.ResetAfterSet` | src/stores/__tests__/playerState.test.ts:17-23 | after any set, one or two resets leave "Player 1" |
| `RoundStore.InitialRound` | src/stores/roundState.ts:5 | `INITIAL_STATE`; `InitialRoundLabel` states its value |
| `RoundStore.InitialRoundLabel` | src/stores/roundState.ts:5 | the initial value is "Round 1" |
| `RoundStore.Label` | src/stores/roundState.ts:3 | the value is always "Round 1", "Round 2" or "Round 3", and its text parses back to it |
| `RoundStore.FromLabel` | src/stores/roundState.ts:3 | only the three round texts are round values |
| `RoundStore.FromLabelSound` | src/stores/roundState.ts:3 | a text that parses as a round is that round's text |
| `RoundStore.RoundAtom.constructor` | src/stores/roundState.ts:5-7 | the initial value is "Round 1" |
| `RoundStore.RoundAtom.ResetRound` | src/stores/roundState.ts:9-11 | afterwards the value is "Round 1" |
| `RoundStore.RoundAtom.SetRound` | src/stores/roundState.ts:13-15 | afterwards the value is the given round |
| `RoundStore.ResetAfterSet` | src/stores/__tests__/roundState.test.ts:18-26 | after any set, one or two resets leave "Round 1" |
| `SettingsStore.InitialSettings` | src/stores/settingsStore.ts:9-13 | `INITIAL_SETTINGS`; `InitialSettingsValues` states its fields |
| `SettingsStore.InitialSettingsValues` | src/stores/settingsStore.ts:9-13 | the initial names are "Player 1" and "Player 2", and the flag is a valid flag other than "true" (a short game) |
| `SettingsStore.With` | src/components/SettingsPanel.tsx:14 | updating one key sets that key and leaves the other two as they were |
| `SettingsStore.SettingsExtensional` | src/stores/settingsStore.ts:3-7 | a settings record is determined by its three fields |
| `SettingsStore.WithLaws` | src/stores/__tests__/settingsStore.test.ts:20-31 | re-setting a key to its value changes nothing; of two sets of one key, the last wins |
| `SettingsStore.SettingsMap.constructor` | src/stores/settingsStore.ts:9-15 | the initial settings are "Player 1", "Player 2" and "false" |
| `SettingsStore.SettingsMap.SetKey` | src/stores/__tests__/settingsStore.test.ts:20-27 | one key changes, the others keep their values, and the flag stays "true" or "false" |
| `SettingsStore.SettingsMap.SetAll` | src/stores/__tests__/settingsStore.test.ts:33-42 | every field is replaced by the given record |
| `SettingsStore.SettingsMap.ResetSettings` | src/stores/settingsStore.ts:17-19 | all initial values are restored, whatever the earlier updates |
| `SettingsStore.RenameThenReset` | src/stores/__tests__/settingsStore.test.ts:48-62 | after renaming and replacing, reset gives back the initial record |
| `RoundCalculator.DisplaySuits` | src/components/RoundCalculator.tsx:8-15 | `SUITS` in display order; `DisplaySuitsComplete` and `DisplaySuitsArePermutation` state its contents |
| `RoundCalculator.DisplaySuitsComplete` | src/components/RoundCalculator.tsx:8-15 | every suit is in `SUITS`, and the tail after the first entry holds exactly the suits other than purple |
| `RoundCalculator.EnabledSuits` | src/components/RoundCalculator.tsx:19 | flag "true" gives all six suits and any other value gives the five besides purple; each suit appears once, in `SUITS` order (a suffix of it) |
| `RoundCalculator.ShortGameSuits` | src/components/RoundCalculator.tsx:19 | the short game's columns are red, green, blue, white and yellow, in that order |
| `RoundCalculator.ShortWithinLong` | src/components/RoundCalculator.tsx:19 | every short-game suit is a long-game suit |
| `RoundCalculator.DisplaySuitsArePermutation` | src/components/RoundCalculator.tsx:8-15 | `SUITS` lists the same six suits as types.ts, in another order |

## Left out

- Persistence is not modelled: `persistentAtom` and `persistentMap`, the
  JSON `encode`/`decode` of the game, localStorage, and loading stored values
  at start-up. Each atom's constructor models a fresh start, and the
  localStorage checks in the store tests have no counterpart.
- Rendering is not modelled: JSX, Tailwind classes, `twMerge`, `color2k`
  colour math, aria labels, the `values` array that only lays out buttons,
  and `SegmentedControl`. These are presentation and, for colours,
  floating point.
- Button disabling is not modelled: a card button is disabled when its card is
  in `getDisabledCards`; that is UI. `PressCard`, like `handleChange`, does not
  check it, so two players can hold the same card.
- Immer's `produce` is modelled as a plain functional update of one slot
  (`WithSlot`).
- React hooks and `useStore` subscriptions are not modelled.
- The `confirm()` dialog is not modelled; its answer is the `confirmed`
  parameter of `ResetButton`.
- SettingsPanel's open/closed state and form wiring are not modelled; only the
  record update it performs (`With`).
- The display-name fallback `player1Name || "Player 1"` (App.tsx:98,116) is
  presentation and is not modelled.
- `Number.parseInt` is modelled only on the rank texts "2".."10".
  `ParseRank` requires one of them; card keys always supply one. So NaN never
  arises in the model.
- Wager values outside `int`, such as `undefined` or NaN written against the
  type, are not modelled.
- The order of `Object.keys` is left open by the `keys` parameter. The column
  uses only the count and the sum, which do not depend on it.
- `ColumnCalculator.ColumnMatchesRound`: holds only for rounds whose
  expeditions store `true` alone. `FalsyKeyDisagrees` shows the column
  differs when a key is stored falsy, as the store tests do for another
  purpose.
