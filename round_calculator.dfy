/** Which suits get a column (src/components/RoundCalculator.tsx). */
module RoundCalculator {
  import opened Types

  /** `SUITS`, in display order (colours are presentation and not modelled). */
  const DisplaySuits: seq<Suit> := [Purple, Red, Green, Blue, White, Yellow]

  predicate Distinct(suits: seq<Suit>)
  {
    forall i, j :: 0 <= i < j < |suits| ==> suits[i] != suits[j]
  }

  lemma DisplaySuitsComplete()
    ensures forall s: Suit :: s in DisplaySuits
    ensures forall s: Suit :: s in DisplaySuits[1..] <==> s != Purple
  {
    var tail := DisplaySuits[1..];
    assert tail == [Red, Green, Blue, White, Yellow];
    forall s: Suit ensures s in DisplaySuits && (s in tail <==> s != Purple) {
      match s
      case Purple => assert DisplaySuits[0] == s;
      case Red => assert tail[0] == s;
      case Green => assert tail[1] == s;
      case Blue => assert tail[2] == s;
      case White => assert tail[3] == s;
      case Yellow => assert tail[4] == s;
    }
  }

  /** `enabledSuits`: all six for a long game, otherwise all but the first. */
  function EnabledSuits(enableLongGame: string): (suits: seq<Suit>)
    ensures Distinct(suits)
    ensures forall s :: s in suits <==> enableLongGame == "true" || s != Purple
    ensures |suits| == (if enableLongGame == "true" then 6 else 5)
    ensures suits == DisplaySuits[|DisplaySuits| - |suits|..]
  {
    DisplaySuitsComplete();
    if enableLongGame == "true" then DisplaySuits else DisplaySuits[1..]
  }

  /** The short game's five columns, in display order. */
  lemma ShortGameSuits()
    ensures EnabledSuits("false") == [Red, Green, Blue, White, Yellow]
  {
  }

  /** Every short-game suit is also a long-game suit. */
  lemma ShortWithinLong(flag: string)
    ensures forall s :: s in EnabledSuits(flag) ==> s in EnabledSuits("true")
  {
  }

  /** The display order lists the same six suits as `suits` in types.ts. */
  lemma {:induction false} DisplaySuitsArePermutation()
    ensures multiset(DisplaySuits) == multiset(Suits)
  {
    calc {
      multiset(DisplaySuits);
      multiset{Purple, Red, Green, Blue, White, Yellow};
      multiset{Yellow, Blue, White, Green, Red, Purple};
      multiset(Suits);
    }
  }
}
