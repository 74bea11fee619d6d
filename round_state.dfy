/** The current-round selector (src/stores/roundState.ts). */
module RoundStore {
  import opened Wrappers

  /** `RoundState`: "Round 1" | "Round 2" | "Round 3". */
  datatype RoundState = Round1 | Round2 | Round3

  /** The text the atom holds. */
  function Label(r: RoundState): (t: string)
    ensures t == "Round 1" || t == "Round 2" || t == "Round 3"
    ensures FromLabel(t) == Some(r)
  {
    match r
    case Round1 => "Round 1"
    case Round2 => "Round 2"
    case Round3 => "Round 3"
  }

  function FromLabel(t: string): (r: Option<RoundState>)
    ensures r.Some? <==> t == "Round 1" || t == "Round 2" || t == "Round 3"
  {
    if t == "Round 1" then Some(Round1)
    else if t == "Round 2" then Some(Round2)
    else if t == "Round 3" then Some(Round3)
    else None
  }

  lemma FromLabelSound(t: string)
    ensures FromLabel(t).Some? ==> Label(FromLabel(t).value) == t
  {
  }

  /** `INITIAL_STATE`. */
  const InitialRound: RoundState := Round1

  lemma InitialRoundLabel()
    ensures Label(InitialRound) == "Round 1"
  {
  }

  /** The `roundState` atom. */
  class RoundAtom {
    var value: RoundState

    constructor ()
      ensures value == InitialRound
    {
      value := InitialRound;
    }

    /** `resetRound`. */
    method ResetRound()
      modifies this
      ensures value == InitialRound
    {
      value := InitialRound;
    }

    /** `setRound`. */
    method SetRound(r: RoundState)
      modifies this
      ensures value == r
    {
      value := r;
    }
  }

  /** Setting a round and resetting, once or twice, always ends at `Round 1`. */
  method ResetAfterSet(atom: RoundAtom, r: RoundState)
    modifies atom
    ensures atom.value == InitialRound
  {
    atom.SetRound(r);
    assert atom.value == r;
    atom.ResetRound();
    var first := atom.value;
    atom.ResetRound();
    assert atom.value == first == Round1;
  }
}
