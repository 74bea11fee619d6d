/** The current-player selector (src/stores/playerState.ts). */
module PlayerStore {
  import opened Wrappers

  /** `PlayerState`: "Player 1" | "Player 2". */
  datatype PlayerState = Player1 | Player2

  /** The text the atom holds. */
  function Label(p: PlayerState): (t: string)
    ensures t == "Player 1" || t == "Player 2"
    ensures FromLabel(t) == Some(p)
  {
    match p
    case Player1 => "Player 1"
    case Player2 => "Player 2"
  }

  function FromLabel(t: string): (p: Option<PlayerState>)
    ensures p.Some? <==> t == "Player 1" || t == "Player 2"
  {
    if t == "Player 1" then Some(Player1)
    else if t == "Player 2" then Some(Player2)
    else None
  }

  lemma FromLabelSound(t: string)
    ensures FromLabel(t).Some? ==> Label(FromLabel(t).value) == t
  {
  }

  /** `INITIAL_STATE`. */
  const InitialPlayer: PlayerState := Player1

  lemma InitialPlayerLabel()
    ensures Label(InitialPlayer) == "Player 1"
  {
  }

  /** The `playerState` atom. */
  class PlayerAtom {
    var value: PlayerState

    constructor ()
      ensures value == InitialPlayer
    {
      value := InitialPlayer;
    }

    /** `resetPlayer`. */
    method ResetPlayer()
      modifies this
      ensures value == InitialPlayer
    {
      value := InitialPlayer;
    }

    /** `setPlayer`. */
    method SetPlayer(p: PlayerState)
      modifies this
      ensures value == p
    {
      value := p;
    }
  }

  /** Setting a player and resetting, once or twice, always ends at `Player 1`. */
  method ResetAfterSet(atom: PlayerAtom, p: PlayerState)
    modifies atom
    ensures atom.value == InitialPlayer
  {
    atom.SetPlayer(p);
    assert atom.value == p;
    atom.ResetPlayer();
    var first := atom.value;
    atom.ResetPlayer();
    assert atom.value == first == Player1;
  }
}
