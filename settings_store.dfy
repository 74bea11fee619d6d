/** The persisted settings record (src/stores/settingsStore.ts). */
module SettingsStore {

  /** `Settings`: two display names and the long-game flag. */
  datatype Settings = Settings(player1Name: string, player2Name: string, enableLongGame: string)

  datatype SettingKey = Player1Name | Player2Name | EnableLongGame

  /** `INITIAL_SETTINGS`. */
  const InitialSettings := Settings("Player 1", "Player 2", "false")

  /** The flag's type: "true" | "false". */
  predicate IsFlag(v: string)
  {
    v == "true" || v == "false"
  }

  /** The initial record is a short game between "Player 1" and "Player 2". */
  lemma InitialSettingsValues()
    ensures Get(InitialSettings, Player1Name) == "Player 1" && Get(InitialSettings, Player2Name) == "Player 2"
    ensures IsFlag(Get(InitialSettings, EnableLongGame)) && Get(InitialSettings, EnableLongGame) != "true"
  {
  }

  function Get(s: Settings, k: SettingKey): string
  {
    match k
    case Player1Name => s.player1Name
    case Player2Name => s.player2Name
    case EnableLongGame => s.enableLongGame
  }

  /** `{ ...settings, [k]: v }`: one field replaced. */
  function With(s: Settings, k: SettingKey, v: string): (s': Settings)
    ensures Get(s', k) == v
    ensures forall k' :: k' != k ==> Get(s', k') == Get(s, k')
  {
    match k
    case Player1Name => s.(player1Name := v)
    case Player2Name => s.(player2Name := v)
    case EnableLongGame => s.(enableLongGame := v)
  }

  /** A record is determined by its three fields. */
  lemma {:induction false} SettingsExtensional(a: Settings, b: Settings)
    requires forall k :: Get(a, k) == Get(b, k)
    ensures a == b
  {
    assert Get(a, Player1Name) == Get(b, Player1Name);
    assert Get(a, Player2Name) == Get(b, Player2Name);
    assert Get(a, EnableLongGame) == Get(b, EnableLongGame);
  }

  /** Setting a key to the value it already has changes nothing; setting it twice keeps the last. */
  lemma {:induction false} WithLaws(s: Settings, k: SettingKey, v: string, w: string)
    ensures With(s, k, Get(s, k)) == s
    ensures With(With(s, k, v), k, w) == With(s, k, w)
  {
    SettingsExtensional(With(s, k, Get(s, k)), s);
    SettingsExtensional(With(With(s, k, v), k, w), With(s, k, w));
  }

  /** The `settingsStore` persistent map. */
  class SettingsMap {
    var settings: Settings

    ghost predicate Valid()
      reads this
    {
      IsFlag(settings.enableLongGame)
    }

    constructor ()
      ensures Valid() && settings == InitialSettings
    {
      settings := InitialSettings;
    }

    /** `setKey(k, v)`, and SettingsPanel's `set({ ...get(), [k]: v })`. */
    method SetKey(k: SettingKey, v: string)
      requires Valid()
      requires k == EnableLongGame ==> IsFlag(v)
      modifies this
      ensures Valid()
      ensures settings == With(old(settings), k, v)
    {
      settings := With(settings, k, v);
    }

    /** `set(record)`: every field replaced. */
    method SetAll(s: Settings)
      requires IsFlag(s.enableLongGame)
      modifies this
      ensures Valid() && settings == s
    {
      settings := s;
    }

    /** `resetSettings`. */
    method ResetSettings()
      modifies this
      ensures Valid() && settings == InitialSettings
    {
      settings := InitialSettings;
    }
  }

  /** Renaming one player keeps the other name and the flag; reset restores the defaults. */
  method RenameThenReset(store: SettingsMap, name: string)
    requires store.Valid() && store.settings == InitialSettings
    modifies store
    ensures store.Valid() && store.settings == InitialSettings
  {
    store.SetKey(Player1Name, name);
    assert store.settings == Settings(name, "Player 2", "false");
    store.SetAll(Settings(name, "Bob", "false"));
    assert store.settings.player2Name == "Bob";
    store.ResetSettings();
  }
}
