/**
 * The settings store: a preference group holding the theme's ordinal under one
 * key, and the current value of the theme stream that observers collect.
 */
module UserSettingsStore {
  import opened Wrappers
  import opened UserSettings

  /** Name of the private preference group the store opens. */
  const PreferencesName: string := "sample_theme"

  /** Key under which the theme's ordinal is persisted. */
  const ThemeKey: string := "app_theme"

  /** Theme read while nothing is persisted under `ThemeKey`. */
  const DefaultTheme: AppTheme := ModeAuto

  /** `SharedPreferences.getInt(key, defValue)` on the group's contents. */
  function GetInt(prefs: map<string, int>, key: string, defValue: int): (r: int)
    ensures key !in prefs ==> r == defValue
    ensures key in prefs ==> r == prefs[key]
  {
    if key in prefs then prefs[key] else defValue
  }

  /**
   * The delegate's `getValue`: the persisted ordinal (the default theme's
   * ordinal when absent) decoded with `fromOrdinal`. `None` is the throw of
   * `fromOrdinal` on an out-of-range stored value.
   */
  function ThemeIn(prefs: map<string, int>): (r: Option<AppTheme>)
    ensures ThemeKey !in prefs ==> r == Some(DefaultTheme)
    ensures ThemeKey in prefs ==> (r.Some? <==> 0 <= prefs[ThemeKey] < |Values|)
    ensures ThemeKey in prefs && r.Some? ==> Ordinal(r.value) == prefs[ThemeKey]
  {
    FromOrdinal(GetInt(prefs, ThemeKey, Ordinal(DefaultTheme)))
  }

  /** The edit of the delegate's `setValue`: `putInt(ThemeKey, value.ordinal)`. */
  function PutTheme(prefs: map<string, int>, value: AppTheme): (r: map<string, int>)
    ensures r.Keys == prefs.Keys + {ThemeKey}
    ensures r[ThemeKey] == Ordinal(value)
    ensures forall k :: k in prefs && k != ThemeKey ==> r[k] == prefs[k]
  {
    prefs[ThemeKey := Ordinal(value)]
  }

  /** If the theme key is present, its value is an ordinal of some theme. */
  ghost predicate StoredInRange(prefs: map<string, int>)
  {
    ThemeKey in prefs ==> 0 <= prefs[ThemeKey] < |Values|
  }

  /** The getter fails exactly when the persisted value is out of range. */
  lemma ReadableIffInRange(prefs: map<string, int>)
    ensures ThemeIn(prefs).Some? <==> StoredInRange(prefs)
  {
  }

  /** A fresh install, with nothing persisted, reads as Auto. */
  lemma FreshInstallIsAuto()
    ensures ThemeIn(map[]) == Some(ModeAuto)
  {
  }

  /** Reading after writing `v` gives `v`. */
  lemma GetAfterPut(prefs: map<string, int>, v: AppTheme)
    ensures ThemeIn(PutTheme(prefs, v)) == Some(v)
  {
  }

  /** A write leaves the persisted value in range, whatever was stored before. */
  lemma PutKeepsInRange(prefs: map<string, int>, v: AppTheme)
    ensures StoredInRange(PutTheme(prefs, v))
  {
  }

  /** Writing the same theme twice leaves the same preferences as writing it once. */
  lemma PutIdempotent(prefs: map<string, int>, v: AppTheme)
    ensures PutTheme(PutTheme(prefs, v), v) == PutTheme(prefs, v)
  {
  }

  /** Of two writes, the last one decides what is persisted. */
  lemma LastPutWins(prefs: map<string, int>, u: AppTheme, v: AppTheme)
    ensures PutTheme(PutTheme(prefs, u), v) == PutTheme(prefs, v)
  {
  }

  /**
   * `UserSettingsImpl`: `preferences` is the content of the "sample_theme"
   * group and `themeStream` the current value of the theme's state flow.
   */
  class UserSettingsImpl {
    var preferences: map<string, int>
    var themeStream: AppTheme

    /** The stream agrees with what the getter reads from the preferences. */
    ghost predicate Valid()
      reads this
    {
      ThemeIn(preferences) == Some(themeStream)
    }

    /**
     * Opens the store on the group's persisted contents and seeds the stream
     * from the getter, as `init` does.
     */
    constructor (stored: map<string, int>)
      requires StoredInRange(stored)
      ensures Valid()
      ensures preferences == stored
      ensures ThemeKey !in stored ==> themeStream == DefaultTheme
      ensures ThemeKey in stored ==> Ordinal(themeStream) == stored[ThemeKey]
    {
      preferences := stored;
      new;
      themeStream := Theme().value;
    }

    /**
     * Constructing the store on any persisted contents: `init` calls the
     * getter, which throws on an out-of-range stored value, so construction
     * fails (`None`) exactly then.
     */
    static method Open(stored: map<string, int>) returns (store: Option<UserSettingsImpl>)
      ensures store.Some? <==> StoredInRange(stored)
      ensures store.Some? ==> fresh(store.value) && store.value.Valid()
      ensures store.Some? ==> store.value.preferences == stored
    {
      if ThemeIn(stored).Some? {
        ReadableIffInRange(stored);
        var s := new UserSettingsImpl(stored);
        store := Some(s);
      } else {
        ReadableIffInRange(stored);
        store := None;
      }
    }

    /** The `theme` getter: the persisted theme. */
    function Theme(): (r: Option<AppTheme>)
      reads this
      ensures r.Some? <==> StoredInRange(preferences)
      ensures Valid() ==> r == Some(themeStream)
    {
      ThemeIn(preferences)
    }

    /**
     * The `theme` setter: assigns the stream's value, then writes the ordinal
     * under `ThemeKey`; no other key changes.
     */
    method SetTheme(value: AppTheme)
      modifies this
      ensures themeStream == value
      ensures preferences == PutTheme(old(preferences), value)
      ensures Valid()
      ensures Theme() == Some(value)
    {
      themeStream := value;
      preferences := PutTheme(preferences, value);
    }
  }
}
