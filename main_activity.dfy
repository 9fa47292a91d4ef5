/**
 * The activity: resolves whether dark colours are used, renders the landing
 * screen's three theme rows from the stream's current value, and routes a
 * click on a row back into the settings store.
 */
module MainActivity {
  import opened Wrappers
  import opened UserSettings
  import opened UserSettingsStore
  import opened Radio

  /** Names of the string resources that title the three rows. */
  const LightThemeTitle: string := "light_theme"
  const DarkThemeTitle: string := "dark_theme"
  const AutoThemeTitle: string := "auto_theme"

  /** The `when` over the current theme; Auto defers to the system's dark-mode flag. */
  function UseDarkColors(theme: AppTheme, isSystemInDarkTheme: bool): (useDark: bool)
    ensures useDark <==> theme == ModeNight || (theme == ModeAuto && isSystemInDarkTheme)
  {
    match theme
    case ModeAuto => isSystemInDarkTheme
    case ModeDay => false
    case ModeNight => true
  }

  /** The system flag changes the outcome only for Auto. */
  lemma SystemFlagMattersOnlyForAuto(theme: AppTheme)
    ensures UseDarkColors(theme, true) != UseDarkColors(theme, false) <==> theme == ModeAuto
  {
  }

  /** `themeItems`: Day, Night, Auto, each with its theme's ordinal as id. */
  function ThemeItems(): (items: seq<RadioButtonItem>)
    ensures |items| == |Values|
    ensures forall i :: 0 <= i < |items| ==> items[i].id == Ordinal(Values[i])
    ensures DistinctIds(items)
  {
    [ RadioButtonItem(Ordinal(ModeDay), LightThemeTitle),
      RadioButtonItem(Ordinal(ModeNight), DarkThemeTitle),
      RadioButtonItem(Ordinal(ModeAuto), AutoThemeTitle) ]
  }

  /**
   * The rows of `LandingScreen`: the group over `ThemeItems()` with
   * `selectedTheme.ordinal` as selected id. Exactly one row is selected, the
   * current theme's.
   */
  function LandingScreen(selectedTheme: AppTheme): (rows: seq<ItemRow>)
    ensures |rows| == |Values|
    ensures forall i :: 0 <= i < |rows| ==>
      rows[i].item == ThemeItems()[i] && (rows[i].selected <==> Values[i] == selectedTheme)
    ensures CountSelected(rows) == 1
  {
    var items := ThemeItems();
    var selected := Ordinal(selectedTheme);
    assert items[selected].id == selected;
    AtMostOneSelected(items, selected);
    RadioGroup(items, selected)
  }

  /**
   * The group callback `LandingScreen` passes: `id -> onItemSelected(fromOrdinal(id))`,
   * modelled by the decoded theme it hands on (`None` where `fromOrdinal` throws).
   */
  function LandingCallback(): (callback: int -> Option<AppTheme>)
    ensures forall id :: callback(id).Some? <==> 0 <= id < |Values|
    ensures forall id :: callback(id).Some? ==> Ordinal(callback(id).value) == id
  {
    id => FromOrdinal(id)
  }

  /**
   * A click on landing row `k`: the outer `Some` says the group callback ran,
   * the inner value is what reaches `onItemSelected`, the theme of that row.
   */
  function LandingClick(k: int): (selection: Option<Option<AppTheme>>)
    requires 0 <= k < |ThemeItems()|
    ensures selection == Some(Some(Values[k]))
  {
    GroupClick(ThemeItems(), k, Some(LandingCallback()))
  }

  /** Clicking the row of theme `t` hands `t` itself to `onItemSelected`. */
  lemma ClickReportsTheme(t: AppTheme)
    ensures Ordinal(t) < |ThemeItems()|
    ensures LandingClick(Ordinal(t)) == Some(Some(t))
  {
  }

  /** The activity's `onItemSelected`: assigns the store's theme. */
  method OnItemSelected(userSettings: UserSettingsImpl, theme: AppTheme)
    modifies userSettings
    ensures userSettings.themeStream == theme
    ensures userSettings.preferences == PutTheme(old(userSettings.preferences), theme)
    ensures userSettings.Valid()
  {
    userSettings.SetTheme(theme);
  }

  /**
   * A click on landing row `k`, followed through the group and the landing
   * callback into the store. Afterwards the stream holds that row's theme and
   * the re-rendered screen marks row `k`, and only it.
   */
  method ClickLandingRow(userSettings: UserSettingsImpl, k: int)
    requires 0 <= k < |ThemeItems()|
    modifies userSettings
    ensures userSettings.themeStream == Values[k]
    ensures userSettings.preferences == PutTheme(old(userSettings.preferences), Values[k])
    ensures userSettings.Valid()
    ensures forall i :: 0 <= i < |Values| ==> (LandingScreen(userSettings.themeStream)[i].selected <==> i == k)
  {
    var selection := LandingClick(k);
    OnItemSelected(userSettings, selection.value.value);
    ThreeMembers();
  }
}
