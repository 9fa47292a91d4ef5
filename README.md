# Theme switcher: a Dafny model

A model of a small Android theme switcher. The user picks Day, Night or Auto
from a radio group. The choice is persisted as the enum's ordinal under the
key `"app_theme"` of the private preference group `"sample_theme"`. It is
also published as the current value of a theme stream, which the activity
reads to pick dark or light colours and to mark the selected row.

Modules, one per source file:

- `UserSettings` (`settings/UserSettings.kt`): the `AppTheme` enum as a
  datatype, `values()` as `Values`, `Ordinal`, and `FromOrdinal`. The
  source's `fromOrdinal` indexes `values()` and throws outside 0..2; here that
  outcome is `None`.
- `UserSettingsStore` (`settings/UserSettingsImpl.kt`): class
  `UserSettingsImpl`. The field `preferences: map<string, int>` holds the
  preference group's contents, and the field `themeStream` holds the stream's
  current value. The property delegate becomes an explicit getter (`Theme`,
  over the pure `ThemeIn`) and setter (`SetTheme`, whose edit is `PutTheme`).
  `Valid()` states that the stream agrees with the persisted value.
- `Radio` (`RadioGroup.kt`): `RadioButtonItem`, the rows the group renders
  and their selected flags, and the click dispatch through the row's
  `selectable` and the group's handler. A nullable callback is
  `Option<int -> E>`, and a click's effect is modelled by the value the
  callback yields.
- `MainActivity` (`MainActivity.kt`): dark-colour resolution, the three
  landing items, the landing rows for the current theme, the decoding of a
  clicked id, and the `onItemSelected` assignment into the store.
- `Wrappers`: `Option`.

Where the code may surprise:

- An out-of-range persisted ordinal is not replaced by a default. The getter
  throws, because `fromOrdinal` indexes past `values()`; `ThemeIn` returns
  `None` for it.
- The setter assigns the stream value first and writes the preference second.

## Model

| member | source | states |
|---|---|---|
| UserSettings.Ordinal | app/src/main/java/com/francescsoftware/themeswitcher/settings/UserSettings.kt:5-8 | the ordinal is in 0..2 and is the member's position in `values()` |
| UserSettings.FromOrdinal | app/src/main/java/com/francescsoftware/themeswitcher/settings/UserSettings.kt:11 | decoding succeeds iff 0 <= i < 3, and the decoded theme has ordinal i |
| UserSettings.ThreeMembers | app/src/main/java/com/francescsoftware/themeswitcher/settings/UserSettings.kt:5-8 | exactly three distinct members, with ordinals Day = 0, Night = 1, Auto = 2 (every theme is among them by `Ordinal`) |
| UserSettings.OrdinalInjective | app/src/main/java/com/francescsoftware/themeswitcher/settings/UserSettings.kt:5-8 | two themes have the same ordinal iff they are equal |
| UserSettings.FromOrdinalOfOrdinal | app/src/main/java/com/francescsoftware/themeswitcher/settings/UserSettings.kt:11 | `fromOrdinal(t.ordinal) == t` for every theme |
| UserSettings.OrdinalOfFromOrdinal | app/src/main/java/com/francescsoftware/themeswitcher/settings/UserSettings.kt:11 | `fromOrdinal(i).ordinal == i` for every i in 0..2 |
| UserSettings.FromOrdinalOutOfRange | app/src/main/java/com/francescsoftware/themeswitcher/settings/UserSettings.kt:11 | every i outside 0..2 fails to decode |
| UserSettingsStore.GetInt | app/src/main/java/com/francescsoftware/themeswitcher/settings/UserSettingsImpl.kt:32 | `getInt(name, default)` yields the default when the key is absent and the stored value when it is present |
| UserSettingsStore.ThemeIn | app/src/main/java/com/francescsoftware/themeswitcher/settings/UserSettingsImpl.kt:31-32 | with no `app_theme` key the getter reads Auto; with the key it succeeds iff the value is in 0..2, and then yields the theme with that ordinal |
| UserSettingsStore.PutTheme | app/src/main/java/com/francescsoftware/themeswitcher/settings/UserSettingsImpl.kt:36-38 | the write adds or overwrites key `app_theme` with the ordinal; every other key keeps its value |
| UserSettingsStore.ReadableIffInRange | app/src/main/java/com/francescsoftware/themeswitcher/settings/UserSettingsImpl.kt:32 | the getter fails exactly when a present `app_theme` value is out of range |
| UserSettingsStore.FreshInstallIsAuto | app/src/main/java/com/francescsoftware/themeswitcher/settings/UserSettingsImpl.kt:17 | on empty preferences the getter returns Auto |
| UserSettingsStore.GetAfterPut | app/src/main/java/com/francescsoftware/themeswitcher/settings/UserSettingsImpl.kt:31-38 | reading after writing v returns v |
| UserSettingsStore.PutKeepsInRange | app/src/main/java/com/francescsoftware/themeswitcher/settings/UserSettingsImpl.kt:37 | after a write the `app_theme` value is in range, whatever was stored before |
| UserSettingsStore.PutIdempotent | app/src/main/java/com/francescsoftware/themeswitcher/settings/UserSettingsImpl.kt:34-38 | writing a theme twice leaves the same preferences as writing it once |
| UserSettingsStore.LastPutWins | app/src/main/java/com/francescsoftware/themeswitcher/settings/UserSettingsImpl.kt:34-38 | of two writes, the later alone decides the preferences |
| UserSettingsStore.UserSettingsImpl.Open | app/src/main/java/com/francescsoftware/themeswitcher/settings/UserSettingsImpl.kt:22-24 | construction on any persisted contents fails exactly when a present `app_theme` value is out of range (the getter in `init` throws); otherwise the store holds those contents and is valid |
| UserSettingsStore.UserSettingsImpl.constructor | app/src/main/java/com/francescsoftware/themeswitcher/settings/UserSettingsImpl.kt:22-24 | the store keeps the persisted contents and seeds the stream from the getter (Auto when nothing is stored), so stream and preferences agree |
| UserSettingsStore.UserSettingsImpl.Theme | app/src/main/java/com/francescsoftware/themeswitcher/settings/UserSettingsImpl.kt:31-32 | the getter succeeds iff the stored value is in range; in a valid store it equals the stream's value |
| UserSettingsStore.UserSettingsImpl.SetTheme | app/src/main/java/com/francescsoftware/themeswitcher/settings/UserSettingsImpl.kt:34-39 | afterwards the stream holds v, only `app_theme` changed (to v's ordinal), stream and preferences agree, and the getter returns v |
| Radio.RadioGroup | app/src/main/java/com/francescsoftware/themeswitcher/RadioGroup.kt:42-49 | one row per item in input order; a row is selected iff its item's id equals the selected id |
| Radio.ItemClick | app/src/main/java/com/francescsoftware/themeswitcher/RadioGroup.kt:62-64 | the row's click reaches its handler iff there is one, and passes the item's id |
| Radio.RowHandler | app/src/main/java/com/francescsoftware/themeswitcher/RadioGroup.kt:46 | the handler the group gives each row ignores its argument and invokes the group callback with that row's item id, or does nothing when there is no callback |
| Radio.GroupClick | app/src/main/java/com/francescsoftware/themeswitcher/RadioGroup.kt:46 | clicking row k invokes the group callback with that item's id; with no callback the click has no effect |
| Radio.AtMostOneSelected | app/src/main/java/com/francescsoftware/themeswitcher/RadioGroup.kt:45 | with distinct ids, the number of selected rows is 1 if the selected id is among the items' ids, 0 otherwise |
| MainActivity.UseDarkColors | app/src/main/java/com/francescsoftware/themeswitcher/MainActivity.kt:45-49 | dark colours iff the theme is Night, or it is Auto and the system is in dark mode |
| MainActivity.SystemFlagMattersOnlyForAuto | app/src/main/java/com/francescsoftware/themeswitcher/MainActivity.kt:45-49 | the system flag changes the outcome iff the theme is Auto |
| MainActivity.ThemeItems | app/src/main/java/com/francescsoftware/themeswitcher/MainActivity.kt:68-81 | three items, in the order Day, Night, Auto, with their themes' ordinals as ids, which are distinct |
| MainActivity.LandingScreen | app/src/main/java/com/francescsoftware/themeswitcher/MainActivity.kt:93-95 | three rows over the theme items; a row is selected iff it is the current theme's, and exactly one row is selected |
| MainActivity.LandingCallback | app/src/main/java/com/francescsoftware/themeswitcher/MainActivity.kt:96 | the landing callback decodes a clicked id: it hands on a theme exactly for ids 0..2, and that theme has the clicked id as ordinal |
| MainActivity.LandingClick | app/src/main/java/com/francescsoftware/themeswitcher/MainActivity.kt:96 | clicking landing row k hands the theme of that row (decoded from its id) to `onItemSelected`, and the decoding does not fail |
| MainActivity.ClickReportsTheme | app/src/main/java/com/francescsoftware/themeswitcher/MainActivity.kt:96 | clicking the row of theme t hands t itself to `onItemSelected` |
| MainActivity.OnItemSelected | app/src/main/java/com/francescsoftware/themeswitcher/MainActivity.kt:54 | selecting t assigns it to the store: the stream holds t, the preferences hold t's ordinal, and the store stays valid |
| MainActivity.ClickLandingRow | app/src/main/java/com/francescsoftware/themeswitcher/MainActivity.kt:54 | a click on row k, carried through the group, the decoding and the setter, leaves the stream at that row's theme, and the re-rendered screen marks row k and only it |

## Left out

- UserSettingsImpl.constructor: requires the persisted value to be in range. The source's `init` would throw there; `UserSettingsImpl.Open` models that case by returning `None`.
- The real `SharedPreferences` I/O. The `"sample_theme"` group is the map field, and its name is the constant `PreferencesName`. The asynchronous commit of `edit {}`, storage failures, and a non-integer value stored under the key are not modelled.
- `MutableStateFlow` subscription, `collectAsState` recomposition, and collectors. The stream is its single current value. Which emissions a subscriber sees, and the conflation of equal values, are not modelled.
- `isSystemInDarkTheme()` is an input boolean.
- Hilt wiring (`SettingsModule.kt`), `@Inject`, `@AndroidEntryPoint`, and the singleton scope. This is plumbing with no behaviour.
- The property-delegate and reflection mechanics of `ReadWriteProperty` and `KProperty`. They are replaced by an explicit getter and setter.
- Compose layout, modifiers, sizes, typography, the sample button, and the `@Preview` functions. This is presentation only.
- String resources. A row's title is the name of its resource, not the text it resolves to.
- The moment between the setter's two assignments, when the stream already holds the new value but the preference does not. Nothing can observe it in this sequential model.
