# NadinSoft task app: the client-side stores

This project models the state layer of a small Vue task app. The layer is four
Pinia stores, each holding one value in memory and mirroring it into the
browser's string-keyed local storage:

| store | in memory | storage key |
|---|---|---|
| todo store | an ordered list of items `{id, text, isDone}`, newest first | `todoList` |
| notification store | a live list of notifications and an id counter | none |
| settings store | one record `{name, theme, locale}` | `userSettings` |
| weather-city store | the saved city, or none | `weather_store_city` |

Modules:

- `Text` models JavaScript's `String.prototype.trim` over the fixed ECMAScript
  whitespace set.
- `Sequences` models `Array.prototype.filter`.
- `Types` holds the shared records.
- `Storage` models local storage as a class holding a `map<string, Stored>`.
  A stored entry is the value a store wrote, the empty string, or `Corrupt` (text `JSON.parse` rejects).
- `Todos`, `Notifications`, `Settings` and `Weather` each model one store as a class.
  Each class's methods modify its fields, and the stores share a `LocalStorage` object.
- `Isolation` proves that each store's storage writes leave the other stores' loads unchanged.

The todo store keeps its items as objects of a class `TodoItem`, because toggle
and edit assign the fields of the item that is found. The store's methods are
proved against functions on plain records: `Added`, `RemoveId`, `Toggled` and
`Edited`. The lemmas about those functions state what each action promises.

Vue's deep watchers (`todos.ts`, `settings.ts`) are modelled as an explicit write
at the end of each method. A write happens exactly when the watcher would see a change:

| action | writes storage |
|---|---|
| blank add | no |
| add of any other text | yes |
| remove | always, because a new array is assigned, even if nothing matched |
| toggle of an absent id | no |
| edit that is a no-op or sets the text the item already has | no |
| any other toggle or edit | yes |
| settings update | only if the record actually changes |

The clock (`Date.now()`) is a parameter of `AddTodo`. The removal timer of a
notification is the explicit step `Expire(id)`, which may run for any id whose
timer is pending.

## Model

| member | source | states |
|---|---|---|
| Text.TrimStart | src/stores/todos.ts:30 | the result is the suffix of the input after its leading whitespace, and it does not start with whitespace |
| Text.TrimEnd | src/stores/todos.ts:30 | the result is the prefix of the input before its trailing whitespace, and it does not end with whitespace |
| Text.Trim | src/stores/todos.ts:35 | `trim()` is no longer than its input and has no whitespace at either end |
| Text.TrimFrames | src/stores/todos.ts:30-35 | the trim is a slice of the input with only whitespace outside it; it is empty exactly when the input is all whitespace |
| Text.TrimFixed | src/stores/todos.ts:35 | a string with no edge whitespace is its own trim |
| Text.TrimIdempotent | src/stores/todos.ts:58 | trimming an already trimmed text changes nothing |
| Text.IsBlank | src/stores/todos.ts:30 | `!text.trim()`: blank exactly when the trim is empty; `Text.TrimFrames` proves that this is exactly when the text is all whitespace |
| Sequences.Filter | src/stores/todos.ts:43 | `filter` keeps exactly the elements that pass the test and is never longer than its input |
| Sequences.FilterConcat | src/stores/todos.ts:43 | filtering distributes over concatenation, so kept elements keep their relative order |
| Sequences.FilterIdempotent | src/stores/notification.ts:23 | filtering twice with the same test is filtering once |
| Sequences.FilterKeepsAll | src/stores/notification.ts:23 | a filter that every element passes returns the list unchanged |
| Storage.LocalStorage.SetItem | src/stores/todos.ts:66 | `localStorage.setItem`: the key now holds the value and every other key is as before |
| Storage.LocalStorage.RemoveItem | src/stores/weather.ts:31 | `localStorage.removeItem`: the key is gone and every other key is as before |
| Storage.Present | src/stores/todos.ts:11-12 | definition of `getItem` tested with `if (stored)`: a missing key and the empty string read as nothing, any other entry as itself; the loaders' `LoadPersisted`/`LoadFallback` lemmas state the consequences |
| Todos.LoadTodos | src/stores/todos.ts:10-22 | definition of `loadTodos`: the stored list, or `[]` for a missing key, the empty string or unparseable text; `Todos.LoadPersisted` and `Todos.LoadFallback` state both cases |
| Todos.Added | src/stores/todos.ts:29-39 | definition of `addTodo` on records; `Todos.AddedFront` states what it does |
| Todos.RemoveId | src/stores/todos.ts:42-44 | definition of `removeTodo` on records as a `Filter`; the `Todos.RemoveId*` lemmas state what it keeps, its order, idempotence and length |
| Todos.Toggled | src/stores/todos.ts:47-52 | definition of `toggleTodo` on records; `Todos.ToggledChanges` and `Todos.ToggledTwice` state what it does |
| Todos.Edited | src/stores/todos.ts:55-60 | definition of `editTodo` on records; `Todos.EditedChanges` and `Todos.EditedIdempotent` state what it does |
| Todos.Find | src/stores/todos.ts:48 | `find` returns the first index whose item has the id, and nothing exactly when no item has it |
| Todos.AddedFront | src/stores/todos.ts:29-39 | a blank text leaves the list unchanged; otherwise the list grows by one, the new head is `{now, trim(text), false}` with non-empty trimmed text, and the old list follows in order |
| Todos.RemoveIdMembers | src/stores/todos.ts:42-44 | remove keeps exactly the items whose id differs |
| Todos.RemoveIdOrder | src/stores/todos.ts:43 | remove distributes over concatenation, so the kept items stay in their relative order |
| Todos.RemoveIdIdempotent | src/stores/todos.ts:42-44 | removing the same id twice is removing it once |
| Todos.RemoveIdAbsent | src/stores/todos.ts:42-44 | removing an id no item carries changes nothing |
| Todos.RemoveIdLength | src/stores/todos.ts:43 | remove shortens the list by the number of items carrying the id |
| Todos.FindSameIds | src/stores/todos.ts:48 | lists with the same ids in the same places find the same index |
| Todos.ToggledChanges | src/stores/todos.ts:47-52 | toggle keeps length, ids and texts, and changes a flag exactly at the first item with that id |
| Todos.ToggledTwice | src/stores/todos.ts:47-52 | toggling the same id twice restores the list |
| Todos.EditedChanges | src/stores/todos.ts:55-60 | edit is a no-op if no item matches or the text is blank; otherwise only the first match's text changes, to the trimmed text, and ids and flags stay |
| Todos.EditedIdempotent | src/stores/todos.ts:55-60 | editing twice with the same text is editing once |
| Todos.LengthChanges | src/stores/todos.ts:38-58 | only add (+1 for a text that is not blank) and remove (minus the matches) change the length; toggle and edit keep it |
| Todos.LoadPersisted | src/stores/todos.ts:10-22 | the list written under "todoList" is the list that loads back |
| Todos.LoadFallback | src/stores/todos.ts:10-22 | a missing key, an empty string or unparseable text loads as the empty list |
| Todos.TodoItem.constructor | src/stores/todos.ts:32-37 | a new item object carries exactly the given id, text and flag |
| Todos.View | src/stores/todos.ts:66 | the list of item objects as records, one per object |
| Todos.Remaining | src/stores/todos.ts:43 | the filtered list holds only objects of the original list |
| Todos.RemainingView | src/stores/todos.ts:43 | filtering the objects by id gives the records `RemoveId` specifies |
| Todos.RemainingDistinct | src/stores/todos.ts:43 | the filtered list holds no object twice when the original did not |
| Todos.TodoStore.constructor | src/stores/todos.ts:26 | the store starts with one fresh, unshared object per loaded record, in the stored order |
| Todos.TodoStore.Persist | src/stores/todos.ts:63-69 | the watcher writes the whole current list under "todoList" and nothing else; afterwards a reload gives the list |
| Todos.NewItems | src/stores/todos.ts:15 | the parsed array's objects: one fresh, unshared object per record, whose records are exactly the input in order |
| Todos.TodoStore.Prepend | src/stores/todos.ts:38 | `unshift` of a new object: a fresh object is at the front, the old objects follow unchanged, and so do their records |
| Todos.TodoStore.SetText | src/stores/todos.ts:58 | the assignment `todo.text = …` on the object at one position: the same objects stay, and only that record's text changes |
| Todos.TodoStore.AddTodo | src/stores/todos.ts:29-39 | the list becomes `Added(old list, text, now)`; a blank text keeps the same objects, and any other text puts one fresh object in front of the old objects; storage is written exactly when the text is not blank; a saved list stays saved |
| Todos.TodoStore.RemoveTodo | src/stores/todos.ts:42-44 | the objects become exactly the surviving objects of the old list, and the records become `RemoveId(old list, id)`; the list is always written, so it is saved afterwards |
| Todos.TodoStore.ToggleTodo | src/stores/todos.ts:47-52 | the same objects stay and the records become `Toggled(old list, id)`, flipping the found object's flag in place; storage is written exactly when an item has the id |
| Todos.TodoStore.EditTodo | src/stores/todos.ts:55-60 | the same objects stay and the records become `Edited(old list, id, text)`, changing the found object's text in place; storage is written exactly when the list changed |
| Notifications.Dismissed | src/stores/notification.ts:22-24 | definition of `remove` on the list as a `Filter`; the `Notifications.Dismissed*` lemmas state what it keeps and that it keeps the order |
| Notifications.NotificationStore.Valid | src/stores/notification.ts:13-23 | the store invariant: the counter is not negative, ids ascend strictly along the list, every id and every pending timer is between 1 and the counter, and every entry with a positive timeout has its timer pending; `Add`, `Remove` and `Expire` keep it |
| Notifications.DismissedMembers | src/stores/notification.ts:22-24 | remove keeps exactly the notifications with another id |
| Notifications.DismissedIdempotent | src/stores/notification.ts:22-24 | removing twice is removing once |
| Notifications.DismissedAbsent | src/stores/notification.ts:22-24 | removing an id that is no longer present, for example after its timer fired, changes nothing |
| Notifications.DismissedAscending | src/stores/notification.ts:23 | removal keeps the list sorted strictly ascending by id |
| Notifications.NotificationStore.constructor | src/stores/notification.ts:13-14 | the store starts with no notifications, counter 0 and no timers |
| Notifications.NotificationStore.Add | src/stores/notification.ts:16-20 | the counter goes up by one; its new value, larger than every earlier id and not a pending timer, is the id of the one entry appended at the end; a timer is scheduled exactly when the timeout is positive; the default timeout is 3500; the ascending-ids invariant is kept |
| Notifications.NotificationStore.Remove | src/stores/notification.ts:22-24 | the list becomes the filtered list; the counter and timers stay; the invariant is kept |
| Notifications.NotificationStore.Expire | src/stores/notification.ts:19 | a pending timer firing is exactly `remove(id)`, and that timer is spent |
| Notifications.NotificationStore.AddTodo | src/stores/notification.ts:26 | appends one 'add' notification with the default timeout |
| Notifications.NotificationStore.EditTodo | src/stores/notification.ts:27 | appends one 'edit' notification with the default timeout |
| Notifications.NotificationStore.CompleteTodo | src/stores/notification.ts:28 | appends one 'complete' notification with the default timeout |
| Notifications.NotificationStore.ReopenTodo | src/stores/notification.ts:29 | appends one 'reopen' notification with the default timeout |
| Notifications.NotificationStore.DeleteTodo | src/stores/notification.ts:30 | appends one 'delete' notification with the default timeout |
| Notifications.NotificationStore.UpdateName | src/stores/notification.ts:31 | appends one 'name' notification with the default timeout |
| Notifications.NotificationStore.ChangeLocale | src/stores/notification.ts:32 | appends one 'locale' notification with the default timeout |
| Notifications.NotificationStore.ChangeTheme | src/stores/notification.ts:33 | appends one 'theme_light' notification for light and one 'theme_dark' notification otherwise |
| Notifications.NotificationStore.SaveCity | src/stores/notification.ts:34 | appends one 'city' notification with the default timeout |
| Notifications.NotificationStore.Error | src/stores/notification.ts:35 | appends one 'error' notification with timeout 5000 |
| Settings.DefaultSettings | src/stores/settings.ts:9-13 | `DEFAULT_SETTINGS`: `{name:'User', theme:'light', locale:'en'}` |
| Settings.LoadSettings | src/stores/settings.ts:19-30 | definition of `loadSettings`: the stored record, or the defaults for a missing key, the empty string or unparseable text; `Settings.LoadPersisted` and `Settings.LoadFallback` state both cases |
| Settings.Flipped | src/stores/settings.ts:79 | the toggled theme always differs from the current one |
| Settings.FlippedTwice | src/stores/settings.ts:77-82 | flipping twice gives the theme back |
| Settings.LoadPersisted | src/stores/settings.ts:19-30 | the record written under "userSettings" is the record that loads back |
| Settings.LoadFallback | src/stores/settings.ts:9-30 | a missing key, an empty string or unparseable text loads as `{name:'User', theme:'light', locale:'en'}` |
| Settings.SettingsStore.constructor | src/stores/settings.ts:38 | the store starts with the loaded record |
| Settings.SettingsStore.UserName | src/stores/settings.ts:43 | definition of the `userName` getter, the record's name; `UpdateName`, `UpdateTheme`, `UpdateLocale` and `ToggleTheme` state its new value |
| Settings.SettingsStore.CurrentTheme | src/stores/settings.ts:44 | definition of the `currentTheme` getter, the record's theme; the update methods state its new value |
| Settings.SettingsStore.CurrentLocale | src/stores/settings.ts:45 | definition of the `currentLocale` getter, the record's locale; the update methods state its new value |
| Settings.SettingsStore.Assign | src/stores/settings.ts:87-94 | the record is installed; the watcher writes it exactly when it differs from the old one; a saved record stays saved |
| Settings.SettingsStore.UpdateName | src/stores/settings.ts:55-57 | the name becomes exactly the argument, untrimmed; theme and locale stay; storage is written exactly when the name changes |
| Settings.SettingsStore.UpdateTheme | src/stores/settings.ts:63-65 | only the theme changes; storage is written exactly when it changes |
| Settings.SettingsStore.UpdateLocale | src/stores/settings.ts:71-73 | only the locale changes; storage is written exactly when it changes |
| Settings.SettingsStore.ToggleTheme | src/stores/settings.ts:77-82 | light becomes dark and dark becomes light; name and locale stay; the record is always written, so it is saved afterwards |
| Settings.ToggleTwice | src/stores/settings.ts:77-82 | toggling twice restores the whole record |
| Weather.LoadState | src/stores/weather.ts:13-23 | definition of `loadState`: the stored city, or none for a missing key, the empty string or unparseable text; `Weather.SaveState` and `Weather.LoadFallback` state both cases |
| Weather.SaveState | src/stores/weather.ts:26-36 | a city is written under "weather_store_city" and none removes the key; afterwards the key loads back the argument |
| Weather.LoadFallback | src/stores/weather.ts:13-23 | a missing key, an empty string or unparseable text loads as no city |
| Weather.SaveTouchesOnlyCityKey | src/stores/weather.ts:28-32 | a save leaves every other key, its presence and its value as they were |
| Weather.WeatherStore.constructor | src/stores/weather.ts:40 | the store starts with the loaded city |
| Weather.WeatherStore.GetSavedCity | src/stores/weather.ts:54 | definition of the `getSavedCity` getter, the saved city; `SaveWeatherCity` and `SaveThenReload` state its value after a save |
| Weather.WeatherStore.SaveWeatherCity | src/stores/weather.ts:46-50 | the saved city becomes the argument; the key is set for a city and removed for none, and loads back the argument |
| Weather.SaveThenReload | src/stores/weather.ts:13-50 | saving a city or none and then creating the store again from the same storage gives back that value |
| Isolation.TodoWriteIsolated | src/stores/todos.ts:66 | writing the todo list changes neither the settings nor the city that load |
| Isolation.SettingsWriteIsolated | src/stores/settings.ts:91 | writing the settings changes neither the todo list nor the city that load |
| Isolation.CityWriteIsolated | src/stores/weather.ts:29-31 | setting or removing the city changes neither the todo list nor the settings that load |

## Left out

- JSON text: serialisation is abstracted. A key holds the value a store wrote, the
  empty string, or `Corrupt` for text that does not parse.
- Other shapes: the loaders cast the parsed value without checking it.
  Well-formed JSON of another shape (`null`, a number, another store's record) is
  loaded as that value by the source. The model loads it as the fallback.
- Extra stored fields: fields beyond the declared ones (for example a stored
  `memberSince`) would survive a load in the source. They are not representable here.
- Storage exceptions: every `localStorage` access is modelled as succeeding.
  A throwing `setItem` or `removeItem` (quota, private mode) is not modelled, and
  neither is the write `try`/`catch` in `weather.ts` (lines 27-35).
- Read exceptions: a throwing `getItem` is not modelled either, and the stores
  would differ there. `loadState` reads inside its `try` (weather.ts:14-21), so
  its error is caught and the store starts with no city. `loadTodos`
  (todos.ts:11) and `loadSettings` (settings.ts:20) read outside their `try`, so
  the error escapes and creating the store fails. `Todos.LoadTodos`,
  `Settings.LoadSettings` and `Weather.LoadState` assume every read succeeds.
- Timing: timer delays and the order in which timers fire. `Expire` may run for
  any pending id at any point.
- The clock: `Date.now()` is the parameter `now`.
- Id uniqueness: todo ids are not claimed unique, because two adds in the same
  millisecond share an id. The functions handle duplicate ids as the source does:
  toggle and edit act on the first match, and remove drops every match.
- Logging: `console.log` and `console.error` are left out.
- Reactivity: Vue's `ref`, `computed` and deep `watch` and Pinia's `defineStore`
  are replaced by classes with an explicit write at the end of each mutating method.
- Numbers: JavaScript's double precision for ids and the counter (above 2^53) is not modelled.
  Integers are unbounded.
- Notification timeouts: a timeout is a JavaScript number in the source
  (notification.ts:9, 16) but an `int` here. A fractional timeout between 0 and 1
  still schedules a timer in the source, and the model cannot express it.
- Coordinates: the city's latitude and longitude are opaque values and are never
  compared numerically.
- Aliasing: the model does not capture components that hold references to the
  item objects and see their in-place updates.
- Settings.LoadFallback: the fallback is stated as the fixed record `{User, light, en}`,
  but in the source `loadSettings` returns the module's `DEFAULT_SETTINGS` object
  itself (settings.ts:26, 29). `ref` wraps that same object (settings.ts:38), so
  the update actions assign the fields of the default (settings.ts:56, 64, 72). A
  second store created in the same module instance with no stored record, for
  example under a second Pinia, would load the updated values, not the original
  defaults. The app creates one Pinia and one settings store, so it never loads
  the fallback after an update. The model does not capture this sharing.
- Ill-typed stored values: a stored theme other than light or dark is not modelled,
  because `Theme` has exactly two values.
- Unimplemented features: the settings record has no `memberSince` field and no
  name trimming, the todo store has no duplicate-text rejection, `clearAllTodos`
  or `updateTodo`, `addTodo` returns nothing, and the theme notification is not
  suppressed when the theme is unchanged. The code has none of them and uses
  the default name `'User'`.
