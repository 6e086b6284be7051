# Grazing-session records of the drone-herding app, modelled in Dafny

This project models the part of the React Native app that holds state. That part is
the on-device list of grazing sessions, plus the small per-screen state
machines that read and rewrite it. The app is single-threaded: each handler reads
values from the key-value store, edits a copy of the list and writes the list back whole.
The model turns each screen into a class whose fields are the screen's state. Each
handler becomes a method whose contract gives the new screen state and the new store
contents. The store is a class with one optional slot per key, and the JSON text is
replaced by datatypes.

- `Storage`: `Record` (animal, quantity, duration, location, droneID, shepherdIDs) and
  `User` (email, password, name). `IoOutcome` says whether an awaited storage call
  resolves or rejects. `Store` has the slots `grazingList`, `userData` and `language`.
  It also has `grazingData`, a key the start screen reads and no screen writes.
- `Language`: the en/ua toggle, the flag picked for a language, and the JavaScript
  `saved || fallback` on a stored value.
- `Home` (app/home.tsx): mount-time loading and edit mode on a copy of one record.
  It covers the field handlers, the two mutually exclusive dropdowns, save (replace
  one position and write the list) and delete (filter one position out and write the list).
  `HomeScreen.Valid()` is what every handler keeps. At most one dropdown is open.
  Edit mode has both an index and a copy. Nothing is edited while loading.
  `HomeScreen.EditsCurrent()` says more: the edit index is in range, and the copy
  differs from the record at that index only in animal, quantity or duration. Every
  handler keeps `EditsCurrent()`, except delete in the cases where the code leaves
  a stale index behind (see Findings).
- `CreateGrazing` (app/createGrazing.tsx): the rule for the back button's destination
  and the shepherd-slot editor. It also covers JavaScript's `trim` and the blank-entry
  filter, and the Next button, which appends the new record to the stored list.
- `CreateTeam` (app/createTeam.tsx): the same slot editor. Its Next payload keeps
  blank slots. No screen reads that payload: app/createGrazing.tsx never looks at its
  route parameters.
- `Start` (app/start.tsx): the language toggle and the log-in routing decision.
- `Name` (app/name.tsx): the one-time copy of the route parameters, and account creation.
  Account creation removes the session list, writes the user record and then navigates.
- `Scenarios`: flows across screens on one store, proved from the screens'
  contracts alone. `CreateOne` submits one filled-in form. `CreateEditDelete` builds
  on it to edit and delete that session. `SignUpCreateLogIn` creates an account, saves
  a session and logs in. `EditFirstOfTwo` stores two sessions and edits the first.
  `RejectedDeleteThenSave` and `RejectedDeleteThenSaveIntended` build on it: a delete
  whose write rejects, then a save, with the handler as written and as intended.

Two behaviours one might expect differ from the code, and the model follows the code:
- An out-of-range update is not a no-op. `handleSave` has no bounds check, and its only
  caller is the rendered card at that index, so the model requires the index to be in range.
- The user record is not just name and email. The code writes email, password and name.

## Model

| member | source | states |
|---|---|---|
| `Storage.Store.WriteGrazingList` | app/createGrazing.tsx:124 | a resolved write replaces the "grazingList" slot with the whole list, a rejected one leaves it; no other key changes |
| `Storage.Store.RemoveGrazingList` | app/name.tsx:77 | a resolved removal makes the "grazingList" key absent; no other key changes |
| `Storage.Store.WriteUserData` | app/name.tsx:87 | a resolved write stores the user record; no other key changes |
| `Storage.Store.WriteLanguage` | app/start.tsx:61 | a resolved write stores the language; no other key changes |
| `Language.Toggled` | app/start.tsx:50 | the toggle always yields "en" or "ua", and yields "ua" exactly when the current language is "en" |
| `Language.ToggledTwice` | app/start.tsx:49-50 | from "en" or "ua", toggling changes the language and toggling twice restores it |
| `Language.FlagFor` | app/start.tsx:51-54 | the flag is the uk.png image exactly when the language is "ua" |
| `Language.Stored` | app/createTeam.tsx:40 | a missing or empty stored language falls back to the default; a non-empty one is used as is |
| `Home.RemoveAt` | app/home.tsx:177 | filtering out one position shortens the list by one exactly when the position is in range, and keeps only elements of the list |
| `Home.RemoveAtSplice` | app/home.tsx:177 | filtering out position `index` removes exactly that element and keeps the others in order; an out-of-range index leaves the list unchanged |
| `Home.RemoveAtShifts` | app/home.tsx:177-187 | after a deletion, earlier records keep their positions and later ones move down by one, so a kept edit index past the deleted one names a different record |
| `Home.HomeScreen.constructor` | app/home.tsx:30-39 | initial state: "en", the ukraine flag, empty list, loading, no edit mode, both menus closed |
| `Home.HomeScreen.FetchData` | app/home.tsx:41-64 | loading ends whether the reads succeed or throw; the list is the stored one only when both reads succeed and the key exists, otherwise `[]`; the language falls back to "en" |
| `Home.HomeScreen.ToggleLanguage` | app/home.tsx:93-103 | from any structurally valid state: the language is toggled, its flag shown, and the stored language set when the write resolves; an edit copy that matched its record still does |
| `Home.HomeScreen.ToggleAnimalDropdown` | app/home.tsx:105-108 | from any structurally valid state: the animal menu flips and the duration menu closes, so at most one is open; the edit state is untouched |
| `Home.HomeScreen.ToggleDurationDropdown` | app/home.tsx:110-113 | from any structurally valid state: the duration menu flips and the animal menu closes, so at most one is open; the edit state is untouched |
| `Home.HomeScreen.HandleAnimalSelect` | app/home.tsx:115-120 | from any structurally valid state: only the animal of the edited copy changes (nothing when there is no copy), and the animal menu closes |
| `Home.HomeScreen.HandleDurationSelect` | app/home.tsx:122-127 | from any structurally valid state: only the duration of the edited copy changes (nothing when there is no copy), and the duration menu closes |
| `Home.HomeScreen.HandleQuantityChange` | app/home.tsx:129-133 | from any structurally valid state: only the quantity of the edited copy changes; nothing when there is no copy |
| `Home.HomeScreen.HandleEdit` | app/home.tsx:135-138 | from any structurally valid state, even a stale one: edit mode is on for `index` with an exact copy of record `index`, so the copy matches its record again |
| `Home.HomeScreen.HandleSave` | app/home.tsx:140-152 | with no copy nothing changes; otherwise the list keeps its length, position `index` holds the copy and every other position is unchanged; the identical list is stored and edit mode ends when the write resolves; the location, droneID and shepherdIDs at `index` are kept whenever edit mode was current on `index` |
| `Home.HomeScreen.HandleDelete` | app/home.tsx:175-188 | the list is the old one with position `index` filtered out and is stored when the write resolves; edit mode ends only if the write resolves and `editIndex == index`, otherwise the old index is kept; the copy still matches its record when nothing was edited, or the deleted position came after the edited one, or edit mode ended |
| `Home.HomeScreen.HandleDeleteIntended` | app/home.tsx:183-187 | as delete, but deleting the edited position ends edit mode whatever the write does, so the copy still matches its record whenever the deleted position is not before the edited one |
| `CreateGrazing.TrimStartShape` | app/createGrazing.tsx:114 | dropping leading whitespace leaves a suffix of the string that is empty or starts with a character that is not whitespace, and everything dropped is whitespace |
| `CreateGrazing.TrimEndShape` | app/createGrazing.tsx:114 | dropping trailing whitespace leaves a prefix of the string that is empty or ends with a character that is not whitespace, and everything dropped is whitespace |
| `CreateGrazing.TrimShape` | app/createGrazing.tsx:114 | `trim` yields the contiguous piece of the string that remains after cutting off all-whitespace text before and after it, and it neither starts nor ends with JavaScript whitespace, so it runs from the first non-whitespace character to the last |
| `CreateGrazing.TrimStartEmpty` | app/createGrazing.tsx:114 | trimming the front empties a string exactly when it is all whitespace, and otherwise stops at a non-whitespace character |
| `CreateGrazing.TrimEndEmpty` | app/createGrazing.tsx:114 | trimming the end empties a string exactly when it is all whitespace |
| `CreateGrazing.BlankIffAllWhitespace` | app/createGrazing.tsx:114 | `id.trim() === ""` exactly when every character is JavaScript whitespace |
| `CreateGrazing.NonBlank` | app/createGrazing.tsx:114 | the filtered list is no longer than the input and holds only input entries that are not blank |
| `CreateGrazing.NonBlankAppend` | app/createGrazing.tsx:114 | the filter distributes over concatenation, so relative order is preserved |
| `CreateGrazing.NonBlankCounts` | app/createGrazing.tsx:114 | each non-blank entry is kept as often as it occurs and blank entries are dropped |
| `CreateGrazing.NonBlankKeepsFilled` | app/createGrazing.tsx:114 | a list with no blank entry passes the filter unchanged |
| `CreateGrazing.NonBlankIdempotent` | app/createGrazing.tsx:114 | filtering twice is filtering once |
| `CreateGrazing.NonBlankExample` | app/createGrazing.tsx:114 | ["A", "", "  ", "B"] is filtered to ["A", "B"] |
| `CreateGrazing.NewGrazing` | app/createGrazing.tsx:108-115 | the new record has location "My location", the form's animal, quantity, duration and drone ID, and at most as many shepherd IDs as slots, each one a slot's text that is not blank |
| `CreateGrazing.NewGrazingFields` | app/createGrazing.tsx:108-115 | the new record's location is "My location"; animal, quantity, duration and droneID are the inputs verbatim; its shepherd IDs are the non-blank inputs and contain no blank entry |
| `CreateGrazing.CreateGrazingForm.constructor` | app/createGrazing.tsx:23-31 | the shepherd list starts as `[""]`, the fields empty, both menus closed, and the back button leads to "/hello" |
| `CreateGrazing.CreateGrazingForm.Initialize` | app/createGrazing.tsx:33-69 | the back button leads to "/home" exactly when every step succeeds and the "grazingList" key exists, and to "/hello" otherwise |
| `CreateGrazing.CreateGrazingForm.ToggleAnimalDropdown` | app/createGrazing.tsx:71-74 | the animal menu flips and the duration menu closes |
| `CreateGrazing.CreateGrazingForm.ToggleDurationDropdown` | app/createGrazing.tsx:76-79 | the duration menu flips and the animal menu closes |
| `CreateGrazing.CreateGrazingForm.HandleAnimalSelect` | app/createGrazing.tsx:81-84 | the animal is set and its menu closes; the menus stay mutually exclusive |
| `CreateGrazing.CreateGrazingForm.HandleDurationSelect` | app/createGrazing.tsx:86-89 | the duration is set and its menu closes; the menus stay mutually exclusive |
| `CreateGrazing.CreateGrazingForm.SetQuantity` | app/createGrazing.tsx:186 | the quantity is the text typed, unvalidated |
| `CreateGrazing.CreateGrazingForm.SetDronePassword` | app/createGrazing.tsx:219 | the observer drone ID is the text typed, unvalidated |
| `CreateGrazing.CreateGrazingForm.AddShepherdPassword` | app/createGrazing.tsx:91-93 | exactly one `""` is appended and the existing slots are kept |
| `CreateGrazing.CreateGrazingForm.HandleShepherdPasswordChange` | app/createGrazing.tsx:95-99 | slot `index` becomes the text; the length and every other slot are unchanged |
| `CreateGrazing.CreateGrazingForm.HandleNext` | app/createGrazing.tsx:101-131 | an absent list counts as `[]`; the stored list becomes the old one plus the new record at the end, and the screen goes home; a throwing read or write leaves the store unchanged and does not navigate |
| `CreateTeam.CreateTeamForm.constructor` | app/createTeam.tsx:21-24 | the shepherd list starts as `[""]` |
| `CreateTeam.CreateTeamForm.LoadFontsAndLanguage` | app/createTeam.tsx:27-49 | the language is the stored one, or "en" when none is stored |
| `CreateTeam.CreateTeamForm.SetDronePassword` | app/createTeam.tsx:118 | the drone password is the text typed |
| `CreateTeam.CreateTeamForm.AddShepherdPassword` | app/createTeam.tsx:51-53 | exactly one `""` is appended and the earlier slots are kept |
| `CreateTeam.CreateTeamForm.HandleShepherdPasswordChange` | app/createTeam.tsx:55-59 | only slot `index` is replaced; the length is unchanged |
| `CreateTeam.CreateTeamForm.HandleNext` | app/createTeam.tsx:61-75 | the payload carries the drone password and the shepherd list unfiltered, blank entries included, and leads to the create-grazing screen |
| `Start.LoginRoute` | app/start.tsx:67-77 | no user record means no navigation; with one, "home" exactly when the "grazingData" value is present and non-empty, and "hello" exactly when it is absent or the empty string |
| `Start.LoginIgnoresSavedList` | app/start.tsx:66 | with a user and a saved list but no "grazingData" key, log-in as written routes to "hello", while the intended rule routes home |
| `Start.IntendedLoginRoute` | app/start.tsx:66-73 | reading "grazingList" instead, no user record means no navigation, and a logged-in user goes home exactly when a session list is stored and to "hello" exactly when none is |
| `Start.StartScreen.constructor` | app/start.tsx:21-22 | the screen starts in "en" with the ukraine flag |
| `Start.StartScreen.LoadFontsAndLanguage` | app/start.tsx:25-47 | a stored non-empty language replaces the default and selects its flag |
| `Start.StartScreen.ToggleLanguage` | app/start.tsx:49-62 | the language is toggled, the flag is uk.png exactly when it becomes "ua", and the new language is written to the "language" key |
| `Start.StartScreen.HandleLogIn` | app/start.tsx:64-78 | the route is the log-in decision on the stored values; no user record means no navigation, and an absent or empty "grazingData" value never leads home |
| `Name.ParamValue` | app/name.tsx:56-68 | a missing or empty-string parameter supplies nothing, a string supplies itself, and an array supplies its first element |
| `Name.Updated` | app/name.tsx:56-68 | a field keeps its value unless the parameter supplies one |
| `Name.NameScreen.constructor` | app/name.tsx:27-35 | empty fields, `agree` false, not yet initialised |
| `Name.NameScreen.LoadFontsAndLanguage` | app/name.tsx:37-52 | a stored non-empty language replaces the default |
| `Name.NameScreen.InitFromParams` | app/name.tsx:54-72 | once initialised nothing changes, so the copy happens at most once; the first run copies each supplied parameter, sets `agree` regardless of parameters, and marks the screen initialised |
| `Name.NameScreen.SetName` | app/name.tsx:140 | the name is the text typed |
| `Name.NameScreen.HandleNext` | app/name.tsx:74-94 | the "grazingList" key is removed, then userData = {email, password, name} is written; navigation to "/hello" only when both steps succeed, and a failed removal stops before the write |
| `Scenarios.CreateOne` | app/createGrazing.tsx:101-131 | a filled-in form submitted on a store with no list stores a one-record list; the blank shepherd slot is dropped and the location is "My location" |
| `Scenarios.CreateEditDelete` | app/home.tsx:135-188 | one created record is loaded, edited to quantity "20" with location and shepherd IDs intact, saved, then deleted to an empty stored list |
| `Scenarios.SignUpCreateLogIn` | app/start.tsx:64-78 | after account creation and one saved session, log-in still routes to "hello" |
| `Scenarios.EditFirstOfTwo` | app/home.tsx:41-64 | two stored sessions are loaded in order and the first is put in edit mode with an exact copy |
| `Scenarios.RejectedDeleteThenSave` | app/home.tsx:175-188 | deleting the edited first session with a rejected write keeps edit mode at index 0, which now names the second session; saving then stores the deleted first session in its place, and the second session is lost from the store |
| `Scenarios.RejectedDeleteThenSaveIntended` | app/home.tsx:183-187 | with edit mode ended on deleting the edited session, the screen shows only the second session and the store keeps both, since the rejected write changed nothing and no save follows |

## Findings

| source | as written | input that shows it | evidently intended | confidence | as-written member | corrected member |
|---|---|---|---|---|---|---|
| app/start.tsx:66 | log-in decides between "home" and "hello" on the key "grazingData". The session list is written under "grazingList" (app/createGrazing.tsx:124, app/home.tsx:148) | a store holding a user record and a session list, with no "grazingData" key, routes to "hello" | read "grazingList", so a user with saved sessions goes home | medium, not executed | `Start.LoginIgnoresSavedList` | `Start.IntendedLoginRoute` |
| app/home.tsx:181-187 | delete awaits the write before leaving edit mode, so a rejected write skips the exit; the list shown has already lost the record, so the kept edit index names the next record | two stored sessions, edit the first, delete it with the write rejecting, then save: the store holds only the deleted first session, and the second is gone | leave edit mode when the edited record is deleted, as the comment at app/home.tsx:183 says | medium, not executed | `Scenarios.RejectedDeleteThenSave` | `Home.HomeScreen.HandleDeleteIntended` |

`Start.StartScreen.HandleLogIn` keeps the log-in behaviour as written, and
`Start.IntendedLoginRoute` is the corrected decision. `Home.HomeScreen.HandleDelete`
keeps the delete behaviour as written, and `Home.HomeScreen.HandleDeleteIntended` is
the corrected handler. `Scenarios.RejectedDeleteThenSaveIntended` runs the same steps
with the corrected handler.

## Left out

- The start/end notifications to the drone server (`sendMessageToServer`, `handleStart`, app/stream.tsx) are network I/O and are not modelled.
- app/stream.tsx, app/signUp.tsx, app/account.tsx, app/hello.tsx, app/index.tsx and app/_layout.tsx are not part of this model. They cover video, form forwarding, read-only display, splash timing and route registration.
- JSON encoding is not modelled: the store holds typed values. A stored list that fails to parse is modelled as a read that rejects, because both land in the same catch.
- Font loading is modelled only as an `IoOutcome` that can make an effect throw.
- Translation lookups, images and styles are presentation. That includes the mislabelled duration menu items on the home screen. Flags are a two-valued datatype.
- Races between screens are not modelled. Writes are synchronous assignments by one writer.
- Home.HomeScreen.HandleSave: requires `index < |grazingList|`. The only caller is the card at that index; JavaScript would extend the array for a larger index.
- Home.HomeScreen.HandleEdit: requires `index < |grazingList|`, for the same reason. Out of range, the copy would be an empty object.
- Home.HomeScreen.HandleDelete: `EditsCurrent()` is promised only when the kept edit index still names the record it was copied from. The screen offers delete only on the edited card (app/home.tsx:226-233), so the one stale case the app reaches is a rejected write (see Findings). The model's handler takes any index, so a delete before the edited card, which shifts the edited record down under the kept index, is a second stale case that exists only in the model. The model keeps the stale state, and the other handlers promise only `Valid()` from it.
- CreateGrazing.CreateGrazingForm.HandleShepherdPasswordChange: requires a rendered slot index, as does `CreateTeam.CreateTeamForm.HandleShepherdPasswordChange`.
- Name.ParamValue: an empty array parameter is not modelled. The router never passes one, and the source would then copy `undefined`.
- Start.StartScreen.HandleLogIn: one outcome stands for both reads, because either one rejecting ends the handler without navigation.
- The legacy keys `user_email`, `user_password` and `user_name` are not modelled. Only screens outside this model read them.
