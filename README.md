# RandomChoice phone list store, in Dafny

RandomChoice is a phone-and-watch app. The user writes named lists of
options, and the app picks one option at random. This project models the
phone side of the list data and the small editing rules around it:

- the `DecisionList` value (`Common/Models.swift`);
- the phone's `PhoneDataManager`, which owns the lists. It keeps a copy in
  `UserDefaults` under `"PhoneLists"`, pushes the lists to the watch as the
  session's application context, and answers the watch's `{"request": "data"}`
  message (`RandomChoice/PhoneDataManager.swift`);
- the "new list" form (`RandomChoice/AddListView.swift`);
- the edit screen of one list (`RandomChoice/ListDetailView.swift`).

Layout, one module per file:

- `models.dfy`: `DecisionList`.
- `trimming.dfy`: `trimmingCharacters(in:)` for `.whitespaces` and
  `.whitespacesAndNewlines`, written as an explicit specification.
- `offsets.dfy`: `remove(atOffsets:)`, characterised by the ascending
  sequence of surviving indices.
- `json_coding.dfy`: the encoder and decoder of the stored lists, with a
  proved round trip.
- `platform.dfy`: the parts of `UserDefaults` and `WCSession` that the
  manager uses.
- `phone_data_manager.dfy`: the `PhoneDataManager` class and the functions
  that specify it.
- `add_list_view.dfy`, `list_detail_view.dfy`: the two forms, as classes
  whose fields are the views' `@State` and `@Binding` values.
- `wrappers.dfy`: `Option`.

Identifiers that the source creates with `UUID()` are parameters here: the
two seed identifiers of `loadLocally`, and the identifier of the list that
`saveList` creates. `JSONEncoder.encode` is declared `throws`. Which inputs
make it throw is not modelled. Instead the encoder carries a predicate
`refuses`, so that both `catch` branches of the source are reachable.

The edit screen's `@Binding var list` is modelled as a store plus an index
into its `lists`. Its edits change that element in place. They do not go
through `addList` or `deleteList`, so they are neither saved nor pushed to the
watch. Each edit method states this with `unchanged(store.defaults)`.

## Model

| member | source | states |
|---|---|---|
| `Models.NewDecisionList` | Common/Models.swift:13-17 | the built list holds exactly the given id, name and options |
| `Models.OmittedOptionsAreEmpty` | Common/Models.swift:13 | leaving out `options` gives the empty option sequence |
| `Models.EqualityIsStructural` | Common/Models.swift:4 | two lists are equal iff id, name and options are all equal |
| `Models.EditsKeepId` | Common/Models.swift:6-10 | updating `name` or `options` keeps `id` and the other field |
| `Trimming.TrimStart` | RandomChoice/AddListView.swift:61 | the result is the suffix left after the longest prefix of set characters; it does not start with one |
| `Trimming.TrimEnd` | RandomChoice/AddListView.swift:61 | the result is the prefix left before the longest suffix of set characters; it does not end with one |
| `Trimming.Trimmed` | RandomChoice/AddListView.swift:61 | the result neither starts nor ends with a character of the set |
| `Trimming.TrimmedIsInnerSlice` | RandomChoice/AddListView.swift:61 | for the first index `i` not in the set (or the end), the result starts at `i` and only characters of the set follow it |
| `Trimming.TrimmedEmptyIffBlank` | RandomChoice/AddListView.swift:61-62 | trimming gives the empty string iff every character is in the set |
| `Trimming.TrimmedFixesTrimmed` | RandomChoice/ListDetailView.swift:47 | a string with no blank ends is unchanged by trimming |
| `Trimming.NarrowerSetKeepsMore` | RandomChoice/AddListView.swift:30 | whatever is non-empty after trimming newlines too is non-empty after trimming `.whitespaces` |
| `Offsets.Survivors` | RandomChoice/PhoneDataManager.swift:90 | the surviving indices are in bounds, are not offsets, and ascend strictly |
| `Offsets.SurvivorsComplete` | RandomChoice/PhoneDataManager.swift:90 | every in-bounds index that is not an offset survives |
| `Offsets.SurvivorCount` | RandomChoice/PhoneDataManager.swift:90 | survivors plus in-bounds offsets make up every index |
| `Offsets.RemoveAtOffsets` | RandomChoice/PhoneDataManager.swift:90 | the k-th element left is the element at the k-th surviving index |
| `Offsets.RemovedLength` | RandomChoice/AddListView.swift:72 | with in-bounds offsets, the length drops by the number of offsets |
| `Offsets.RemovedKeepsOnlySurvivors` | RandomChoice/AddListView.swift:72 | every element left was at an index that was not removed |
| `Offsets.RemovedKeepsOrder` | RandomChoice/ListDetailView.swift:57 | two survivors keep their relative order |
| `Offsets.RemoveNothing` | RandomChoice/ListDetailView.swift:57 | removing no offsets changes nothing |
| `JsonCoding.NatRoundTrip` | RandomChoice/PhoneDataManager.swift:69 | decoding a number's encoding gives the number back and leaves the bytes after it untouched; the round trips of strings, lists and the store are built on it |
| `JsonCoding.RoundTrip` | RandomChoice/PhoneDataManager.swift:53-69 | decoding the encoding of any lists gives back the same lists |
| `JsonCoding.EmptyDataIsCorrupt` | RandomChoice/PhoneDataManager.swift:52-57 | empty data does not decode |
| `JsonCoding.JsonEncoder.Encode` | RandomChoice/PhoneDataManager.swift:67-76 | encoding fails exactly when the encoder refuses the lists; when it succeeds, decoding restores them |
| `Platform.UserDefaults.Data` | RandomChoice/PhoneDataManager.swift:41 | gives the stored bytes, or none when the key is absent |
| `Platform.UserDefaults.Set` | RandomChoice/PhoneDataManager.swift:71 | overwrites exactly one slot |
| `Platform.Session.UpdateApplicationContext` | RandomChoice/PhoneDataManager.swift:108 | when accepted, the context is replaced and recorded; when refused, nothing changes |
| `PhoneData.SeedWithoutData` | RandomChoice/PhoneDataManager.swift:43-46 | two lists carrying the two fresh identifiers, the first with four options and the second with three |
| `PhoneData.SeedAfterDecodeError` | RandomChoice/PhoneDataManager.swift:58-61 | two lists carrying the two fresh identifiers, each with three options |
| `PhoneData.Loaded` | RandomChoice/PhoneDataManager.swift:39-63 | decodable stored data loads as exactly its lists; the loaded lists are empty only when the stored data decodes to no lists |
| `PhoneData.SeedsDependOnCause` | RandomChoice/PhoneDataManager.swift:41-62 | the no-data seeds (4 options, "Что посмотреть?") always differ from the decode-error seeds (3 options, "Куда пойти?") |
| `PhoneData.EmptyDataLoadsSecondSeed` | RandomChoice/PhoneDataManager.swift:52-62 | stored empty data counts as corrupt and loads the second seed pair |
| `PhoneData.LoadAfterSave` | RandomChoice/PhoneDataManager.swift:53-71 | after a save whose encoding succeeds, loading restores exactly the saved lists |
| `PhoneData.RefusedSaveKeepsSlots` | RandomChoice/PhoneDataManager.swift:73-76 | a save whose encoding throws leaves the store unchanged |
| `PhoneData.SaveIsIdempotent` | RandomChoice/PhoneDataManager.swift:69-71 | saving twice stores the same as saving once |
| `PhoneData.SaveTouchesOnlyItsSlot` | RandomChoice/PhoneDataManager.swift:71 | every slot except "PhoneLists" is left as it was |
| `PhoneData.PhoneDataManager.constructor` | RandomChoice/PhoneDataManager.swift:17-22 | the new manager's lists are what `loadLocally` installs from the current store |
| `PhoneData.PhoneDataManager.LoadLocally` | RandomChoice/PhoneDataManager.swift:39-63 | lists become the first seed pair when no data is stored, the second pair when the data does not decode, and the decoded lists otherwise |
| `PhoneData.PhoneDataManager.SaveLocally` | RandomChoice/PhoneDataManager.swift:66-77 | the phone's slot holds the encoding of the lists; if encoding throws, the store is unchanged |
| `PhoneData.PhoneDataManager.SendToWatch` | RandomChoice/PhoneDataManager.swift:97-113 | with no session, an unreachable watch, a failed encoding or a refused update, nothing is sent; otherwise the context becomes `["lists": encoding]`; the lists are untouched |
| `PhoneData.PhoneDataManager.AddList` | RandomChoice/PhoneDataManager.swift:82-86 | lists become old lists plus the new one at the end; the store and the watch get the new lists as in SaveLocally and SendToWatch |
| `PhoneData.PhoneDataManager.DeleteList` | RandomChoice/PhoneDataManager.swift:89-93 | lists become exactly the lists whose index is not removed, in order, shorter by the number of offsets; then saved and pushed |
| `PhoneData.PhoneDataManager.DidReceiveMessage` | RandomChoice/PhoneDataManager.swift:133-147 | a reply is sent iff the message's "request" is the text "data"; it carries an encoding that decodes to the current lists, or `["error": "Encoding failed"]` exactly when encoding throws; the lists are not changed |
| `AddList.AddEnabled` | RandomChoice/AddListView.swift:30 | the add button is enabled iff the option field holds a character outside `.whitespaces` |
| `AddList.SaveEnabled` | RandomChoice/AddListView.swift:53 | the done button is enabled iff the name as typed and the options are both non-empty |
| `AddList.AddEnabledWhenProductive` | RandomChoice/AddListView.swift:30 | whenever tapping add would add an option, the add button is enabled |
| `AddList.LineBreakEnablesIdleAdd` | RandomChoice/AddListView.swift:61-62 | a field holding only "\n" enables the add button, yet trims to nothing, so the add does nothing |
| `AddList.BlankNamePassesGate` | RandomChoice/AddListView.swift:53-78 | a non-empty whitespace-only name with options passes the done gate, and its trimmed name is empty |
| `AddList.AddListView.constructor` | RandomChoice/AddListView.swift:8-10 | the form starts with an empty name, an empty option field and no options |
| `AddList.AddListView.AddOption` | RandomChoice/AddListView.swift:60-68 | a field that trims to nothing changes nothing; otherwise the trimmed text is appended and the field cleared; every option stays non-empty and trimmed |
| `AddList.AddListView.DeleteOption` | RandomChoice/AddListView.swift:71-73 | the options at the offsets are removed and the rest keep their order; every option stays non-empty and trimmed |
| `AddList.SavedList` | RandomChoice/AddListView.swift:76-80 | the saved list has the given identifier and the form's options, and when the done button is enabled it has at least one option |
| `AddList.AddListView.SaveList` | RandomChoice/AddListView.swift:50-84 | callable only while the done button is enabled; the store gains exactly one list at the end, with the trimmed name and the current options, so never a list without options; the new lists are saved and pushed to the watch as in `addList`; the form is closed |
| `AddList.AddListView.Cancel` | RandomChoice/AddListView.swift:44-46 | the form is closed and the store is not touched |
| `ListDetail.ListDetailView.constructor` | RandomChoice/ListDetailView.swift:4-5 | the screen is bound to an existing list and starts with an empty option field |
| `ListDetail.ListDetailView.Rename` | RandomChoice/ListDetailView.swift:11 | only the bound list's name changes; id and options are kept |
| `ListDetail.ListDetailView.EditOption` | RandomChoice/ListDetailView.swift:28-30 | only option i changes; the length and every other option are kept |
| `ListDetail.ListDetailView.AddSamples` | RandomChoice/ListDetailView.swift:34-38 | "Вариант 1", "Вариант 2", "Вариант 3" are appended, in order, after the existing options |
| `ListDetail.ListDetailView.AddOption` | RandomChoice/ListDetailView.swift:46-54 | a blank field changes nothing; otherwise the trimmed text is appended to the bound list's options and the field cleared; id and name are kept |
| `ListDetail.ListDetailView.DeleteOption` | RandomChoice/ListDetailView.swift:56-58 | exactly the options at the offsets are removed, the rest keep their order; id and name are kept |

## Left out

- Session setup, activation and the inactive/deactivate callbacks
  (`RandomChoice/PhoneDataManager.swift:25-36`, `119-130`) are asynchronous
  platform calls. The session is reduced to a possibly absent object with a
  reachability flag.
- JSON text: the stored and sent bytes use a length-prefixed binary format
  that carries the same fields in the same order. Only its round trip and its
  rejection of empty data are claimed.
- The binary format rejects every byte after a complete store, while
  `JSONDecoder` accepts white space (space, tab, CR, LF) after the top-level
  array. Stored data of that shape loads as the decoded lists in the app and
  as the second seed pair in the model; the app never writes such data itself.
- `JsonCoding.JsonEncoder.Encode` does not say which inputs make the encoder
  throw. That is a property of Foundation, which is not part of this model.
- `Platform.Session.UpdateApplicationContext` reduces the ways the system can
  refuse a context update to one flag, `acceptsContext`.
- `UUID()` generation is nondeterministic. Identifiers are parameters.
- `print` logging has no observable state.
- The `@Published` change notifications and all SwiftUI layout, animation and
  alerts are not modelled. Typing into the name and option fields of the new
  list form is plain assignment to those fields.
- `RandomChoice/ContentView.swift` is not part of this model. Its lookup of
  the bound list by id becomes the requirement that the edit screen's index is
  in range.
- `RandomChoice/RandomChoiceApp.swift` and the watch app are not part of this
  model.
- Trimming works on Unicode scalar values (Dafny characters), not on UTF-16
  units or grapheme clusters.
- `remove(atOffsets:)` traps on an offset out of range. The model states this
  as a precondition.
- `sendToWatch` returns early when the watch is unreachable
  (`RandomChoice/PhoneDataManager.swift:99`). An edit made while the watch is
  away is therefore never pushed, although `updateApplicationContext` is the
  call that would reach the watch later. The model follows the code.
- `PhoneData.PhoneDataManager.DidReceiveMessage` is modelled as one atomic step
  between edits. In the app, `WCSession` calls the handler on its own
  background queue, and the handler reads `lists`
  (`RandomChoice/PhoneDataManager.swift:139`) without hopping to the main
  queue, where `addList`, `deleteList` and the edit screen write it. A reply
  built during an edit may therefore carry lists the model does not allow.
