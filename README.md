# Lab-Companion store and pages, in Dafny

Lab-Companion is a single-page homelab dashboard. All of its state lives in
one client-side store (`useStore`, client/src/lib/store.ts). The store holds
the signed-in user and three collections: devices, notes and checklists.
Each store action replaces one of these with a newly built value. On top of
the store sit five pages:

- the devices inventory, with search, a type filter, an add form, a status toggle and deletion behind a confirmation;
- the notes editor;
- the scripts editor;
- the checklists, with task toggling, adding and deleting, and progress bars;
- the dashboard's summary figures.

The store also turns the three collections into a JSON backup (export) and
restores them from one (import).

This project models that core:

- `Collections`: the order-preserving list operations every action is built from. These are `filter` (`Keep`), `map` over matching ids (`UpdateWhere`), `filter` by id (`RemoveKey`), `find` (`FindFirst`) and `slice` (`Take`).
- `Text`: the JavaScript string operations the pages use.
  - `trim` uses the full ECMAScript whitespace set.
  - `toLowerCase` covers ASCII letters only.
  - `includes`, `split` and `join`, where `"".split(',')` is `[""]`.
- `Json`: JSON values, JavaScript truthiness, and property access that throws on `null`.
- `Records`: the entities and the shallow merge `{ ...record, ...patch }` of the update actions.
- `Codec`: the backup format, and the typed reading of a backup that import needs.
- `Store`: the class `AppStore`, whose fields are the store's state and whose methods are its actions.
- `Tags`: the comma-separated tag fields and the tag part of the searches.
- `Devices`, `Notes`, `Scripts`, `Checklists`, `Dashboard`: the page logic. Each page's view state is a class whose methods call the store.

The main properties proved:

- Export followed by import gives back exactly the exported collections.
- Import is all-or-nothing, and never touches the user or the scripts.
- Adding a record under a fresh id and then deleting that id restores the list.
- An update touches only the records with that id, and merges as a shallow spread.
- For a note or script with a non-empty id and clean (non-empty, trimmed, comma-free) tags, an editor opened on it and saved untouched changes only its `updatedAt`; other records sharing its id take on the edited fields. This holds because `join(', ')` followed by the page's split/trim/filter gives clean tags back. With an empty id the save updates nothing, and tags that are not clean are rewritten by the save.
- Every filter keeps exactly the matching records, in order.
- The dashboard's figures are the sums of the checklist cards' figures.
- Progress and completion rate stay within 0..100 and mean what they say.

Conventions:

- Fresh ids (`Math.random`) and the clock (`new Date().toISOString()`) are parameters.
- The answers of `confirm` and `prompt` are parameters too.
- The store exports and imports only devices, notes and checklists (client/src/lib/store.ts:146-161), as the settings page's backup card says (client/src/pages/settings.tsx:54).
- store.ts declares no scripts collection, yet the scripts page destructures `scripts`, `addScript`, `updateScript` and `deleteScript` from the store. The model gives `AppStore` a `scripts` field and these three actions, built on the pattern of the notes actions: the add stamps id and both times, and the update stamps `updatedAt`. Scripts are left out of export and import, as in the code.

## Model

| member | source | states |
|---|---|---|
| `Collections.Keep` | client/src/lib/store.ts:117-119 | `filter`: the result holds exactly the elements satisfying the predicate, and is no longer than the input |
| `Collections.KeepCounts` | client/src/lib/store.ts:117-119 | `filter` keeps each passing element as often as it occurs in the input, and drops every other one |
| `Collections.KeepOrder` | client/src/pages/devices.tsx:35-41 | `filter` keeps the passing elements in their original order |
| `Collections.KeepAll` | client/src/pages/devices.tsx:35-41 | a filter every element passes returns the list unchanged |
| `Collections.KeepConcat` | client/src/pages/dashboard.tsx:12 | filtering a concatenation is concatenating the filtered parts |
| `Collections.KeepDisjointCount` | client/src/pages/dashboard.tsx:10-11 | two predicates that never hold together select at most `|xs|` elements between them |
| `Collections.KeepFull` | client/src/pages/checklists.tsx:101-102 | the filter keeps every element exactly when every element satisfies it |
| `Collections.UpdateWhere` | client/src/lib/store.ts:114-116 | `map(x => x.id === id ? f(x) : x)`: same length, matching elements replaced by `f` of themselves, all others untouched |
| `Collections.RemoveKey` | client/src/lib/store.ts:117-119 | `filter(x => x.id !== id)`: no element with that id remains, every other element stays with its multiplicity and order, and an absent id changes nothing |
| `Collections.AppendThenRemove` | client/src/lib/store.ts:111-119 | appending under a fresh id and removing that id gives the list back |
| `Collections.FindFirst` | client/src/pages/checklists.tsx:20-21 | `find`: `None` exactly when no element has the id, otherwise the first element that has it |
| `Collections.FindFirstUnique` | client/src/pages/checklists.tsx:20 | with unique ids, `find` returns the element at the id's position |
| `Collections.Take` | client/src/pages/dashboard.tsx:97 | `slice(0, n)`: a prefix of length `min(n, |xs|)` |
| `Text.Trim` | client/src/pages/notes.tsx:45 | `trim`: the result has no whitespace at either end, is a contiguous slice of the input with only whitespace cut, and a trimmed string stays as it is |
| `Text.TrimIdempotent` | client/src/pages/notes.tsx:45 | trimming twice is trimming once |
| `Text.TrimAfterSpace` | client/src/pages/notes.tsx:32-45 | whitespace in front of a trimmed string is removed by `trim` |
| `Text.ToLower` | client/src/pages/devices.tsx:36 | `toLowerCase` keeps the length and lowers each ASCII letter in place |
| `Text.ToLowerIdempotent` | client/src/pages/notes.tsx:23-25 | lowering twice is lowering once |
| `Text.IncludesIff` | client/src/pages/devices.tsx:36-38 | `includes` holds exactly when the substring occurs at some position |
| `Text.Split` | client/src/pages/notes.tsx:45 | `split(c)` always yields at least one piece, and no piece contains the separator |
| `Text.SplitCount` | client/src/pages/notes.tsx:45 | `split(c)` yields one piece more than there are separators, so `""` splits into one empty piece |
| `Text.SplitThenJoin` | client/src/pages/notes.tsx:45 | joining the pieces of a split with the separator gives the string back |
| `Text.JoinThenSplit` | client/src/pages/notes.tsx:45 | splitting a join of separator-free pieces gives the pieces back |
| `Json.Parse` | client/src/lib/store.ts:152 | `JSON.parse` fails with a syntax error exactly on text that is not JSON |
| `Json.ParseStringify` | client/src/lib/store.ts:148-152 | parsing what was stringified gives the value back |
| `Json.Member` | client/src/lib/store.ts:153 | for the three backup keys `devices`, `notes` and `checklists` (the only ones read), a property read throws exactly on `null` and yields a value exactly for an object that has the key; inherited keys and `length` are not modelled |
| `Records.ParseDeviceType` | client/src/lib/store.ts:4 | a recognised type literal is the name of the type it parses to |
| `Records.DeviceTypeRoundTrip` | client/src/lib/store.ts:4 | every device type's literal parses back to it |
| `Records.StatusRoundTrip` | client/src/lib/store.ts:15 | every status literal parses back to its status |
| `Records.MergeDeviceLaws` | client/src/lib/store.ts:114-116 | `{ ...d, ...p }`: an empty patch changes nothing, a patch applied twice is applied once, two merges are one merge of the combined patch |
| `Records.MergeDeviceStatusOnly` | client/src/pages/devices.tsx:65 | a status-only patch changes the status and nothing else |
| `Records.MergeNoteLaws` | client/src/lib/store.ts:129-131 | the merged note's `updatedAt` is the clock value even when the patch carries one, and an empty patch changes only `updatedAt` |
| `Records.MergeChecklistLaws` | client/src/lib/store.ts:139-141 | an empty patch changes nothing, merging is idempotent, and a tasks-only patch replaces only the tasks |
| `Records.MergeScriptLaws` | client/src/pages/scripts.tsx:63-71 | the merged script's `updatedAt` is the clock value, and an empty patch changes only `updatedAt` |
| `Codec.ListRoundTrip` | client/src/lib/store.ts:146-154 | decoding an encoded list gives it back when each element round-trips |
| `Codec.DeviceRoundTrip` | client/src/lib/store.ts:6-17 | a device's JSON object decodes back to the same device, a missing `lastSeen` included |
| `Codec.NoteRoundTrip` | client/src/lib/store.ts:19-27 | a note's JSON object decodes back to the same note, a missing `deviceId` included |
| `Codec.TaskRoundTrip` | client/src/lib/store.ts:29-33 | a task's JSON object decodes back to the same task |
| `Codec.ChecklistRoundTrip` | client/src/lib/store.ts:29-41 | a checklist's JSON object, tasks included, decodes back to the checklist |
| `Codec.SnapshotRoundTrip` | client/src/lib/store.ts:146-154 | the backup object decodes back to the three collections |
| `Codec.Export` | client/src/lib/store.ts:146-149 | `exportData` produces text that parses to the object `{ devices, notes, checklists }` |
| `Codec.Import` | client/src/lib/store.ts:150-161 | import succeeds exactly when the source's guard passes and the payload reads as three lists of records, and then yields that reading |
| `Codec.ExportImportRoundTrip` | client/src/lib/store.ts:146-161 | importing an export gives back exactly the exported collections |
| `Codec.ImportRejectsMalformed` | client/src/lib/store.ts:151-159 | text that is not JSON is refused (the syntax error is caught) |
| `Codec.ImportRejectsNull` | client/src/lib/store.ts:152-159 | the JSON text `null` is refused (reading `null.devices` throws and is caught) |
| `Codec.ImportNeedsAllThreeKeys` | client/src/lib/store.ts:153-157 | a payload that is not an object, or lacks a truthy `devices`, `notes` or `checklists`, is refused |
| `Codec.ImportRejectsMissingChecklists` | client/src/lib/store.ts:153-157 | `{"devices": [], "notes": []}` is refused |
| `Codec.GuardAdmitsUndecodable` | client/src/lib/store.ts:153-155 | the source's guard passes `{"devices": 1, "notes": 1, "checklists": 1}`, which has no typed reading |
| `Codec.DecodableImpliesGuard` | client/src/lib/store.ts:153 | every payload that reads as three lists passes the source's guard, since arrays are truthy |
| `Store.UpdatedDevices` | client/src/lib/store.ts:114-116 | `updateDevice`: every device with the id is merged with the patch, every other device is kept, and an unknown id changes nothing |
| `Store.UpdatedNotes` | client/src/lib/store.ts:129-131 | `updateNote`: every note with the id is merged and stamped with the clock, every other note is kept, and an unknown id changes nothing |
| `Store.UpdatedChecklists` | client/src/lib/store.ts:139-141 | `updateChecklist`: every checklist with the id is merged, every other one is kept, and an unknown id changes nothing |
| `Store.UpdatedScripts` | client/src/pages/scripts.tsx:63-71 | the script update: every script with the id is merged and stamped, every other one is kept |
| `Store.StampedNote` | client/src/lib/store.ts:121-128 | the added note has the fresh id, the first clock read as `createdAt` and the second as `updatedAt`, with its other fields as given |
| `Store.StampedScript` | client/src/pages/scripts.tsx:54-61 | the added script has the fresh id, the first clock read as `createdAt` and the second as `updatedAt`, with its other fields as given |
| `Store.AddThenDeleteDevice` | client/src/lib/store.ts:111-119 | adding a device under a fresh id and deleting that id restores the devices |
| `Store.AddThenDeleteNote` | client/src/lib/store.ts:121-134 | adding a note under a fresh id and deleting that id restores the notes |
| `Store.AddThenDeleteChecklist` | client/src/lib/store.ts:136-144 | adding a checklist under a fresh id and deleting that id restores the checklists |
| `Store.AppStore.constructor` | client/src/lib/store.ts:74-106 | the store starts signed out, with the three seed devices, the seed note, the seed checklist and no scripts; each `new Date()` of the seeds is its own clock value |
| `Store.AppStore.Login` | client/src/lib/store.ts:108 | sets the user with the mock token, and nothing else |
| `Store.AppStore.Logout` | client/src/lib/store.ts:109 | clears the user, and nothing else |
| `Store.AppStore.AddDevice` | client/src/lib/store.ts:111-113 | appends the device under the fresh id, and nothing else |
| `Store.AppStore.UpdateDevice` | client/src/lib/store.ts:114-116 | the devices become `UpdatedDevices`, and nothing else changes |
| `Store.AppStore.DeleteDevice` | client/src/lib/store.ts:117-119 | removes every device with the id, and nothing else |
| `Store.AppStore.AddNote` | client/src/lib/store.ts:121-128 | appends the stamped note, and nothing else |
| `Store.AppStore.UpdateNote` | client/src/lib/store.ts:129-131 | the notes become `UpdatedNotes`, and nothing else changes |
| `Store.AppStore.DeleteNote` | client/src/lib/store.ts:132-134 | removes every note with the id, and nothing else |
| `Store.AppStore.AddChecklist` | client/src/lib/store.ts:136-138 | appends the checklist under the fresh id, and nothing else |
| `Store.AppStore.UpdateChecklist` | client/src/lib/store.ts:139-141 | the checklists become `UpdatedChecklists`, and nothing else changes |
| `Store.AppStore.DeleteChecklist` | client/src/lib/store.ts:142-144 | removes every checklist with the id, and nothing else |
| `Store.AppStore.AddScript` | client/src/pages/scripts.tsx:54-62 | appends the stamped script; the backed-up collections and the user are untouched |
| `Store.AppStore.UpdateScript` | client/src/pages/scripts.tsx:63-72 | the scripts become `UpdatedScripts`; the backed-up collections and the user are untouched |
| `Store.AppStore.DeleteScript` | client/src/pages/scripts.tsx:203 | removes every script with the id; the backed-up collections and the user are untouched |
| `Store.AppStore.ExportData` | client/src/lib/store.ts:146-149 | returns the export of the three collections, which imports back to them |
| `Store.AppStore.ImportData` | client/src/lib/store.ts:150-161 | returns true exactly when the text imports. On true the three collections are replaced by the payload, which passed the source's guard; on false nothing changes. The user and the scripts are never touched |
| `Store.ExportThenImport` | client/src/lib/store.ts:146-161 | `importData(exportData())` returns true and leaves the store as it was |
| `Tags.SplitTrimmed` | client/src/pages/notes.tsx:45 | `split(',').map(trim)`: one trimmed, comma-free piece per field, empty pieces included |
| `Tags.ParseTagList` | client/src/pages/scripts.tsx:52 | the saved tags are non-empty, trimmed and comma-free, keep their order, and keep every non-empty trimmed piece as many times as it occurs |
| `Tags.SplitCommaSpaceJoin` | client/src/pages/notes.tsx:32 | splitting `tags.join(', ')` at commas gives the first tag, then each later tag behind one space |
| `Tags.SplitTrimmedJoin` | client/src/pages/notes.tsx:32-45 | clean tags joined with `", "` split and trim back to themselves |
| `Tags.EditedTagsRoundTrip` | client/src/pages/notes.tsx:28-45 | the tags shown by the editor and parsed again on save are the note's tags, when each was non-empty, trimmed and comma-free |
| `Tags.IncludesFoldedEmpty` | client/src/pages/notes.tsx:22-26 | the empty search term matches every string |
| `Tags.AnyTagIncludesLaws` | client/src/pages/notes.tsx:25 | the tag search ignores the case of the term, and the empty term matches exactly the non-empty tag lists |
| `Devices.ParseDeviceTags` | client/src/pages/devices.tsx:48 | an empty field gives no tags; otherwise exactly the trimmed comma-separated pieces (`SplitTrimmed`), one per piece, empty pieces kept |
| `Devices.DeviceTagsRoundTrip` | client/src/pages/devices.tsx:48 | clean tags typed in as `a, b, c` come back unchanged |
| `Devices.DeviceTagsKeepEmptyPieces` | client/src/pages/devices.tsx:48 | a lone comma gives a device two empty tags, where the notes editor gives none |
| `Devices.FilterDevices` | client/src/pages/devices.tsx:35-41 | exactly the devices whose name (any case), IP (as typed) or some tag (any case) contains the term and whose type passes the filter, each as many times as in the store, in order |
| `Devices.InitialFilterShowsAll` | client/src/pages/devices.tsx:31-41 | with the initial empty search and `"all"` filter every device is shown |
| `Devices.FilterByType` | client/src/pages/devices.tsx:39 | a type filter shows only devices of that type; a filter naming no type shows nothing |
| `Devices.ToggledStatus` | client/src/pages/devices.tsx:64 | the new status is offline exactly when the device was online, and is never maintenance |
| `Devices.ToggleTwice` | client/src/pages/devices.tsx:63-65 | toggling twice restores the status except for maintenance, which ends offline |
| `Devices.DeviceFromForm` | client/src/pages/devices.tsx:45-50 | the added device carries the form's fields and parsed tags, status offline and no last-seen time |
| `Devices.DevicesPage.constructor` | client/src/pages/devices.tsx:31-33 | the page opens with an empty search, the `"all"` filter and the dialog closed |
| `Devices.DevicesPage.OpenAdd` | client/src/pages/devices.tsx:77-79 | opens the add dialog |
| `Devices.DevicesPage.Submit` | client/src/pages/devices.tsx:45-54 | appends the form's device under the fresh id, changes nothing else in the store, and closes the dialog |
| `Devices.DevicesPage.HandleDelete` | client/src/pages/devices.tsx:56-61 | deletes the device exactly when the user confirmed |
| `Devices.DevicesPage.ToggleStatus` | client/src/pages/devices.tsx:63-67 | every device with the id gets the toggled status and no other change, and every other device is kept |
| `Notes.FilterNotes` | client/src/pages/notes.tsx:22-26 | exactly the notes whose title, content or some tag contains the term ignoring case, each as many times as in the store, in order |
| `Notes.FilterNotesLaws` | client/src/pages/notes.tsx:22-26 | the empty search lists every note, and the search ignores the term's case |
| `Notes.CreatedTitle` | client/src/pages/notes.tsx:49 | a created note's title is the typed title when there is one and `"Untitled Note"` otherwise |
| `Notes.DraftNote` | client/src/pages/notes.tsx:47-52 | the created note carries the title (or the default), the content and the parsed tags, with no device link |
| `Notes.UnchangedEditKeepsNote` | client/src/pages/notes.tsx:28-60 | saving an untouched note with clean tags changes only its `updatedAt` |
| `Notes.NotesEditor.constructor` | client/src/pages/notes.tsx:13-20 | the editor starts closed, with empty fields |
| `Notes.NotesEditor.StartEdit` | client/src/pages/notes.tsx:28-34 | loads the note's id, title and content, and its tags joined with `", "` |
| `Notes.NotesEditor.StartCreate` | client/src/pages/notes.tsx:36-42 | opens an empty editor under the placeholder id `"new"` in create mode |
| `Notes.NotesEditor.SaveNote` | client/src/pages/notes.tsx:44-64 | from an editor in its invariant state (create mode sits on the placeholder id `"new"`, which every editor method keeps), in create mode appends the draft note. Otherwise, for a non-empty editing id, updates that note's title, content and tags. With no id it leaves the notes as they were. The editor always closes |
| `Notes.NotesEditor.CancelEdit` | client/src/pages/notes.tsx:66-69 | closes the editor and changes nothing else |
| `Notes.ReopenAndSave` | client/src/pages/notes.tsx:28-64 | for a note with a non-empty id and clean (non-empty, trimmed, comma-free) tags, opening it and saving it untouched changes only that note's `updatedAt`. Other notes with the same id get its title, content and tags; notes with other ids, the user, devices, checklists and scripts are unchanged |
| `Scripts.FilterScripts` | client/src/pages/scripts.tsx:25-29 | exactly the scripts whose name, description or some tag contains the term ignoring case, each as many times as in the store, in order |
| `Scripts.FilterScriptsLaws` | client/src/pages/scripts.tsx:25-29 | the empty search lists every script, and the search ignores the term's case |
| `Scripts.LangColor` | client/src/pages/scripts.tsx:87-95 | each of the four named language literals gets its colour class |
| `Scripts.LangColorDistinct` | client/src/pages/scripts.tsx:87-95 | only `other` falls back to the muted colour, and the four named languages have four different colours |
| `Scripts.CreatedName` | client/src/pages/scripts.tsx:56 | a created script's name is the typed name when there is one and `"Untitled Script"` otherwise |
| `Scripts.DraftScript` | client/src/pages/scripts.tsx:54-61 | the created script carries the name (or the default), description, language, content and parsed tags, with no links |
| `Scripts.UnchangedEditKeepsScript` | client/src/pages/scripts.tsx:31-71 | saving an untouched script with clean tags changes only its `updatedAt` |
| `Scripts.ScriptsEditor.constructor` | client/src/pages/scripts.tsx:14-23 | the editor starts closed, with empty fields and bash selected |
| `Scripts.ScriptsEditor.StartEdit` | client/src/pages/scripts.tsx:31-39 | loads the script's fields, with its tags joined with `", "` |
| `Scripts.ScriptsEditor.StartCreate` | client/src/pages/scripts.tsx:41-49 | opens the bash template under the placeholder id `"new"` in create mode |
| `Scripts.ScriptsEditor.SaveScript` | client/src/pages/scripts.tsx:51-75 | from an editor in its invariant state (create mode sits on the placeholder id `"new"`, which every editor method keeps), in create mode appends the draft script. Otherwise, for a non-empty editing id, updates that script's five fields. With no id it leaves the scripts as they were. The editor always closes |
| `Scripts.ScriptsEditor.CancelEdit` | client/src/pages/scripts.tsx:77-80 | closes the editor and changes nothing else |
| `Scripts.ReopenAndSave` | client/src/pages/scripts.tsx:31-75 | for a script with a non-empty id and clean (non-empty, trimmed, comma-free) tags, opening it and saving it untouched changes only that script's `updatedAt`. Other scripts with the same id get its five edited fields; scripts with other ids, the user and the persisted collections are unchanged |
| `Checklists.ToggledTasks` | client/src/pages/checklists.tsx:23-25 | every task with the id gets `completed` set to the negation of the shown value, and every other task is kept |
| `Checklists.ToggleTwiceRestores` | client/src/pages/checklists.tsx:19-27 | two clicks, each with the value then shown, restore the task list |
| `Checklists.AppendedTask` | client/src/pages/checklists.tsx:37-43 | the old tasks followed by one new, uncompleted task |
| `Checklists.AddThenDeleteTask` | client/src/pages/checklists.tsx:30-50 | a task added under a fresh id and then deleted leaves the tasks as they were |
| `Checklists.AfterTaskAction` | client/src/pages/checklists.tsx:19-50 | an unknown checklist id changes nothing. Other checklists are kept. Every checklist with the id gets the task list computed from the first one with that id (`find`). With unique ids that is its own tasks |
| `Checklists.CompletedCount` | client/src/pages/checklists.tsx:101 | the number of completed tasks: zero for no tasks, and the first task's 0 or 1 plus the count of the rest. At most the number of tasks; zero exactly when none is completed, full exactly when all are |
| `Checklists.Progress` | client/src/pages/checklists.tsx:101-103 | between 0 and 100; 100 exactly when there are tasks and all are completed; 0 exactly when none is |
| `Checklists.ChecklistsPage.constructor` | client/src/pages/checklists.tsx:15-17 | the dialog starts closed with empty fields |
| `Checklists.ChecklistsPage.ToggleTask` | client/src/pages/checklists.tsx:19-28 | the checklists become `AfterTaskAction` with the toggled tasks, and nothing else changes |
| `Checklists.ChecklistsPage.AddTask` | client/src/pages/checklists.tsx:30-44 | a cancelled or empty prompt changes nothing; otherwise the checklists become `AfterTaskAction` with the task appended |
| `Checklists.ChecklistsPage.DeleteTask` | client/src/pages/checklists.tsx:46-50 | the checklists become `AfterTaskAction` with the task removed, and nothing else changes |
| `Checklists.ChecklistsPage.CreateChecklist` | client/src/pages/checklists.tsx:52-64 | appends an empty "General" checklist with the dialog's title and description, then clears and closes the dialog |
| `Dashboard.StatusPartition` | client/src/pages/dashboard.tsx:10-11 | the online, offline and maintenance counts add up to the number of devices |
| `Dashboard.AllTasks` | client/src/pages/dashboard.tsx:12-13 | `flatMap(c => c.tasks)` holds every task of every checklist and nothing else, starts with the first checklist's tasks, and has as many tasks as the cards' totals add up to |
| `Dashboard.DashboardAgreesWithCards` | client/src/pages/dashboard.tsx:12-13 | the dashboard's total and completed counts are the sums of the checklist cards' counts |
| `Dashboard.CompletionRate` | client/src/pages/dashboard.tsx:70 | the nearest whole percentage with halves rounded up: at most 100, 0 with nothing done, 100 with everything done |
| `Dashboard.FullRateWithPending` | client/src/pages/dashboard.tsx:70 | 199 of 200 tasks done shows as 100% while one task is pending |
| `Dashboard.Summarise` | client/src/pages/dashboard.tsx:10-70 | the cards show the device and note counts, online plus offline at most the device count, pending plus completed equal to the total, and the rounded percentage `CompletionRate` of the completed tasks. That rate is at most 100, 0 with no tasks and 100 when tasks exist and none is pending |
| `Dashboard.InitialSummary` | client/src/pages/dashboard.tsx:10-13 | a fresh store shows 3 devices (2 online, 1 offline), 1 note, 5 pending tasks and 0% |
| `Dashboard.Recent` | client/src/pages/dashboard.tsx:134 | `slice(0, 5)`: the first five, or all when fewer |

## Left out

- Persistence: the `persist` middleware and its `homelab-storage` key in local storage (client/src/lib/store.ts:101, 163-165) are outside the model. So are the React re-rendering and the zustand subscription.
- JSON text: `Text` is either the serialisation of a JSON value or some text that is not JSON. The character-level syntax of `JSON.stringify` and `JSON.parse` is not modelled. JSON numbers are integers; no record field holds a number.
- Randomness and the clock: the ids from `Math.random().toString(36).substring(7)` and the times from `new Date().toISOString()` are parameters, one per clock read: two for `addNote`, one per seed device and two for the seed note. Nothing proves the ids fresh, so the add-then-delete lemmas take freshness as a precondition.
- Store.UpdatedNotes: `updateNote` reads the clock once for each note carrying the id (client/src/lib/store.ts:130); the model stamps every such note with one value `now`, which differs from the source only when the list holds the id more than once. The same holds for Store.UpdatedScripts.
- Checklists.Progress: floating point is not modelled; the percentage is exact real arithmetic.
- Dashboard.CompletionRate: exact integer round-half-up of `c / t * 100`. On IEEE doubles that product can land a hair off a half, so that `Math.round` differs by one.
- Text.ToLower: `toLowerCase` covers ASCII letters only; full Unicode case mapping is not modelled.
- Patches: a patch field is `Some` when the patch object carries that key with a value. A key carried with the value `undefined`, which a spread would also copy, is not modelled; neither are extra keys that `...data` could carry into `addDevice`.
- The devices form's field `tags` is a string: react-hook-form hands over `""` for an untouched input, and a missing field is not modelled. The type select always yields one of the seven literals. The toggle's `currentStatus` parameter is a string in the source; it is given the device's `Status`.
- Codec.Import: accepts a text only when it reads as an object of three lists of records, where the source's guard admits any three truthy values (see Findings); this is the corrected half of that finding.
- Store.AppStore.ImportData: installs a payload only when it reads as three lists of records. The source installs any payload that passes its truthiness guard (see Findings), and so does not promise this.
- Store.AppStore.AddScript, Store.AppStore.UpdateScript and Store.AppStore.DeleteScript have no source in store.ts; their behaviour is assumed from the notes actions.
- Rendering: the JSX, the icons (including the `DeviceIcon` switch, client/src/pages/devices.tsx:15-25), badges, toasts and dialog open/close wiring from the UI library are outside the model. So are the `required` attribute of the form inputs and the search input setters.
- The copy-to-clipboard button of the scripts page (client/src/pages/scripts.tsx:82-85) is a browser call and is not modelled.
- The login and settings pages, `App.tsx` routing and the layout component are outside the modelled core.
- Devices search: the IP address is matched case-sensitively, so the devices filter has no case-insensitivity law like the notes and scripts filters.

## Findings

| source | as written | input that shows it | evidently intended | confidence | as-written member | corrected member |
|---|---|---|---|---|---|---|
| client/src/lib/store.ts:153-155 | `importData` installs `data.devices`, `data.notes` and `data.checklists` whenever all three are truthy, whatever their shape | `{"devices": 1, "notes": 1, "checklists": 1}` is accepted and the store's collections become the number 1, which the pages then call `.filter` on | accept only a backup whose three values are lists of records, and refuse the rest with `false` | not executed | `Codec.GuardAdmitsUndecodable` | `Codec.Import` |
