# Support-plan pages: record patching, service summary and upload list

This project models, in Dafny, the three pieces of record and string logic in a
browser form application for welfare-service support plans.

- **Plan editor** (`plan_editor.dfy`, module `PlanEditor`). The page holds one
  plan record. The record has six named sections of string fields
  (`basicInfo`, `currentSituation`, `goals`, `services`, `supportSystem`,
  `monitoring`) and two top-level strings (`summary`, `lifeHistory`).
  `updatePlanData(section, field, value)` builds a new record from the old one.
  For `summary` and `lifeHistory` it overwrites that string and ignores
  `field`. For any other section it overwrites one field of that section,
  unknown field names included. The model gives the record as the datatype
  `PlanData` and the update as the function `Update`. The class `Editor` holds
  the current record, and each update replaces that record. The lemmas show
  that exactly one slot changes, that the write is idempotent, that the last
  write wins, that writes to different slots commute, and that unknown field
  names are written rather than rejected.
- **Plan view** (`plan_view.dfy`, module `PlanView`). The page picks the record
  to show. It uses the stored record under `planData_<id>` when it has one, and
  otherwise a built-in sample (`SelectPlan`, `DefaultPlanData`). It renders the
  selected services as one line (`ServiceSummary`). For each service label it
  takes the digits of its frequency and duration, forms `週<freq>` and
  `<dur>時間`, drops empty parts and joins the rest with a space. The fragments
  are joined with `、`. A `serviceType` that is not an array is shown as it is.
- **Audio upload** (`audio_upload.dfy`, module `AudioUpload`). The page keeps a
  list of `UploadedFile` entries. A drop appends entries that are uploading
  at 0. A timer tick adds 10 to one id's progress, and at 100 it clamps and
  switches to processing. Completion marks one id completed. The page also
  counts completed entries and maps each status to a chip colour. The class
  `UploadList` holds the list, and its methods replace the list with the
  result of each updater.

`wrappers.dfy` (module `Wrappers`) defines `Option` and `Result`.

Boundaries of the model:
- The browser's key-value store is a `map<string, string>` from key to stored
  text.
- Decoding the stored text is an opaque function parameter
  `string -> Option<ViewPlan>`. `None` stands for text the decoder rejects,
  where the page's effect would throw. The model returns that as
  `Failure(SyntaxError(raw))`.
- Ids of new upload entries are inputs.
- Timers are kept out of the model. Each timer firing is one call of the
  matching updater.

The model follows the code as written:
- In the editor `services.serviceType` is a single string
  (src/pages/PlanEditor/PlanEditor.tsx:51). It uses no frequency or duration
  maps.
- Saving only writes to the console
  (src/pages/PlanEditor/PlanEditor.tsx:133-136).
- The view shows the decoded stored record without filling in missing fields
  (src/pages/PlanView/PlanView.tsx:159).
- There is no leading-zero stripping: `"007"` is shown as `007`.

JavaScript truthiness is modelled as written. An empty route id or an empty
stored text falls through to the sample record. An empty label or a part with
no digits is dropped from a fragment.

## Model

| member | source | states |
|---|---|---|
| PlanEditor.Update | src/pages/PlanEditor/PlanEditor.tsx:147-159 | the slot addressed by (section, field) then reads `value` (for summary/lifeHistory whatever `field` is); every slot not aliased to it reads as before |
| PlanEditor.UpdateTopLevel | src/pages/PlanEditor/PlanEditor.tsx:148-149 | updating summary or lifeHistory sets exactly that string and leaves the other string and all sections unchanged |
| PlanEditor.UpdateSection | src/pages/PlanEditor/PlanEditor.tsx:150-157 | a section update makes section.field == value, keeps the section's other fields, every other section, summary and lifeHistory; the section's key set becomes old keys plus `field` |
| PlanEditor.UpdateKeyGrowth | src/pages/PlanEditor/PlanEditor.tsx:153-156 | field names are not checked: the section's key count grows by one exactly when `field` was not a key, otherwise stays |
| PlanEditor.UpdateKeepsWellFormed | src/pages/PlanEditor/PlanEditor.tsx:147-159 | for a section name of the record's type, the record keeps exactly its six sections |
| PlanEditor.UpdateConforms | src/pages/PlanEditor/PlanEditor.tsx:153-156 | a record with exactly the declared fields keeps that shape after an update iff the update is top-level or names a declared field (unknown names are added, not rejected) |
| PlanEditor.UpdateIdempotent | src/pages/PlanEditor/PlanEditor.tsx:147-159 | applying the same (section, field, value) twice equals applying it once |
| PlanEditor.UpdateLastWins | src/pages/PlanEditor/PlanEditor.tsx:151-157 | two updates to the same slot leave only the last value |
| PlanEditor.UpdateCommutes | src/pages/PlanEditor/PlanEditor.tsx:147-159 | updates to different slots give the same record in either order |
| PlanEditor.InitialPlan | src/pages/PlanEditor/PlanEditor.tsx:85-131 | the `useState` literal; a constant with no contract of its own, described by InitialPlanConforms, InitialBasicInfoFields, InitialOtherSectionFields and InitialPlanSample |
| PlanEditor.InitialPlanConforms | src/pages/PlanEditor/PlanEditor.tsx:85-131 | the initial record has the six sections, each with exactly the fields its interface declares (lines 25-71) |
| PlanEditor.InitialPlanSample | src/pages/PlanEditor/PlanEditor.tsx:85-131 | the initial record has empty summary and lifeHistory and basicInfo.name 田中太郎 |
| PlanEditor.Editor.constructor | src/pages/PlanEditor/PlanEditor.tsx:85 | the page starts from the initial record |
| PlanEditor.Editor.UpdatePlanData | src/pages/PlanEditor/PlanEditor.tsx:147-159 | the state becomes the patched record and keeps its six sections |
| PlanView.SelectPlan | src/pages/PlanView/PlanView.tsx:155-164 | with a non-empty id and non-empty stored text under `planData_<id>` the result is the decoded record (or the decoder's failure); otherwise the sample record |
| PlanView.StorageKey | src/pages/PlanView/PlanView.tsx:157 | the key `planData_<id>`; no contract of its own, StorageKeyInjective states that distinct ids give distinct keys |
| PlanView.StorageKeyInjective | src/pages/PlanView/PlanView.tsx:157 | distinct ids use distinct storage keys |
| PlanView.SelectIgnoresOtherKeys | src/pages/PlanView/PlanView.tsx:156-163 | selecting an id reads only that id's key: writing any other key does not change the result |
| PlanView.SelectAfterStore | src/pages/PlanView/PlanView.tsx:156-161 | after non-empty text is written under an id's key, selecting that id yields its decoding, or fails when it does not decode |
| PlanView.Digits | src/pages/PlanView/PlanView.tsx:256-257 | the stripped text consists of ASCII digits only and is no longer than the input |
| PlanView.DigitsConcat | src/pages/PlanView/PlanView.tsx:256-257 | stripping distributes over concatenation, so the digits keep their original order |
| PlanView.DigitsKeepsDigits | src/pages/PlanView/PlanView.tsx:256-257 | text made only of digits is kept unchanged (no leading zeros removed) |
| PlanView.DigitsMultiset | src/pages/PlanView/PlanView.tsx:256-257 | each digit occurs in the result exactly as often as in the input, and no non-digit occurs (non-digits are removed, not replaced) |
| PlanView.DigitsNoDigits | src/pages/PlanView/PlanView.tsx:256-258 | text without digits strips to the empty string, so its part is then omitted |
| PlanView.DigitsIdempotent | src/pages/PlanView/PlanView.tsx:256-257 | stripping twice equals stripping once |
| PlanView.Compact | src/pages/PlanView/PlanView.tsx:260 | `filter(Boolean)` gives no empty string, only parts of the input, every non-empty part, and never a longer list |
| PlanView.CompactMultiset | src/pages/PlanView/PlanView.tsx:260 | each non-empty part is kept as often as it occurs and no empty part is kept |
| PlanView.CompactConcat | src/pages/PlanView/PlanView.tsx:260 | dropping empties distributes over concatenation, so the kept parts stay in input order |
| PlanView.Join | src/pages/PlanView/PlanView.tsx:260-261 | `Array.prototype.join` over strings; no contract of its own, JoinConcat states its split law and JoinCompactThree its three-part closed form |
| PlanView.JoinConcat | src/pages/PlanView/PlanView.tsx:261 | joining two non-empty lists equals the two joins with one separator between them |
| PlanView.JoinCompactThree | src/pages/PlanView/PlanView.tsx:260 | three parts with empty ones dropped and joined: each present part once, in order, a separator exactly between two present parts |
| PlanView.Lookup | src/pages/PlanView/PlanView.tsx:254-255 | the map lookup that gives `''` for an absent map or label; no contract of its own, FragmentOmitsFrequency and FragmentOmitsDuration state its effect on the fragment |
| PlanView.Fragment | src/pages/PlanView/PlanView.tsx:253-260 | one service's fragment; no contract of its own, FragmentShape gives its closed form and FragmentOmitsFrequency, FragmentOmitsDuration and the four examples its cases |
| PlanView.FragmentShape | src/pages/PlanView/PlanView.tsx:254-260 | a fragment is label, then `週`+digits of the frequency, then digits of the duration+`時間`, each only when non-empty, separated by single spaces |
| PlanView.FragmentOmitsFrequency | src/pages/PlanView/PlanView.tsx:254-258 | an absent frequency map, a label missing from it, or a value without digits leaves the fragment as with no frequency at all |
| PlanView.FragmentOmitsDuration | src/pages/PlanView/PlanView.tsx:255-259 | the same for the duration map |
| PlanView.Fragments | src/pages/PlanView/PlanView.tsx:253 | exactly one fragment per label, at the label's position |
| PlanView.ServiceSummary | src/pages/PlanView/PlanView.tsx:251-263 | the `利用サービス種別` line; no contract of its own, SummaryVerbatim states the non-array case, SummaryBase and SummaryConcat the array case (fragments in label order separated by `、`), DefaultSummary the sample |
| PlanView.SummaryVerbatim | src/pages/PlanView/PlanView.tsx:262 | a non-array serviceType is returned as it is |
| PlanView.SummaryBase | src/pages/PlanView/PlanView.tsx:253-261 | no labels give empty text; one label gives exactly its fragment |
| PlanView.SummaryConcat | src/pages/PlanView/PlanView.tsx:253-261 | the summary of labels a+b is the summary of a, `、`, the summary of b: fragments in label order, one `、` between neighbours |
| PlanView.FragmentBothExample | src/pages/PlanView/PlanView.tsx:253-261 | 居宅介護 with frequency 3 and duration 2 renders as `居宅介護 週3 2時間` |
| PlanView.FragmentNoFrequencyExample | src/pages/PlanView/PlanView.tsx:253-261 | with empty frequency and duration 2 it renders as `居宅介護 2時間` |
| PlanView.FragmentStripsTextExample | src/pages/PlanView/PlanView.tsx:256-258 | a stored frequency `週3回` renders as `週3` |
| PlanView.FragmentEmptyLabelExample | src/pages/PlanView/PlanView.tsx:257-260 | an empty label is dropped and `007` keeps its zeros |
| PlanView.DefaultPlanData | src/pages/PlanView/PlanView.tsx:83-147 | the sample record; a constant with no contract of its own, DefaultSummary states how its services render |
| PlanView.DefaultSummary | src/pages/PlanView/PlanView.tsx:106-112 | the sample record, having no frequency or duration maps, renders as `居宅介護` |
| AudioUpload.NewEntries | src/pages/AudioUpload/AudioUpload.tsx:38-44 | one entry per accepted file, in order, with that file's name and size, the given id, status uploading, progress 0, no error |
| AudioUpload.UploadList.Drop | src/pages/AudioUpload/AudioUpload.tsx:46 | the list becomes the old list followed by the new entries; progress stays within 0..100 |
| AudioUpload.TickFile | src/pages/AudioUpload/AudioUpload.tsx:67-79 | one entry's step inside the interval's updater; no contract of its own, Tick states its effect on every entry |
| AudioUpload.Tick | src/pages/AudioUpload/AudioUpload.tsx:66-80 | length and order kept; entries with another id unchanged; a matching entry gets progress+10 if below 100, else exactly 100 and processing, other fields kept |
| AudioUpload.TickKeepsRange | src/pages/AudioUpload/AudioUpload.tsx:68-77 | a tick keeps every progress within 0..100 |
| AudioUpload.UploadList.ApplyTick | src/pages/AudioUpload/AudioUpload.tsx:64-82 | one interval firing replaces the list by its tick and keeps progress within 0..100 |
| AudioUpload.Ticks | src/pages/AudioUpload/AudioUpload.tsx:64-82 | n successive interval firings for one id keep the list length; TicksProgress and TicksOthers state what they do to each entry |
| AudioUpload.TicksProgress | src/pages/AudioUpload/AudioUpload.tsx:64-82 | after n ticks a matching entry has progress p+10n while below 100, and from then on exactly 100 and processing |
| AudioUpload.TicksOthers | src/pages/AudioUpload/AudioUpload.tsx:66-79 | any number of ticks leaves entries with another id unchanged |
| AudioUpload.TenTicksFromZero | src/pages/AudioUpload/AudioUpload.tsx:68-75 | from 0, nine ticks give 90 with the status unchanged and ten ticks give 100 and processing |
| AudioUpload.TickAfterComplete | src/pages/AudioUpload/AudioUpload.tsx:64-93 | the two timers are independent: a tick after completion takes the entry to 100 and processing when progress+10 reaches 100, and otherwise leaves it completed at progress+10 |
| AudioUpload.Complete | src/pages/AudioUpload/AudioUpload.tsx:86-92 | matching entries become completed with all else, progress included, kept; others untouched; length and order kept |
| AudioUpload.UploadList.ApplyComplete | src/pages/AudioUpload/AudioUpload.tsx:85-93 | the completion timeout replaces the list by its completion and keeps progress within 0..100 |
| AudioUpload.CompletedFiles | src/pages/AudioUpload/AudioUpload.tsx:137 | the completed list is no longer than the list, holds only completed entries of the list, and holds every completed entry |
| AudioUpload.CompletedFilesMultiset | src/pages/AudioUpload/AudioUpload.tsx:137 | each completed entry is kept as often as it occurs and no other entry is kept |
| AudioUpload.CompletedFilesConcat | src/pages/AudioUpload/AudioUpload.tsx:137 | filtering distributes over concatenation, so completed entries stay in list order |
| AudioUpload.CompletedCountIsIndexCount | src/pages/AudioUpload/AudioUpload.tsx:137 | `completedFiles.length` equals the number of positions holding a completed entry |
| AudioUpload.HasCompletedIff | src/pages/AudioUpload/AudioUpload.tsx:138 | the completed list is non-empty iff some entry is completed |
| AudioUpload.CompleteCount | src/pages/AudioUpload/AudioUpload.tsx:86-92 | completion never lowers the completed count and every entry with that id is then counted |
| AudioUpload.UploadList.CompletedCount | src/pages/AudioUpload/AudioUpload.tsx:137-138 | the count is at most the list length and equals the number of positions holding a completed entry; hasCompleted holds iff some entry is completed |
| AudioUpload.UploadList.constructor | src/pages/AudioUpload/AudioUpload.tsx:33 | the list starts empty |
| AudioUpload.StatusColor | src/pages/AudioUpload/AudioUpload.tsx:116-127 | completed→success, error→error, processing→warning, anything else→default, each in both directions |
| AudioUpload.StatusColors | src/pages/AudioUpload/AudioUpload.tsx:116-127 | the four entry statuses get default, warning, success and error |

## Left out

- JSX rendering, MUI layout and `getStatusIcon`: presentation only.
- Timer scheduling (`setInterval`, `setTimeout`, `clearInterval`) and the
  processing-all delay with navigation: only the updaters the timers apply are
  modelled, not when they fire or how they interleave.
- Random ids (`Math.random`): ids are inputs, and nothing makes them unique.
- `formatFileSize`: it uses floating-point logarithms, powers and rounding.
- `localStorage` and `JSON.parse`: they are a finite map and an opaque decoder.
  A decoded value that is not a plan record (for example `null`) is not
  represented.
- Print, PDF download and the save handler: they call `window.print` or only
  write to the console.
- The drop zone's accepted types and size limit: that is configuration of a
  library that is not part of this model.
- src/App.tsx and src/index.tsx: routing and bootstrapping, no logic.
- Not present in this code and therefore not modelled: toggling service types
  with removal of their map entries, leading-zero stripping, filling in
  missing fields on load, and saving to storage.
- PlanView.Lookup: does not model keys that JavaScript resolves on the object
  prototype (such as a label `constructor`). The model reads such labels as
  missing.
- PlanEditor.Update: the record's type lets `section` name only the six
  sections and the two top-level strings. The function accepts any name: it
  treats a missing section as empty, the way spreading `undefined` does. The
  editor method requires a typed name.
