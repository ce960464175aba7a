# Digital signage media showcase — a Dafny model

This project models the core of a web application for digital signage. Clients
upload images and videos into weekday folders ("segunda" … "domingo") or into
the every-day folder "todos". An administrator manages clients, system settings
and the stored media. A player rotates through the visible media filed for
today.

The model covers these parts of the application:

- the browser-side media store (`FileStorage`), modelled as a class whose folder
  table is updated in place;
- the two player hooks: the local one fed by the store, and the backend-fed one
  that is refreshed every 30 seconds;
- the media renderer's decisions: element kind, animation class and end trigger;
- the settings mapping between the application's and the database's shapes;
- the settings editor;
- the two admin pages: local storage and backend;
- the client manager form and the media folder overview;
- the client sign-in forms;
- the drag-and-drop picker;
- the two upload pages.

Modules:

| module | models |
|---|---|
| `Seqs` | `filter`, `find` and `findIndex`, `some`, and index removal, with their properties |
| `Text` | ASCII case mapping, the ECMAScript white-space set used by `trim()` and `\s`, `startsWith`, `endsWith`, `slice` |
| `Types` | the shared records |
| `FileStore` | `src/utils/fileStorage.ts` |
| `Rotation`, `LocalPlayer`, `SupabasePlayer` | `src/hooks/useMediaPlayer.ts` and `src/hooks/useSupabaseMediaPlayer.ts` |
| `Renderer` | `src/components/player/MediaRenderer.tsx` |
| `SettingsService` | `src/services/settingsService.ts` |
| `SettingsEditor` | `src/components/admin/SettingsManager.tsx` |
| `SupabaseAdmin` | `src/pages/SupabaseAdmin.tsx` |
| `ClientManager` | `src/components/admin/ClientManager.tsx` |
| `MediaFolders` | `src/components/admin/MediaFolderManager.tsx` |
| `ClientAuth` | `src/components/auth/ClientLogin.tsx` and `ClientLoginNew.tsx` |
| `DragDrop` | `src/components/upload/DragDropUpload.tsx` |
| `SupabaseUploadPage` | `src/pages/SupabaseUpload.tsx` |
| `LocalUpload` | `src/pages/Upload.tsx` |
| `AdminPanel` | `src/pages/Admin.tsx` |

State that the source keeps in React hooks becomes a class whose methods are
the handlers. Values the program reads from outside are parameters of the
handler that uses them:

- the clock, `Math.random` and `Date.now` ids;
- `FileReader` data URLs;
- backend answers;
- the current weekday.

A JavaScript object used as a folder table is a pair: `keys`, a sequence in
insertion order that gives the enumeration order of `Object.values`, and
`data`, a map.

The player's rotation reads `availableMedia[currentIndex]` without checking the
index. The model does not hide this read: it is the outcome `UndefinedMedia`,
which leaves the state unchanged. `SupabasePlayer.ShrinkingRefreshScenario`
shows a refresh that shrinks the list and so reaches it.

## Model

| member | source | states |
|---|---|---|
| Seqs.Filter | src/hooks/useMediaPlayer.ts:28-30 | `Array.filter` keeps only elements that pass, and never grows the list |
| Seqs.FilterExactly | src/pages/Admin.tsx:153 | an element is in the filtered list exactly when it is in the list and passes |
| Seqs.FilterConcat | src/hooks/useMediaPlayer.ts:28-30 | filtering a concatenation concatenates the filtered parts, so order is kept |
| Seqs.FilterIdempotent | src/utils/fileStorage.ts:136 | filtering twice by the same test is filtering once |
| Seqs.FilterDisjointCounts | src/pages/SupabaseAdmin.tsx:207-214 | two exclusive tests count at most the list length, and exactly the length when every element passes one |
| Seqs.FindFirst | src/utils/fileStorage.ts:118 | `findIndex` gives the first passing index, or -1 (None) when none passes |
| Seqs.Find | src/pages/Admin.tsx:211 | `find` yields a value iff some element passes; the value is the first passing element of the list |
| Seqs.Any | src/utils/fileStorage.ts:141-144 | `some` holds iff some element passes |
| Seqs.FilterCount | src/components/admin/MediaFolderManager.tsx:27-32 | the length of a filter is the number of elements passing its test |
| Seqs.CountOfFilter | src/pages/SupabaseAdmin.tsx:207-214 | counting by one test among the elements passing another is counting by both |
| Seqs.RemoveAt | src/pages/Upload.tsx:198-200 | filtering out index `i` drops exactly that element when `i` is in range, and changes nothing otherwise |
| Text.Lower | src/utils/fileStorage.ts:108 | `toLowerCase` keeps the length and maps each character |
| Text.LowerIdempotent | src/utils/fileStorage.ts:108 | lower-casing a lower-cased folder name changes nothing |
| Text.LowerOfUpper | src/components/auth/ClientLoginNew.tsx:37-43 | lower-casing forgets the case an identifier was typed in |
| Text.BlankIffAllSpace | src/components/auth/ClientLoginNew.tsx:23-30 | `!s.trim()` holds exactly when every character is white space |
| Text.UpperKeepsBlank | src/components/auth/ClientLoginNew.tsx:23-30 | upper-casing neither creates nor removes a blank field |
| Text.StripSpaces | src/pages/SupabaseAdmin.tsx:69 | `replace(/\s+/g, '')` is the order-keeping filter of the non-white-space characters: a character survives iff it is not white space |
| Text.StripSpacesConcat | src/pages/SupabaseAdmin.tsx:69 | stripping works piecewise over a concatenation, so the surviving characters keep their order |
| Text.TrimTrailingSpace | src/components/auth/ClientLoginNew.tsx:23 | a trailing space disappears under `trim()` |
| Text.Take | src/pages/SupabaseAdmin.tsx:69 | `slice(0, n)` is the prefix of length `min(n, length)` |
| Text.ImageVideoDisjoint | src/pages/SupabaseAdmin.tsx:207-214 | no mime type starts with both "image/" and "video/" |
| FileStore.FlattenMembership | src/utils/fileStorage.ts:91-97 | a record is in the concatenation iff some listed folder holds it |
| FileStore.FlattenLength | src/utils/fileStorage.ts:91-97 | the concatenation's length is the sum of the folder lengths |
| FileStore.Appended | src/utils/fileStorage.ts:107-114 | pushing onto a folder adds that key and leaves every other folder as it was |
| FileStore.AppendedWellKeyed | src/utils/fileStorage.ts:109-111 | after `addFiles` the insertion-ordered key list still matches the table, with no duplicates |
| FileStore.RemoveFirstWithIdSpec | src/utils/fileStorage.ts:117-123 | the splice removes one record iff one carries the id, and keeps every other-id record in order |
| FileStore.UpdatedMovesRecord | src/utils/fileStorage.ts:116-131 | after `updateFile` the record is last in its lower-cased folder, and every other folder lost at most one record |
| FileStore.UpdateOfAbsentIdAdds | src/utils/fileStorage.ts:116-131 | updating an id no record carries just files the record |
| FileStore.DeletedAllSpec | src/utils/fileStorage.ts:134-139 | after `deleteFile` no record carries the id and every other record stays |
| FileStore.DeletedAllIdempotent | src/utils/fileStorage.ts:134-139 | deleting twice is deleting once |
| FileStore.AddedCount | src/utils/fileStorage.ts:107-114 | adding `n` files grows the flattened list by `n`; a new folder's files come last |
| FileStore.FileStorage.constructor | src/utils/fileStorage.ts:5-11 | a store starts with an empty, well-keyed folder table |
| FileStore.FileStorage.GetAllFiles | src/utils/fileStorage.ts:91-97 | `getAllFiles` concatenates the folders in key order: its length is the total count, and its members are exactly the stored records |
| FileStore.FileStorage.FilesByFolder | src/utils/fileStorage.ts:99-101 | the list stored under the lower-cased folder name, or `[]` for an unknown folder; every result is a stored record |
| FileStore.FileStorage.FilesByClient | src/utils/fileStorage.ts:103-105 | a record is in the result iff it is stored and carries that client |
| FileStore.FileStorage.CheckFileExists | src/utils/fileStorage.ts:141-144 | true iff the lower-cased folder holds a record with that name |
| FileStore.FileStorage.AddFiles | src/utils/fileStorage.ts:107-114 | the files are appended to the lower-cased folder, which is created if absent; the total grows by their count |
| FileStore.FileStorage.UpdateFile | src/utils/fileStorage.ts:116-131 | the first record with the id leaves every folder, and the new record is pushed last onto its lower-cased folder |
| FileStore.FileStorage.SpliceFirstWithId | src/utils/fileStorage.ts:117-123 | each folder loses its first record with the id, keys unchanged |
| FileStore.FileStorage.DeleteFile | src/utils/fileStorage.ts:134-139 | every record with the id is removed from every folder, keys unchanged |
| Rotation.EligibleSpec | src/hooks/useSupabaseMediaPlayer.ts:22-30 | today's list is exactly the visible records in "todos" or today's folder, in fetched order |
| Rotation.EligibilityByFolder | src/hooks/useMediaPlayer.ts:23-31 | hidden records never play; "todos" records play every day; a weekday's records play only on that day |
| Rotation.EveryDayListPlaysInFull | src/hooks/useMediaPlayer.ts:23-31 | a list of visible "todos" records plays in full on any day |
| Rotation.AdvanceInRange | src/hooks/useSupabaseMediaPlayer.ts:45-75 | an in-range index shows its record and stays in range; an out-of-range index is exactly the unchecked read |
| Rotation.IndexAfterStep | src/hooks/useSupabaseMediaPlayer.ts:74 | `(i + 1) % length` is `i + 1`, or 0 at the end |
| Rotation.IndexAfterCallsWraps | src/hooks/useSupabaseMediaPlayer.ts:74 | `k` calls from index `i` land on `i + k` modulo the length |
| Rotation.ShownIsRotation | src/hooks/useMediaPlayer.ts:39-58 | `k` calls from `i` show the first `k` records of the list rotated to start at `i` |
| Rotation.RoundRobinClosure | src/hooks/useMediaPlayer.ts:57 | one full cycle shows every record exactly once and returns to the starting index |
| SupabasePlayer.SupabaseMediaPlayer.constructor | src/hooks/useSupabaseMediaPlayer.ts:4-12 | the hook starts with nothing loaded, index 0, not playing, loading |
| SupabasePlayer.SupabaseMediaPlayer.PlayNext | src/hooks/useSupabaseMediaPlayer.ts:45-75 | nothing eligible: stop and clear; in range: show the record and advance the index; past the end: the unchecked read |
| SupabasePlayer.SupabaseMediaPlayer.HandleMediaEnd | src/hooks/useSupabaseMediaPlayer.ts:77-80 | the end of a medium plays the next one: the outcome and index of `playNextMedia`, with the screen cleared, showing the record, or unchanged |
| SupabasePlayer.SupabaseMediaPlayer.StartRefresh | src/hooks/useSupabaseMediaPlayer.ts:32-34 | a refresh sets `loading` and touches nothing else |
| SupabasePlayer.SupabaseMediaPlayer.FinishRefresh | src/hooks/useSupabaseMediaPlayer.ts:32-43 | a successful fetch replaces the list and a failed one keeps it; `loading` is cleared; the index is kept |
| SupabasePlayer.SupabaseMediaPlayer.AutoStart | src/hooks/useSupabaseMediaPlayer.ts:93-99 | playback starts iff something is eligible, nothing plays and nothing loads; a start never clears the screen and shows the record or leaves the screen as it was |
| SupabasePlayer.ShrinkingRefreshScenario | src/hooks/useSupabaseMediaPlayer.ts:55-56 | after two records and one shown, a refresh down to one record makes the next call read past the end |
| LocalPlayer.LocalMediaPlayer.constructor | src/hooks/useMediaPlayer.ts:7-11 | the hook starts empty, index 0, not playing |
| LocalPlayer.LocalMediaPlayer.UpdateMediaFiles | src/hooks/useMediaPlayer.ts:33-37 | the list becomes `getAllFiles()`; the rotation state is kept |
| LocalPlayer.LocalMediaPlayer.PlayNext | src/hooks/useMediaPlayer.ts:39-58 | as the backend-fed player: stop, show and advance, or the unchecked read |
| LocalPlayer.LocalMediaPlayer.HandleMediaEnd | src/hooks/useMediaPlayer.ts:60-63 | the end of a medium plays the next one: the outcome and index of `playNextMedia`, with the screen cleared, showing the record, or unchanged |
| LocalPlayer.LocalMediaPlayer.AutoStart | src/hooks/useMediaPlayer.ts:76-82 | playback starts iff something is eligible and nothing plays; a start never clears the screen and shows the record or leaves the screen as it was |
| Renderer.MediaTypeOf | src/components/player/MediaRenderer.tsx:6-11 | a record's own type wins; without one, a "video/" mime type means video |
| Renderer.AnimationOf | src/components/player/MediaRenderer.tsx:14-16 | `animation`, else `animation_type`, else "fade"; never empty |
| Renderer.AnimationClass | src/components/player/MediaRenderer.tsx:38-58 | the class is one of the five animation classes |
| Renderer.AnimationClassCases | src/components/player/MediaRenderer.tsx:38-58 | a class other than fade-in iff the animation is one of the four named ones; no animation gives fade-in |
| Renderer.ImageDelay | src/components/player/MediaRenderer.tsx:32-36 | an image stays for its own non-zero duration, or the five-second default when the duration is 0 |
| Renderer.EndTriggerOf | src/components/player/MediaRenderer.tsx:61-78 | videos end on `onEnded`; images end after their display delay |
| Renderer.Render | src/components/player/MediaRenderer.tsx:80-100 | a video element iff the media type is video, keyed and sourced by the url; videos muted and autoplaying; images carry the animation class |
| Renderer.MutedPropIgnored | src/components/player/MediaRenderer.tsx:23-31 | the `isMuted` prop never changes what is rendered |
| Renderer.EndTriggerMatchesElement | src/components/player/MediaRenderer.tsx:61-100 | an image element is exactly the case that ends on a timer |
| SettingsService.OrElse | src/services/settingsService.ts:63-65 | the JavaScript or-fallback for a nullable string: the fallback replaces null and "" |
| SettingsService.OrNull | src/services/settingsService.ts:81-83 | the or-null fallback: "" becomes null, anything else is kept |
| SettingsService.MapDbToApp | src/services/settingsService.ts:53-69 | the application shape from a row: theme and feed never empty, the two optionals always present, defaults where the row is empty |
| SettingsService.MapAppToDb | src/services/settingsService.ts:71-87 | the row from the application shape: empty keys become null, an absent mute flag false, an absent interval the default |
| SettingsService.FlagsPassThrough | src/services/settingsService.ts:53-87 | the switches and the marquee text pass both ways unchanged |
| SettingsService.AppRoundTrip | src/services/settingsService.ts:53-87 | saving then reading gives back the settings iff theme and feed are non-empty and both optionals are present |
| SettingsService.DbRoundTrip | src/services/settingsService.ts:53-87 | a row with non-empty fields and a set interval survives reading then saving |
| SettingsService.ReadSettingsAreStable | src/services/settingsService.ts:125-163 | saving settings that were read and reading them back changes nothing |
| SettingsEditor.RefreshMsFromInput | src/components/admin/SettingsManager.tsx:191-193 | the stored interval is whole seconds and at least 5 s; NaN and 0 fall back to 30 s |
| SettingsEditor.DisplaySeconds | src/components/admin/SettingsManager.tsx:190 | the field shows the interval rounded to the nearest second, 30 when unset |
| SettingsEditor.DisplayAfterInput | src/components/admin/SettingsManager.tsx:190-193 | typing `n >= 5` shows `n`; `0 < n < 5` shows 5; NaN or 0 shows 30 |
| SettingsEditor.InputAfterDisplay | src/components/admin/SettingsManager.tsx:190-193 | a whole-second interval of at least 5 s survives display and re-entry |
| SettingsEditor.ToggledTheme | src/components/admin/SettingsManager.tsx:85-88 | the toggle gives "dark" iff the theme was "light", and "light" otherwise |
| SettingsEditor.ToggleInvolution | src/components/admin/SettingsManager.tsx:85-88 | toggling twice restores "light" or "dark" |
| SettingsEditor.FieldsDetermineSettings | src/services/settingsService.ts:3-17 | settings that agree on every field are equal |
| SettingsEditor.EditTouchesOneField | src/components/admin/SettingsManager.tsx:142-297 | each control writes its own field and copies every other one |
| SettingsEditor.ToggleTwiceRestores | src/components/admin/SettingsManager.tsx:85-88 | two theme toggles give back the same settings |
| SettingsEditor.SettingsManager.constructor | src/components/admin/SettingsManager.tsx:30-43 | the editor starts from the defaults without the two optional fields |
| SettingsEditor.SettingsManager.Handle | src/components/admin/SettingsManager.tsx:142-297 | a control's handler replaces its field and keeps the others |
| SettingsEditor.SettingsManager.Replace | src/components/admin/SettingsManager.tsx:47-67 | a load or save replaces the state with the backend's answer |
| SupabaseAdmin.GeneratePrefix | src/pages/SupabaseAdmin.tsx:68-70 | the first `min(6, n)` characters of the lower-cased name with its white space stripped (`n` that stripped length): lower-case, no white space |
| SupabaseAdmin.GeneratePrefixNonEmpty | src/pages/SupabaseAdmin.tsx:68-70 | a non-blank name gives a non-empty prefix |
| SupabaseAdmin.GeneratePrefixIdempotent | src/pages/SupabaseAdmin.tsx:68-70 | a generated prefix regenerates to itself |
| SupabaseAdmin.AddClientRequest | src/pages/SupabaseAdmin.tsx:72-105 | no request iff the name is blank; otherwise empty prefix and password are replaced by the generated prefix and "123456", and typed values are kept |
| SupabaseAdmin.NameEdited | src/pages/SupabaseAdmin.tsx:277-281 | typing a name regenerates the prefix and keeps the password |
| SupabaseAdmin.NameEditThenAdd | src/pages/SupabaseAdmin.tsx:72-105 | a client added right after typing a non-blank name is sent with that name's generated prefix |
| SupabaseAdmin.FilteredMediaFiles | src/pages/SupabaseAdmin.tsx:203-205 | no folder selected shows everything; otherwise exactly the records of that folder |
| SupabaseAdmin.FilteredKeepsOrder | src/pages/SupabaseAdmin.tsx:203-205 | the folder filter keeps the table's order |
| SupabaseAdmin.MimeStats | src/pages/SupabaseAdmin.tsx:207-214 | the total counts the folder's records; images and videos count the folder's records with an "image/" and a "video/" mime type; images plus videos never exceed the total |
| ClientManager.ShortPrefix | src/components/admin/ClientManager.tsx:36-38 | `slice(0, 3).toUpperCase()`: at most three characters, each the upper-cased input character |
| ClientManager.ShortPrefixIdempotent | src/components/admin/ClientManager.tsx:36-38 | normalising a normalised prefix changes nothing |
| ClientManager.NameTyped | src/components/admin/ClientManager.tsx:53-56 | typing a name sets it and regenerates the prefix, non-empty for a non-empty name |
| ClientManager.PrefixTyped | src/components/admin/ClientManager.tsx:61 | a typed prefix is cut to three upper-case characters |
| ClientManager.EditingPrefixTyped | src/components/admin/ClientManager.tsx:120 | the same normalisation when editing, with id, name and password kept |
| ClientManager.CanSaveAfterNameTyped | src/components/admin/ClientManager.tsx:73 | after typing a name the form can be saved iff name and password are non-empty |
| MediaFolders.KindStats | src/components/admin/MediaFolderManager.tsx:27-32 | the total is the folder size; images and videos count the records typed image and video; their sum is at most the total, and equals it when every record is typed |
| MediaFolders.FolderNamed | src/components/admin/MediaFolderManager.tsx:34 | the first folder with that name, or none iff no folder has it |
| MediaFolders.StatsFor | src/components/admin/MediaFolderManager.tsx:48-49 | the counts of the first folder with the name; zero counts when no folder has it |
| MediaFolders.Overview | src/components/admin/MediaFolderManager.tsx:47-49 | one card per fixed folder name, in order, with that folder's counts |
| MediaFolders.OverviewShape | src/components/admin/MediaFolderManager.tsx:17 | eight cards, the last "todos"; with no folders every card shows zero |
| ClientAuth.Login | src/components/auth/ClientLoginNew.tsx:20-57 | blank fields iff either field trims to empty; otherwise the first client whose lower-cased identifier equals the lower-cased input and whose password matches, or no match iff there is none |
| ClientAuth.PrefixLogin | src/components/auth/ClientLogin.tsx:20-55 | the same decision by prefix: blank fields, else the first client in list order whose prefix matches ignoring case and whose password matches, else no match |
| ClientAuth.NameLogin | src/components/auth/ClientLoginNew.tsx:20-57 | the same decision by name: blank fields, else the first client in list order whose name matches ignoring case and whose password matches, else no match |
| ClientAuth.IdentifierIgnoresCase | src/components/auth/ClientLoginNew.tsx:37-43 | typing the identifier in capitals signs in the same way |
| ClientAuth.PasswordComparedAsTyped | src/components/auth/ClientLoginNew.tsx:23-43 | the password is trimmed only for the blank check: `p + " "` trims like `p` but signs no one in unless a stored password ends in that space, while `p` signs in whenever a client matches |
| DragDrop.AcceptedDrop | src/components/upload/DragDropUpload.tsx:39-47 | exactly the dropped files with an image or video mime type or an accepted extension, in drop order |
| DragDrop.AfterDrop | src/components/upload/DragDropUpload.tsx:49-51 | accepted files are appended to the selection; a drop with none changes nothing |
| DragDrop.DropInBatches | src/components/upload/DragDropUpload.tsx:49-51 | dropping two batches is dropping them together |
| DragDrop.UpperCaseExtensionAccepted | src/components/upload/DragDropUpload.tsx:42-46 | the extension test ignores case: "x.PNG" is accepted whatever its mime type |
| DragDrop.DragDropUpload.constructor | src/components/upload/DragDropUpload.tsx:23 | the picker starts without a drag over it |
| DragDrop.DragDropUpload.DragOver | src/components/upload/DragDropUpload.tsx:25-28 | a drag over sets the highlight and keeps the selection |
| DragDrop.DragDropUpload.DragLeave | src/components/upload/DragDropUpload.tsx:30-33 | a drag leave clears the highlight and keeps the selection |
| DragDrop.DragDropUpload.Drop | src/components/upload/DragDropUpload.tsx:35-52 | a drop clears the highlight and appends the accepted files |
| DragDrop.DragDropUpload.FileSelect | src/components/upload/DragDropUpload.tsx:54-59 | chosen files are all appended, unfiltered |
| SupabaseUploadPage.SplitChoice | src/pages/SupabaseUpload.tsx:66-81 | the media files are kept and the others reported; together they are all the chosen files |
| SupabaseUploadPage.SimulatedProgressClosed | src/pages/SupabaseUpload.tsx:105-108 | the simulated progress is ten per tick, capped at 90 |
| SupabaseUploadPage.FinalProgress | src/pages/SupabaseUpload.tsx:106-119 | a file ends at 100 iff its upload succeeded; progress stays within 0..100 |
| SupabaseUploadPage.Successes | src/pages/SupabaseUpload.tsx:83-155 | a file is reported iff it was selected and one of its uploads succeeded |
| SupabaseUploadPage.AllSucceeded | src/pages/SupabaseUpload.tsx:83-155 | when every upload succeeds every selected file is reported |
| SupabaseUploadPage.FileProgress | src/pages/SupabaseUpload.tsx:99-120 | a file's entry ends at its final progress; other entries are kept |
| SupabaseUploadPage.SupabaseUpload.constructor | src/pages/SupabaseUpload.tsx:17-25 | the page starts with no files, no progress, not uploading |
| SupabaseUploadPage.SupabaseUpload.HandleFileSelect | src/pages/SupabaseUpload.tsx:66-81 | the selection becomes the chosen media files; the others are reported |
| SupabaseUploadPage.SupabaseUpload.HandleUpload | src/pages/SupabaseUpload.tsx:83-155 | nothing selected: nothing happens; otherwise every file is attempted, successes reported, each file's final progress recorded, and the page reset |
| SupabaseUploadPage.SupabaseUpload.RemoveFile | src/pages/SupabaseUpload.tsx:157-160 | the file at the index is dropped from the selection |
| LocalUpload.CanLogIn | src/pages/Upload.tsx:61-77 | sign-in succeeds iff some client has exactly that name and password |
| LocalUpload.ClientPrefix | src/pages/Upload.tsx:100-101 | the first client with the name gives its prefix when non-empty, else the first three characters of the name upper-cased; no client with the name gives the latter |
| LocalUpload.PrefixedName | src/pages/Upload.tsx:130 | the stored name is `prefix_name`: it starts with the prefix and "_" and ends with the name |
| LocalUpload.PrefixedNameInjective | src/pages/Upload.tsx:130 | under one prefix, different names store under different names |
| LocalUpload.StoredNames | src/pages/Upload.tsx:130 | the stored name of each selected file, in order |
| LocalUpload.NewRecord | src/pages/Upload.tsx:143-154 | the record built from a file: prefixed name, original name, video iff "video/", lower-cased folder, visible, the chosen animation for images and "none" otherwise |
| LocalUpload.NewRecords | src/pages/Upload.tsx:123-160 | one record per selected file, in order |
| LocalUpload.ReplaceOne | src/pages/Upload.tsx:133-138 | an empty slot changes nothing; an occupied slot loses every record with the occupant's id and keeps every record with another id; folders are kept |
| LocalUpload.AfterReplacements | src/pages/Upload.tsx:125-138 | the replacements of all files keep the folder keys |
| LocalUpload.ReplaceOneRemovesOccupant | src/pages/Upload.tsx:133-138 | the occupant is the first stored record, in `getAllFiles` order, with the slot's name and folder; afterwards no record has its id and every other-id record stays in its folder |
| LocalUpload.ReplacementsStep | src/pages/Upload.tsx:125-138 | each further file adds one replacement on top of the earlier ones |
| LocalUpload.ReplaceSlot | src/pages/Upload.tsx:133-138 | one pass: the record found in the slot among all records is deleted by id; an empty slot changes nothing |
| LocalUpload.ReplaceExisting | src/pages/Upload.tsx:125-138 | the store after the replacement pass of every file, keys unchanged |
| LocalUpload.FileRecords | src/pages/Upload.tsx:133-163 | the new records are appended to the folder after the optional replacements; the folder joins the end of the key order iff it was not a key before |
| LocalUpload.UploadSelection | src/pages/Upload.tsx:119-166 | the records built for the selection are filed in the lower-cased folder after the optional replacements, the key order gains the folder only if new, and the reloaded list is the store's `getAllFiles` |
| LocalUpload.UploadPage.constructor | src/pages/Upload.tsx:19-50 | the page starts signed out with no files, folder or conflict, and the "fade" animation |
| LocalUpload.UploadPage.HandleLogin | src/pages/Upload.tsx:61-77 | signed in iff already signed in or a client matches exactly; every other field is kept |
| LocalUpload.UploadPage.HandleFileSelect | src/pages/Upload.tsx:79-83 | a choice replaces the selection; no choice keeps it; every other field is kept |
| LocalUpload.UploadPage.FindConflict | src/pages/Upload.tsx:104-110 | the first selected file whose stored name is taken in the folder, or none iff none is taken |
| LocalUpload.UploadPage.HandleUpload | src/pages/Upload.tsx:90-113 | missing folder or files: nothing changes; otherwise the first file whose stored name is taken (none before it is) opens the conflict dialog with the store and form untouched; an upload happens only when no file's name is taken, appending the records to the lower-cased folder (a new folder joins the end of the key order), resetting the form and reloading the list |
| LocalUpload.UploadPage.Replace | src/pages/Upload.tsx:429-431 | the dialog is closed; the store is the replacements of every file followed by the append to the lower-cased folder, with the key order as for `addFiles`; the form is reset, the list reloaded, and the sign-in fields kept |
| LocalUpload.UploadPage.CancelConflict | src/pages/Upload.tsx:433 | the dialog is closed; every other field is kept |
| LocalUpload.UploadPage.ProcessUpload | src/pages/Upload.tsx:115-196 | the records are appended after the optional replacements; the folder joins the end of the key order iff new; the form is reset, the table reloaded and the busy flag dropped; the sign-in fields and dialog are not touched |
| LocalUpload.UploadPage.FinishUpload | src/pages/Upload.tsx:166-193 | the selection, folder and animation are reset, the shown list is the reloaded one and the busy flag is down |
| LocalUpload.UploadPage.RemoveFile | src/pages/Upload.tsx:198-200 | the file at the index is dropped from the selection; every other field is kept |
| AdminPanel.ClientsAfterAdd | src/pages/Admin.tsx:128-150 | a form with an empty field adds nothing; otherwise the new client is appended |
| AdminPanel.ClientsAfterDelete | src/pages/Admin.tsx:152-159 | exactly the clients with another id remain; an unknown id changes nothing |
| AdminPanel.DeleteKeepsOrder | src/pages/Admin.tsx:153 | deletion keeps the list's order |
| AdminPanel.ClientsAfterUpdate | src/pages/Admin.tsx:164-171 | each client with the id is replaced; every other stays in place |
| AdminPanel.AddThenDelete | src/pages/Admin.tsx:128-159 | deleting a just-added client with a fresh id restores the list |
| AdminPanel.UpdateThenDelete | src/pages/Admin.tsx:152-171 | deleting after an update is deleting |
| AdminPanel.FormWith | src/pages/Admin.tsx:177-179 | the new-client form with one field replaced |
| AdminPanel.ClientWith | src/pages/Admin.tsx:181-185 | the edited client with one field replaced |
| AdminPanel.WithSetting | src/pages/Admin.tsx:187-189 | the setting takes the value and every other setting is kept |
| AdminPanel.SettingsByFields | src/pages/Admin.tsx:33-43 | settings that agree on every field are equal |
| AdminPanel.ChangesCommute | src/pages/Admin.tsx:187-189 | changes to two different settings commute |
| AdminPanel.SameValueNoChange | src/pages/Admin.tsx:187-189 | writing a setting's own value changes nothing |
| AdminPanel.FolderView | src/pages/Admin.tsx:90-102 | eight folders in the fixed order, each holding its store folder's records |
| AdminPanel.UpdateStored | src/pages/Admin.tsx:209-237 | the first record with the id, in `getAllFiles` order, is changed through `updateFile`: its folder key is added when new and the record moves to the end of that folder; an unknown id leaves the store untouched |
| AdminPanel.ToggleHidden | src/pages/Admin.tsx:213 | visibility is flipped and nothing else changes |
| AdminPanel.AdminPage.constructor | src/pages/Admin.tsx:21-54 | saved clients, settings and non-empty password are restored; otherwise empty, defaults and ""; folders loaded from the store |
| AdminPanel.AdminPage.HandleAdminLogin | src/pages/Admin.tsx:104-118 | authenticated iff already authenticated or the password is "admin123"; every other field is kept |
| AdminPanel.AdminPage.AddClient | src/pages/Admin.tsx:128-150 | the client is added and the form cleared only when every field is filled; every other field is kept |
| AdminPanel.AdminPage.DeleteClient | src/pages/Admin.tsx:152-159 | the clients with the id are removed; every other field is kept |
| AdminPanel.AdminPage.EditClient | src/pages/Admin.tsx:160-162 | the client becomes the one being edited; every other field is kept |
| AdminPanel.AdminPage.UpdateClient | src/pages/Admin.tsx:164-171 | the client is replaced by id and editing ends; every other field is kept |
| AdminPanel.AdminPage.CancelEdit | src/pages/Admin.tsx:173-175 | editing ends; every other field is kept |
| AdminPanel.AdminPage.NewClientChange | src/pages/Admin.tsx:177-179 | one field of the new-client form is replaced; every other field is kept |
| AdminPanel.AdminPage.EditingClientChange | src/pages/Admin.tsx:181-185 | one field of the edited client is replaced, if a client is being edited; every other field is kept |
| AdminPanel.AdminPage.SettingsChange | src/pages/Admin.tsx:187-189 | one setting is replaced; every other field is kept |
| AdminPanel.AdminPage.RefreshMediaFolders | src/pages/Admin.tsx:90-102 | the folder view is rebuilt from the store; every other field is kept |
| AdminPanel.AdminPage.DeleteMedia | src/pages/Admin.tsx:198-207 | every record with the id leaves the store, keys kept, and the view is rebuilt; every other field is kept |
| AdminPanel.AdminPage.ToggleMediaVisibility | src/pages/Admin.tsx:209-222 | the first record with the id is stored with its visibility flipped, at the end of its folder, and the view is rebuilt; an unknown id leaves store and view untouched; every other field is kept |
| AdminPanel.AdminPage.UpdateMediaDay | src/pages/Admin.tsx:224-238 | the first record with the id moves, lower-cased, to the end of the new day's folder, which is created if new, and the view is rebuilt; an unknown id leaves store and view untouched; every other field is kept |

## Left out

- Persistence: `localStorage`, the IndexedDB fallback, the JSON backup download and `exportData`/`importData` of `src/utils/fileStorage.ts`. The store is in memory and starts empty.
- Backend calls (`mediaService`, `clientService`, the settings table): their answers are parameters. A failure is an absent answer.
- Timers: the 30-second and 10-second refresh intervals, the image display timeout, and the simulated-progress interval. Each is an explicit event or a tick count.
- Media preloading in the backend-fed player (`document.createElement('video')`, `new Image()`): it has no effect on state.
- `Date.now()`/`Math.random()` ids, `FileReader` data URLs and `new Date().getDay()`: these are parameters.
- `hexToHSL` and the CSS colour variables in `src/pages/Admin.tsx`: floating point and DOM only.
- `saveAdminPassword`, `saveSettings` and the saved-password effect of `src/pages/Upload.tsx`: `localStorage` and toasts only.
- `handleDelete`, `handleEditMedia`, `handleSaveMediaEdit` and `toggleMediaVisibility` of `src/pages/Upload.tsx`: they are the same store calls as the admin page's.
- Toasts, console output and every rendered element other than the media element.
- Text.Lower: case mapping is ASCII only. JavaScript lower-cases "TERÇA" to "terça"; this model gives "terÇa".
- FileStore.FileStorage.GetAllFiles: it enumerates folders in insertion order. JavaScript enumerates integer-like keys first, in numeric order; that is not modelled.
- LocalUpload.UploadPage.ProcessUpload: the per-file progress percentage and the 500 ms pause are left out.
- LocalUpload.UploadPage.constructor: the mount effect that loads `uploadedFiles` from the store is left out. The table starts empty.
- SupabaseUploadPage.SupabaseUpload.HandleUpload: progress is keyed by the file's index, not by `${name}_${i}`. Key collisions between names are not modelled.
- AdminPanel.WithSetting: the value must have the field's type. The source accepts `any`.
- SettingsEditor.RefreshMsFromInput: the typed value is taken as NaN or a whole number. Fractions are not modelled.
- `src/components/auth/AdminLogin.tsx` and the other UI-only components are not part of this model.
