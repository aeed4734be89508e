# Nautilus action bar: selection summary and debounced status update

This project models the logic of the file manager's action bar, the strip under a
file view that describes the current selection. It has four parts.

- **The multi-selection summary.** One pass over the selected files counts the folders
  and the other items. It sums the folders' item counts and the sizes of the other
  items, and records whether those sums are known. It also remembers the first
  file's name. A fixed table then turns these numbers into the status line, for
  example `3 folders selected (containing a total of 12 items), 1 other item selected (4 kB)`.
- **The status update.** A loading view shows "Searching" or "Loading". Otherwise
  the number of selected files picks one of three pages: `normal`,
  `single-selection` or `multi-selection`. The single-selection page shows the
  file's name, an item count or a size, and a preview button that is sensitive
  only for thumbnails of non-folders.
- **The debounce.** Every change of selection, loading or searching state removes
  the pending timeout source, if there is one, and installs a new one. The bar
  remembers it in `update_status_timeout_id`, where 0 means none. Firing resets
  the id to 0, and teardown cancels whatever is pending.
- **The paste button and the show-thumbnail property.** The paste label reads
  "Move N file(s)" or "Paste N file(s)". The property setter stores and notifies
  only an actual change.

Modules:

- `Optional`: the optional value that stands for a pointer that may be NULL.
- `Text`: decimal rendering of counts and the English singular/plural rule.
- `Selection`: the entries, the summary pass, and the status table with its wording lemmas.
- `SingleFile`: the description line and the preview-button rules.
- `Clipboard`: the paste label.
- `ActionBarWidget`: the page decision `PageFor` and the class `ActionBar`. The
  class holds the timeout id and the pending sources, the labels and the
  properties of the bar. It keeps the timeout id as the unsigned value
  `g_timeout_add` returns.
- `TimeoutId`: the timeout id as the C struct stores it, in a signed field, and
  what that does to the bookkeeping once ids pass G_MAXINT (see Findings).

Modelling choices:

- The byte-size formatter `g_format_size` is a parameter `formatSize: nat -> string`.
  Nothing is assumed about its output.
- `ngettext` follows the English rule: the singular form exactly when the count is 1.
- `%'d` is rendered as plain decimal digits.
- Translation through `_()` is the identity.
- The view's state at the moment the update fires is a parameter of
  `RealUpdateStatus` (a `ViewState` value).
- The clipboard contents are a parameter of `UpdatePasteButton`.

Three behaviours of the code are easy to misread, and the model keeps them as written:

- An unknown item count or size does not drop the separators around it. The
  parenthetical becomes an empty string and the separators stay, so
  "3 items selected, " keeps its trailing comma and space, and
  "1 folder selected (containing 2 items), 1 other item selected " keeps its
  trailing space (`NonFoldersOnlyWording`, `FolderAndSizedFileWording`).
- Sizes are summed only for non-folders whose can-get-size query answers **no**,
  because the guard is written `!nautilus_file_can_get_size`. The model keeps
  the guard literally as the entry bit `canGetSize` (`FolderAndFileWording`,
  `FolderAndSizedFileWording`). What that query means is defined in
  `src/nautilus-file.c`, which is not part of this model.
- The quoted form "“name” selected" can only appear when exactly one entry is
  counted. The status update passes the multi-selection setup two or more files,
  so from there the quoted branches are never reached (`MultiSelectionNeverQuoted`,
  `PageFor`).

## Model

| member | source | states |
|---|---|---|
| `Text.Dec` | src/nautilus-action-bar.c:192-195 | a count renders as a non-empty run of decimal digits without leading zeros |
| `Text.DecRoundTrip` | src/nautilus-action-bar.c:192-195 | reading the digits back gives the count: `DecValue(Dec(n)) == n` |
| `Text.CountPhrase` | src/nautilus-action-bar.c:230-233 | a counted message (the digits of the count, then the `ngettext` form chosen by `Plural`) starts with a digit, so it can never be mistaken for the quoted-name form |
| `Text.CountPhraseInjective` | src/nautilus-action-bar.c:239-242 | two renderings of one counted message are equal only when the counts are equal |
| `Selection.CountsPartitionSelection` | src/nautilus-action-bar.c:150-172 | folders plus other items is the length of the selection |
| `Selection.EachEntryCountedOnce` | src/nautilus-action-bar.c:154-165 | each further entry raises exactly one of the two counts by one: the folder count for a folder, the other-item count otherwise |
| `Selection.SummaryOf` | src/nautilus-action-bar.c:138-176 | the summary of a selection has a first name exactly when something was counted, and its two counts add up to the selection's length |
| `Selection.Summarize` | src/nautilus-action-bar.c:150-176 | the loop computes the reference summary: folder, other-item and known-item counts and the guarded size as sums over the list; the item-count flag is true iff every folder reports a count; the size flag is true iff some non-folder passes the size guard; the first name is the first entry's name, never overwritten |
| `Selection.FolderCountPhrase` | src/nautilus-action-bar.c:184-196 | the folder phrase is the quoted first name iff exactly one folder and nothing else was counted; otherwise "N folder(s) selected" |
| `Selection.FolderItemPhrase` | src/nautilus-action-bar.c:198-220 | the folder parenthetical is empty iff some folder's item count is unknown; otherwise "(containing M item(s))", with "a total of " inserted iff there is more than one folder |
| `Selection.NonFolderCountPhrase` | src/nautilus-action-bar.c:223-243 | the other-item phrase is the quoted first name iff exactly one item and no folder was counted; "N items selected" without folders; "N other item(s) selected" beside folders |
| `Selection.NonFolderSizePhrase` | src/nautilus-action-bar.c:245-260 | the size parenthetical is empty iff no size is known; otherwise the formatted size in parentheses |
| `Selection.StatusText` | src/nautilus-action-bar.c:263-288 | the status is absent iff both counts are 0; when present it opens with a quoted name iff exactly one entry was counted |
| `Selection.MultiSelectionStatus` | src/nautilus-action-bar.c:121-299 | for a selection: the status is absent iff the selection is empty and opens with a quoted name iff it has exactly one entry |
| `Selection.FoldersOnlyWording` | src/nautilus-action-bar.c:184-221 | only folders: "“name” selected" for one folder, else "N folders selected", then a space and "(containing [a total of] M item(s))"; an unknown count leaves the parenthetical empty but keeps the space |
| `Selection.NonFoldersOnlyWording` | src/nautilus-action-bar.c:223-270 | only other items: "“name” selected" for one, else "N items selected", then ", " and "(size)", or nothing after the comma when no size is known |
| `Selection.MixedWording` | src/nautilus-action-bar.c:236-288 | both kinds: never a quoted name; the folder count, its parenthetical, ", ", then "N other item(s) selected" and the size parenthetical, with every separator kept |
| `Selection.ItemCountFlagIsSticky` | src/nautilus-action-bar.c:154-161 | one folder without a count clears the flag for the whole selection, and the known counts before and after it are still summed |
| `Selection.NoGuardedEntryNoSize` | src/nautilus-action-bar.c:165-171 | when no non-folder passes the size guard, the size stays unknown and zero |
| `Selection.MultiSelectionNeverQuoted` | src/nautilus-action-bar.c:414-419 | the selections the status update hands to the multi-selection setup (two or more files) always get a status, never the quoted form |
| `Selection.FolderAndFileWording` | src/nautilus-action-bar.c:263-288 | one folder with M items and one file that passes the size guard give "1 folder selected (containing M item(s)), 1 other item selected (size)" |
| `Selection.FolderAndSizedFileWording` | src/nautilus-action-bar.c:167-171 | the same pair with a file whose can-get-size query answers yes shows no size and ends in "1 other item selected " |
| `SingleFile.Description` | src/nautilus-action-bar.c:366-386 | the description is hidden iff the file is a folder without an item count; a folder with N items reads exactly "Contains N item" for N = 1 and "Contains N items" otherwise; any other file shows its formatted size, whatever its can-get-size query answers |
| `SingleFile.FolderDescriptionDeterminesCount` | src/nautilus-action-bar.c:370-374 | two folders with the same description have the same item count |
| `Clipboard.PasteLabel` | src/nautilus-action-bar.c:107-112 | the label starts with "Move " iff the files were cut, and with "Paste " iff they were copied; it is exactly the verb, the number of files, and " file" for one file or " files" otherwise |
| `Clipboard.PasteLabelDeterminesInfo` | src/nautilus-action-bar.c:107-112 | the label determines both the cut/copy mode and the number of files |
| `ActionBarWidget.PageName` | src/nautilus-action-bar.c:388-415 | each page has its own stack child name: "loading", "normal", "single-selection", and "multi-selection" (line 291), each name iff that page |
| `ActionBarWidget.PageFor` | src/nautilus-action-bar.c:399-419 | loading overrides the selection, captioned "Searching" iff the view is searching; otherwise 0, 1 and more selected files give the normal, single- and multi-selection pages; the single page shows the file's name and description and never makes a folder previewable; the multi page's status is always present |
| `ActionBarWidget.ActionBar.Valid` | src/nautilus-action-bar.c:428-438 | the timeout id is 0 iff nothing is pending, and otherwise it is the one pending source, so at most one source is pending |
| `ActionBarWidget.ActionBar.constructor` | src/nautilus-action-bar.c:565-576 | a new bar shows thumbnails, has no pending update and sets up its paste button from the clipboard |
| `ActionBarWidget.ActionBar.SourceRemove` | src/nautilus-action-bar.c:430-434 | removing a source detaches exactly that source |
| `ActionBarWidget.ActionBar.TimeoutAdd` | src/nautilus-action-bar.c:436-438 | a new timeout source is attached under a fresh positive id |
| `ActionBarWidget.ActionBar.UpdateStatus` | src/nautilus-action-bar.c:427-439 | with the id kept as the guint `g_timeout_add` returns: after a change the previously pending source is gone and exactly one new source, with a new id, is pending |
| `ActionBarWidget.ActionBar.RealUpdateStatus` | src/nautilus-action-bar.c:394-425 | firing shows the page `PageFor` chooses from the view's state at that moment, resets the id to 0 and leaves nothing pending; the pages not shown keep their labels |
| `ActionBarWidget.ActionBar.SetupSingleFileSelection` | src/nautilus-action-bar.c:301-392 | the single-selection page gets the file's name; the two-branch thumbnail code leaves the preview showing the thumbnail exactly when the file has one and thumbnails are on (`ShowsThumbnail`), and sensitive exactly when, in addition, the file is not a folder (`PreviewSensitive`); the description label is visible exactly when `Description` gives one, holds it, and is empty otherwise |
| `ActionBarWidget.ActionBar.SetupMultipleFilesSelection` | src/nautilus-action-bar.c:120-299 | the multi-selection label is the status line of the selection |
| `ActionBarWidget.ActionBar.Finalize` | src/nautilus-action-bar.c:441-450 | with the id kept as a guint: teardown cancels a pending update, so no update can fire afterwards |
| `TimeoutId.StoredAsGint` | src/nautilus-action-bar.c:46 | a guint id stored in the gint field keeps its value up to G_MAXINT and reads as negative above it; it reads positive iff the id is in 1..G_MAXINT |
| `TimeoutId.AsGuint` | src/nautilus-action-bar.c:432 | passing the gint back as a guint recovers the id that was stored |
| `TimeoutId.UpdateStatusAsWritten` | src/nautilus-action-bar.c:430-438 | the new id is attached and stored; nothing else is added; a positive stored id is removed; a stored id that reads 0 or negative removes nothing |
| `TimeoutId.FinalizeAsWritten` | src/nautilus-action-bar.c:446-450 | finalize only removes sources; a positive stored id is removed and reset to 0; otherwise nothing changes |
| `TimeoutId.AsWrittenTracksBelowMaxint` | src/nautilus-action-bar.c:430-438 | while ids stay at or below G_MAXINT, the signed field still names the one pending source |
| `TimeoutId.AsWrittenFinalizeClearsBelowMaxint` | src/nautilus-action-bar.c:446-450 | while ids stay at or below G_MAXINT, finalize as written leaves nothing attached |
| `TimeoutId.SignedIdLeavesTwoPending` | src/nautilus-action-bar.c:430-438 | updates with ids 0x80000000 and 0x80000001 leave both sources attached |
| `TimeoutId.SignedIdSurvivesFinalize` | src/nautilus-action-bar.c:446-450 | finalize after an update with id 0x80000000 leaves that source attached |
| `ActionBarWidget.ActionBar.SetShowThumbnail` | src/nautilus-action-bar.c:601-613 | the property takes the new value; a notification is emitted iff the value changed; the debounce invariant `Valid` is kept |
| `ActionBarWidget.ActionBar.UpdatePasteButton` | src/nautilus-action-bar.c:91-118 | the paste button is visible iff clipboard information exists, and only then is its label replaced; the debounce invariant `Valid` is kept |
| `ActionBarWidget.DebounceScenario` | src/nautilus-action-bar.c:427-450 | the body asserts that three changes in a row leave one pending source and that firing it shows the page for the view at that moment; the ensures say that after a further change and teardown the bar is valid, nothing is pending, the id is 0, and the bar still shows that page |

## Left out

- Widget plumbing is not modelled: template binding, class initialisation, property get/set dispatch, CSS names and margins, style-context border queries, and memory management (`g_free`, unrefs). These are toolkit calls without logic of their own.
- Loading the thumbnail image and looking up the type icon are left out. The model keeps only which of the two is shown and the sensitivity rule.
- `open_preview_cb` is left out. It reads an X11 window id and calls an external previewer process.
- The 200 ms delay of `g_timeout_add` is not modelled, and neither is main-loop timing. Only the bookkeeping of pending and removed sources is modelled.
- Connecting the view's `notify::selection`, `notify::is-loading` and `notify::is-searching` signals is left out, and so is connecting the clipboard monitor's `clipboard-changed` signal. Each such signal is modelled as a call to `UpdateStatus` or `UpdatePasteButton`. The clipboard monitor singleton becomes the method's parameter.
- `g_format_size` is a parameter of the model, and localisation is the identity. `%'d` digit grouping for the locale is not modelled.
- The file accessors (`nautilus_file_is_directory`, `nautilus_file_get_directory_item_count`, `nautilus_file_can_get_size`, `nautilus_file_get_size`, `nautilus_file_get_thumbnail_path`) are the fields of `Selection.Entry`. src/nautilus-file.c, which defines them, is not part of this model.
- Selection.Summarize: counts and sums are unbounded integers. The source keeps them in 32-bit `guint` counters and a 64-bit `goffset`, which could wrap only beyond 2^32 entries or items, or beyond 2^63 bytes. The status line prints the counters with `%'d`, which reads a guint as a signed int, so from 2^31 on a count would be displayed as negative; `Dec` renders the true count.
- ActionBarWidget.ActionBar.TimeoutAdd: source ids are never reused. GLib can reuse an id only after its 32-bit id counter wraps around.
- `g_return_if_fail (NAUTILUS_IS_ACTION_BAR (...))` in the show-thumbnail setter is a runtime type check. Dafny's types already guarantee it.
- `gtk_label_set_label` receiving a NULL status is modelled as the label holding `None`. The status update never produces one (`PageFor`).
- src/nautilus-toolbar-menu-sections.c is left out. It is a zero-initialising allocator with one field assignment.
- src/nautilus-rename-utilities.h is left out. It holds declarations only.

## Findings

| source | as written | input that shows it | evidently intended | confidence | as-written member | corrected member |
|---|---|---|---|---|---|---|
| src/nautilus-action-bar.c:430-438 | the guint id from `g_timeout_add` is kept in the gint field `update_status_timeout_id` (line 46) and removed only when the field reads `> 0` | a source id of 0x80000000 followed by another update with id 0x80000001: the first id reads negative, is not removed, and two updates are pending | the pending source is removed whatever its id, so at most one update is pending | not executed | `TimeoutId.UpdateStatusAsWritten`, `TimeoutId.SignedIdLeavesTwoPending` | `ActionBarWidget.ActionBar.UpdateStatus` |
| src/nautilus-action-bar.c:446-450 | finalize removes the pending source only when the gint field reads `> 0` | finalize after an update with id 0x80000000: the source stays attached and can fire on a finalized bar | finalize detaches any pending source | not executed | `TimeoutId.FinalizeAsWritten`, `TimeoutId.SignedIdSurvivesFinalize` | `ActionBarWidget.ActionBar.Finalize` |
