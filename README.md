# Speedy QC annotation sessions in Dafny

Speedy QC is a desktop tool for the quality control of medical images. A
reader opens a folder of images and steps through it. For each image they
tick findings (checkboxes), pick one option per radio group, draw bounding
boxes per finding, rotate the image and type notes. The tool autosaves and
saves the session as JSON. A later load resumes at the first unviewed
image. In conflict-resolution mode it merges two annotators' sessions,
keeps the values they agree on and visits only the images where they
disagree. Configuration files in YAML are written by a wizard.

This project models the session logic of that tool and proves properties
of the model. It models three generations of the main window separately:

- `MainApp`: the unified window of `speedy_qc/main_app.py`. It covers the
  session tables, loading and saving JSON (with the save/load round trip),
  conflict resolution, navigation (previous, next, next unrated, go to),
  the viewed-fraction progress, and autosave rotation of backups.
- `MainWindow`: the earlier window of `speedy_qc/main_window.py`. It covers
  the JSON tables, the resume reordering, navigation, saving and the exit
  dialog.
- `Cxr`: the chest X-ray viewer of `speedy_cxr/main.py`. It covers CSV save
  and load, navigation, the resume reordering and the windowing arithmetic
  of `paintEvent`.

Other modules cover the rest of the core:

- `Graphics` models the bounding-box view of `speedy_qc/graphics.py` as a
  class over box objects. It covers drawing, moving, releasing and removing
  boxes and loading them per finding.
- `Utils` models the value conversions of `speedy_qc/utils.py`.
- `Windows` models the dialogs of `speedy_qc/windows.py`: the load message
  box, the setup window, the compatibility checks of a JSON file against a
  folder and a configuration, and the file-selection dialog with its filter.
- `Wizard`, `UnifiedWizard` and `ConfigWizard` model the three
  configuration wizards: the pages, the label and radio-group editors, the
  configuration they write and the settings they store.

The shared modules are small:

- `Strings` holds Python's string operations and order.
- `Sorting` holds `sorted`.
- `Session` holds Python values, truthiness, `==`, and box tables.
- `Config` holds the decoded configuration.
- `Wrappers` holds `Option` and `Result`.

Python semantics are written out where they matter:

- `True` and `"FAILED"` are both truthy, and `True == 1`.
- Comparing `int` with `str` raises `TypeError`.
- `max([])` raises `ValueError`.
- `//` floors.
- `QSpinBox.setValue` clamps.

## Model

The table lists the members that model the code or state a property of it. Predicates, small proof helpers and the lemmas that only serve another proof have no row.

| member | source | states |
|---|---|---|
| MainApp.PrevIndex | speedy_qc/main_app.py:1335-1338 | one step back stays in `[0, n)` and is `(i - 1) mod n`: the first file wraps to the last |
| MainApp.NextIndex | speedy_qc/main_app.py:1341-1345 | one step on stays in `[0, n)` and is `(i + 1) mod n`: the last file wraps to the first |
| MainApp.PrevNextInverse | speedy_qc/main_app.py:1335-1345 | a step back and a step on undo each other |
| MainApp.DoneFiles | speedy_qc/main_app.py:1412-1415 | the files counted as done are those with a truthy flag, and in conflict resolution with a conflict |
| MainApp.PercentViewed | speedy_qc/main_app.py:1412-1415 | the progress times the file count is a hundred times the done count; it is never negative and is zero exactly when nothing is done; it fails exactly for a zero count (`ZeroDivisionError`) or, in conflict resolution, a done file missing from `has_conflict` (`KeyError`) |
| MainApp.DistinctNames | speedy_qc/main_app.py:1412-1413 | a list without repeated names has as many names as entries |
| MainApp.DoneCount | speedy_qc/main_app.py:1412-1413 | with the flags keyed by exactly the listed files, at most all files are done, and all are exactly when every flag is truthy |
| MainApp.PercentViewedBounds | speedy_qc/main_app.py:1412-1413 | outside conflict resolution the progress is at most 100 and is 100 exactly when every file is viewed or failed |
| MainApp.FirstUnviewed | speedy_qc/main_app.py:1347-1351 | the first position of a range whose file is not truthily viewed, every file before it viewed; `None` only when all are viewed |
| MainApp.NextUnrated | speedy_qc/main_app.py:1346-1353 | the target is in range and is either the current file or an unviewed one |
| MainApp.NextUnratedChoice | speedy_qc/main_app.py:1346-1353 | on distinct names: the first unviewed file after the cursor, else the first one before it, else the cursor itself; failed files count as viewed |
| MainApp.NavTarget | speedy_qc/main_app.py:1334-1353 | `previous` gives `(i - 1) mod N`, `next` `(i + 1) mod N`, `go_to` the given index, `next_unrated` the circular search; always in `[0, N)` |
| MainApp.RotateRight | speedy_qc/main_app.py:687-693 | the stored rotation stays in `[0, 360)` and moves by 90 modulo 360 |
| MainApp.RotateLeft | speedy_qc/main_app.py:695-701 | the stored rotation stays in `[0, 360)` and moves by 270 modulo 360 |
| MainApp.RotationsCancel | speedy_qc/main_app.py:687-701 | right then left, left then right, and four rights each give back the rotation modulo 360 |
| MainApp.NormaliseNotes | speedy_qc/main_app.py:660-666 | same length, no new line and no comma left; new lines become spaces, commas semicolons, every other character kept |
| MainApp.NormaliseNotesIdempotent | speedy_qc/main_app.py:665 | normalising twice is normalising once |
| MainApp.CheckboxOut | speedy_qc/main_app.py:1587-1593 | the written checkbox map has exactly the configured names; all `"FAIL"` for a failed image, otherwise the stored value or `False` |
| MainApp.LoadEntry | speedy_qc/main_app.py:1664-1684 | one loaded entry: flag, rotation, notes and maps taken verbatim, missing maps empty, only non-empty box lists; a missing `notes` or a box whose finding has no colour raises `KeyError` |
| MainApp.SaveLoadRoundTrip | speedy_qc/main_app.py:1582-1616 | a written record loads back to the same flag, rotation, notes, radio values and non-empty box lists, the checkbox map reduced to the configured names; writing it again gives the same record |
| MainApp.CheckboxesSurvive | speedy_qc/main_app.py:1588-1591 | a non-failed file whose map holds exactly the configured names writes that map unchanged |
| MainApp.FreshSession | speedy_qc/main_app.py:138-150 | a fresh session keys every file in all six dictionaries: unviewed, rotation 0, no notes, no boxes, every checkbox 0, every radio group `None` |
| MainApp.Outputs | speedy_qc/main_app.py:1582-1616 | one record per listed file, in list order |
| MainApp.StoreEntry | speedy_qc/main_app.py:1665-1684 | storing an entry succeeds exactly when its record loads; otherwise `KeyError` |
| MainApp.LoadTables | speedy_qc/main_app.py:1664-1684 | the only error of the load loop is `KeyError` |
| MainApp.LoadTablesOk | speedy_qc/main_app.py:1664-1684 | the load succeeds exactly when every entry loads |
| MainApp.StoreEntryAt | speedy_qc/main_app.py:1665-1684 | an entry fills its own name with its record and leaves every other name alone |
| MainApp.LoadTablesState | speedy_qc/main_app.py:1664-1684 | after a load each named file holds the record of its last entry; unnamed files are as before |
| MainApp.LoadTablesCovered | speedy_qc/main_app.py:1664-1684 | after a load every named file is in every dictionary |
| MainApp.LoadedCovered | speedy_qc/main_app.py:1641-1684 | the loaded dictionaries cover the new file list |
| MainApp.SavedSessionLoads | speedy_qc/main_app.py:1571-1686 | a session written by `create_output_dictionary` loads back over any dictionaries with every file's flag, rotation, notes, radio values, non-empty boxes and written checkbox map |
| MainApp.LoadEntries | speedy_qc/main_app.py:1664-1684 | the entry loop computes `LoadTables` |
| MainApp.WriteEntries | speedy_qc/main_app.py:1582-1616 | the file loop computes `Outputs` |
| MainApp.Evict | speedy_qc/main_app.py:600-606 | keeping the existing backups fails only with no backups and a limit of zero or less (`IndexError`) |
| MainApp.EvictionKeepsLimit | speedy_qc/main_app.py:600-614 | below the limit every backup is kept; at or above it exactly one least name is removed, so the folder ends with n+1 names when n < m and n otherwise |
| MainApp.NextGroup | speedy_qc/main_app.py:980-985 | the next group name is a group; an unknown name raises `ValueError` |
| MainApp.NextGroupCycles | speedy_qc/main_app.py:980-985 | over distinct names, highlighting moves one group on, the last wrapping to the first |
| MainApp.RestoreIndex | speedy_qc/main_app.py:1255-1259 | with both settings stored: the first position of the saved file if listed, else the saved index if below the length, else 0; without them the cursor stays |
| MainApp.SaveToJson | speedy_qc/main_app.py:1536-1548 | a session is written exactly when it was loaded or the save-as dialog is accepted |
| MainApp.CloseEvent | speedy_qc/main_app.py:1931-1944 | the window closes on No, or on Yes once the session is written; it is written only on Yes |
| MainApp.CloseOnlyAfterSave | speedy_qc/main_app.py:1931-1944 | on Yes closing and writing go together; a loaded session is written and closed; Cancel never closes |
| MainApp.GroupSizes | speedy_qc/main_app.py:951-952 | one button count per group title |
| MainApp.LoadMultipleAnnotatorData | speedy_qc/main_app.py:1744-1770 | the entry loop computes the annotator's dictionaries `LoadAnnotator` |
| MainApp.LoadAnnotatorKeys | speedy_qc/main_app.py:1754-1769 | every file with an entry has a box map with non-empty lists; notes only where an entry has them |
| MainApp.LoadAnnotatorDistinct | speedy_qc/main_app.py:1754-1769 | for a file named once, the annotator holds that entry's boxes, notes and non-empty checkbox map |
| MainApp.AbsentFromLoad | speedy_qc/main_app.py:1754-1769 | a file no entry names is in none of the annotator's dictionaries |
| MainApp.Agreed | speedy_qc/main_app.py:1708-1712 | the agreed values are the configured checkboxes whose two values are equal in Python, with annotator 1's value |
| MainApp.AgreedFor | speedy_qc/main_app.py:1708-1712 | no agreed values without configured checkboxes, otherwise `Agreed` on the file's two maps |
| MainApp.MergeCheckboxes | speedy_qc/main_app.py:1706-1714 | the checkbox loop of one file: `KeyError` when a value is missing, else agreeing values copied from annotator 1 and a conflict iff some checkbox differs |
| MainApp.MergeValues | speedy_qc/main_app.py:1708-1714 | the same loop on two value maps: `None` when a value is missing, else the agreed values and the conflict flag |
| MainApp.FirstBoxes | speedy_qc/main_app.py:1722-1725 | per finding the first box, succeeding iff no list is empty and every finding has a colour; otherwise `IndexError` or `KeyError` |
| MainApp.ConflictSlots | speedy_qc/main_app.py:1715-1731 | one slot per listed file |
| MainApp.ConflictFilterMembers | speedy_qc/main_app.py:1715-1717 | the conflict list holds exactly the listed files that conflict |
| MainApp.ConflictSnoc | speedy_qc/main_app.py:1715-1731 | one more file extends the conflict list and the slots at their ends, in file-list order |
| MainApp.ConflictSlotsNone | speedy_qc/main_app.py:1729-1731 | a slot is `None` exactly for a file without conflict |
| MainApp.ConflictSlotsPoint | speedy_qc/main_app.py:1716-1718 | a file's slot is its own position in the conflict list |
| MainApp.ConflictSlotsCover | speedy_qc/main_app.py:1716-1718 | every position of the conflict list is some file's slot |
| MainApp.ConflictIndexRoundTrip | speedy_qc/main_app.py:1717-1719 | on distinct names `file_list[conflict_idx_to_file_idx[k]] == conflict_files[k]` and that file's slot is `k` |
| MainApp.FirstOpenConflict | speedy_qc/main_app.py:1738-1741 | the first position from `lo` whose file conflicts and is unviewed, every earlier one viewed or without conflict |
| MainApp.ConflictCursor | speedy_qc/main_app.py:1735-1741 | only on the first file without conflict does the cursor move, to the first unviewed conflicting file if there is one |
| MainApp.ConflictStep | speedy_qc/main_app.py:1705-1734 | one file of the conflict loop keeps the checkbox dictionary's keys |
| MainApp.ConflictFold | speedy_qc/main_app.py:1705-1734 | the loop over the first `n` files keeps the checkbox dictionary's keys |
| MainApp.ConflictFoldSticky | speedy_qc/main_app.py:1705-1734 | once the loop has raised, later files change nothing |
| MainApp.ConflictFoldIndexes | speedy_qc/main_app.py:1715-1731 | after `n` files the conflict list is the filter of conflicting files and the slots name their positions |
| MainApp.ConflictFoldFlags | speedy_qc/main_app.py:1715-1731 | after `n` files exactly those files are flagged, `True` iff they conflict |
| MainApp.ConflictFoldCheckboxes | speedy_qc/main_app.py:1708-1712 | after `n` files each holds its stored values overwritten by the agreed ones; other files keep theirs |
| MainApp.ConflictFoldBoxes | speedy_qc/main_app.py:1720-1734 | a conflicting listed file shows the first box of each finding of both annotators, any other none |
| MainApp.ConflictFoldNotes | speedy_qc/main_app.py:1696-1727 | the annotators' notes are shown once some file conflicts; until then every listed file has empty notes |
| MainApp.ConflictFoldMaps | speedy_qc/main_app.py:1715-1731 | a finished loop leaves the two index maps consistent with the file list and the conflict list |
| MainApp.ConflictFoldFlagged | speedy_qc/main_app.py:1715-1731 | a finished loop flags every listed file and keeps the checkbox dictionary keyed |
| MainApp.MergeConflicts | speedy_qc/main_app.py:1705-1734 | the file loop computes `ConflictFold` |
| MainApp.CheckboxDisplay | speedy_qc/main_app.py:1490-1492 | refreshing the checkboxes fails exactly when some configured value is missing or is no tri-state number |
| MainApp.ConflictCheckboxDisplay | speedy_qc/main_app.py:1461-1488 | in conflict mode refreshing a file's checkboxes fails exactly when, for some checkbox, an annotator left the file out (`AttributeError`), an annotator's value is no tri-state number, or the two states differ and the window's own value is missing or no tri-state number |
| MainApp.AgreedNeedsNoStored | speedy_qc/main_app.py:1486-1488 | where both annotators stored the same convertible value for every checkbox, the refresh succeeds whatever the window itself holds |
| MainApp.FailedAnnotationRaises | speedy_qc/main_app.py:1474-1478 | annotator 1's `"FAIL"` against annotator 2's 0 raises `ValueError` |
| MainApp.RadioDisplay | speedy_qc/main_app.py:1031-1041 | refreshing the radio groups fails exactly when some group holds an id without a button (`AttributeError`) or a string id (`TypeError`); unset groups are unchecked |
| MainApp.CheckedRadioShown | speedy_qc/main_app.py:970-971 | storing the id of one of a group's buttons keeps every group displayable |
| MainApp.UnknownRadioIdRaises | speedy_qc/main_app.py:1036-1038 | a stored id 7 in a three-button group raises `AttributeError` |
| MainApp.ConflictTarget | speedy_qc/main_app.py:1355-1375 | in conflict mode the target is the circular step among the conflicting files from the file's slot, or the given index for `go_to`; a file without slot raises `TypeError` |
| MainApp.ShownBoxesDisplays | speedy_qc/main_app.py:1395-1398 | the view shows per finding the file's own boxes, then both annotators' in conflict mode; outside it, the file's non-empty lists |
| MainApp.DisplaysUnique | speedy_qc/main_app.py:1395-1398 | only one view satisfies that description |
| MainApp.PreparedBoxes | speedy_qc/main_app.py:523-533 | the first file's boxes are appended to the view finding by finding: in conflict mode annotator 1's, then annotator 2's, then the file's own, each looked up with `get(f, {})` |
| MainApp.PreparedNonEmpty | speedy_qc/main_app.py:523-533 | a view without empty lists keeps none once the first file's boxes are added |
| MainApp.PreparedLikeShown | speedy_qc/main_app.py:523-533 | on an empty view the first file shows what `change_image` shows for it: the same view outside conflict mode, the same boxes per finding in another order in it (the annotators' before the file's own) |
| MainApp.PreparedStoredBack | speedy_qc/main_app.py:523-533 | outside conflict mode a first file whose stored lists are non-empty, as a load leaves them, has exactly those boxes on screen, so storing the view back keeps them |
| MainApp.FolderFiles | speedy_qc/main_app.py:134-137 | the opened files are the image names of the folder, sorted, none lost or added |
| MainApp.MainApp.constructor | speedy_qc/main_app.py:90-110 | the empty dictionaries and lists `__init__` starts from |
| MainApp.MainApp.SetRadioGroups | speedy_qc/main_app.py:272-282 | the groups are the distinct configured titles, sized by their buttons, the first highlighted |
| MainApp.MainApp.InitFromFolder | speedy_qc/main_app.py:113-150 | the sorted image files of the folder, a fresh session over them, the cursor on the first |
| MainApp.MainApp.Configure | speedy_qc/main_app.py:115-150 | the settings of the configuration and a fresh session's dictionaries |
| MainApp.MainApp.ReadSettings | speedy_qc/main_app.py:115-123 | the settings read from the configuration and its radio groups |
| MainApp.MainApp.InitTables | speedy_qc/main_app.py:138-150 | the per-file dictionaries of a fresh session |
| MainApp.MainApp.Target | speedy_qc/main_app.py:1334-1375 | outside conflict mode `NavTarget`; in conflict mode a conflicting file, failing exactly for a file without slot |
| MainApp.MainApp.Decide | speedy_qc/main_app.py:1304-1424 | `change_image`'s target is a listed position: an unknown direction raises `ValueError`; outside conflict resolution moving fails exactly when the target's checkboxes (`CheckboxDisplay`) or radio groups (`RadioDisplay`) cannot be shown; in conflict resolution the target is a conflict file, and once the cursor is on one (or the direction is `go_to`) moving fails exactly when the annotators' checkboxes (`ConflictCheckboxDisplay`) or the radio groups cannot be shown, or some annotator has no notes for the target, the last with `KeyError` |
| MainApp.MainApp.ChangeImage | speedy_qc/main_app.py:1297-1424 | the result is `Decide`'s; on success the outgoing file is marked `True` or `"FAILED"` and only it, its boxes are stored, the cursor moves to the target and the shown boxes are the new file's; on an error nothing changes |
| MainApp.MainApp.StoreAndMove | speedy_qc/main_app.py:1307-1411 | marks the outgoing file, stores its boxes, moves the cursor, highlights the first group |
| MainApp.MainApp.StoreLeaving | speedy_qc/main_app.py:1307-1314 | marks the outgoing file and stores its boxes |
| MainApp.MainApp.MoveTo | speedy_qc/main_app.py:1334-1411 | moves the cursor and highlights the first group |
| MainApp.MainApp.ShowBoxes | speedy_qc/main_app.py:1395-1398 | the view shows the file's boxes as `Displays` describes |
| MainApp.MainApp.PrepFirstImage | speedy_qc/main_app.py:523-533 | the last box step of `__init__` (line 456): the view becomes `PreparedBoxes` of what it showed and the current file; from the new window's empty view outside conflict mode it is the view `Displays` describes; the cursor is in range, as the title at line 213 has already read `file_list[current_index]` |
| MainApp.MainApp.PreviousImage | speedy_qc/main_app.py:1426-1430 | `change_image("previous")` |
| MainApp.MainApp.NextImage | speedy_qc/main_app.py:1432-1439 | the flag lands in `go_to_index`, so the outgoing file is always marked `True` |
| MainApp.MainApp.NextUnratedImage | speedy_qc/main_app.py:1441-1445 | `change_image("next_unrated")` |
| MainApp.MainApp.MarkLoadFailed | speedy_qc/main_app.py:759-772 | after a read error and "Try Next Image" the current file is marked `"FAILED"`, nothing else changes |
| MainApp.MainApp.RotateImageRight | speedy_qc/main_app.py:687-693 | only the current file's rotation changes, by `RotateRight` |
| MainApp.MainApp.RotateImageLeft | speedy_qc/main_app.py:695-701 | only the current file's rotation changes, by `RotateLeft` |
| MainApp.MainApp.OnTextChanged | speedy_qc/main_app.py:660-666 | only the current file's notes change, to the normalised text |
| MainApp.MainApp.OnRadiobuttonChanged | speedy_qc/main_app.py:959-971 | a checked button stores its id under the group for the current file; an unchecked one changes nothing |
| MainApp.MainApp.HighlightNextRadiogroup | speedy_qc/main_app.py:973-986 | an unknown group raises `ValueError` and keeps the highlight; otherwise the next group is highlighted |
| MainApp.MainApp.KeyPress | speedy_qc/main_app.py:1494-1523 | digit k checks button k-1 of the highlighted group when it exists and moves the highlight on; no highlighted group raises `KeyError`; Enter and Return go to the next image; other keys change nothing |
| MainApp.MainApp.CreateOutputDictionary | speedy_qc/main_app.py:1571-1617 | the shown boxes are stored for the current file, then one record per listed file is written |
| MainApp.MainApp.LoadFromJson | speedy_qc/main_app.py:1630-1686 | the file list is the entries' names, the settings come from the stored configuration, the entries are stored in order or the load raises `KeyError` |
| MainApp.MainApp.LoadEntriesFrom | speedy_qc/main_app.py:1660-1684 | the entry loop over cleared checkbox, box and radio dictionaries |
| MainApp.MainApp.BackupFile | speedy_qc/main_app.py:578-614 | the kept names are `Evict`; on success the session is written and the new name remembered; on `IndexError` nothing changes |
| MainApp.MainApp.RestoreFromSavedState | speedy_qc/main_app.py:1251-1259 | the cursor moves to `RestoreIndex`; a listed saved file becomes the current file |
| MainApp.MainApp.LoadConflictResolutionData | speedy_qc/main_app.py:1688-1741 | outside conflict mode nothing changes; in it both annotators' checkbox values are kept, the dictionaries are the conflict loop's result, or its error, and the cursor follows `ConflictCursor` |
| MainApp.MainApp.ResolveConflicts | speedy_qc/main_app.py:1689-1741 | the conflict-mode branch: the loop's result and the cursor rule |
| MainApp.MainApp.MoveToOpenConflict | speedy_qc/main_app.py:1735-1741 | the cursor follows `ConflictCursor` |
| MainWindow.Ahead | speedy_qc/main_window.py:916-918 | a position `k` steps round the list is in range, and is the start only after no step or a full lap |
| MainWindow.AheadNext | speedy_qc/main_window.py:918 | one more step round is `(i + 1) % n` of the last |
| MainWindow.UnviewedAhead | speedy_qc/main_window.py:916-918 | the least offset from `k` whose file is unviewed, every file passed on the way truthily viewed; `None` only when all of them are |
| MainWindow.SearchNext | speedy_qc/main_window.py:914-927 | the `next` target of the older window is a listed position |
| MainWindow.SearchNextChoice | speedy_qc/main_window.py:914-927 | the first unviewed file after the cursor, else the first before it; when every other file is viewed the cursor moves on by one, the last wrapping to the first; with two or more files it never stays put |
| MainWindow.NextTarget | speedy_qc/main_window.py:914-927 | the `while` loop computes `SearchNext` |
| MainWindow.NextGenerations | speedy_qc/main_window.py:914-927 | the older `next` and the newer `next_unrated` agree whenever some other file is unviewed; otherwise the newer stays and the older moves on by one |
| MainWindow.RotateRight | speedy_qc/main_window.py:647 | the older right turn stays in `[0, 360)` and subtracts 90 modulo 360 |
| MainWindow.RotationSignsOpposite | speedy_qc/main_window.py:647-660 | the older right turn is the newer left turn and the older left turn the newer right turn, so one undoes the other |
| MainWindow.Outputs | speedy_qc/main_window.py:1070-1100 | one record per listed file in order, without radio buttons, with exactly the configured checkboxes, all `"FAIL"` for a failed image |
| MainWindow.WriteEntries | speedy_qc/main_window.py:1070-1100 | the file loop of `save_json` computes `Outputs` |
| MainWindow.LoadBoundingBoxAsWritten | speedy_qc/main_window.py:1133-1148 | an unconfigured finding raises `KeyError`; since the membership check looks at the file-keyed dictionary, the finding's list is replaced by the one new box |
| MainWindow.LoadBoxesAsWritten | speedy_qc/main_window.py:1127-1148 | over several boxes, the loader as written fails with `KeyError` exactly for an unconfigured finding, an unknown file, or a finding named like a file but absent from this file's table; otherwise a finding not named like a file ends with only the last box, one named like a file gets all boxes appended, and other files are untouched |
| MainWindow.LoadBoxes | speedy_qc/main_window.py:1127-1148 | the intended loader appends the boxes in order to the finding's list, fails with `KeyError` exactly for an unconfigured finding or an unknown file, and leaves every other list and file alone |
| MainWindow.TwoBoxesAsWritten | speedy_qc/main_window.py:1145-1148 | two saved boxes of one finding: as written one survives, as intended both, in order |
| MainWindow.LastOfEach | speedy_qc/main_window.py:1145-1148 | each non-empty list reduced to its last element, empty lists dropped |
| MainWindow.EntryBoxesAsWritten | speedy_qc/main_window.py:1127-1148 | what the loader as written leaves in one file's table: a finding not named like a file holds its last saved box, one named like a file gets the saved boxes appended, unnamed findings keep theirs |
| MainWindow.LoadEntryBoxesAsWritten | speedy_qc/main_window.py:1127-1130 | a record's boxes, loaded as written: `KeyError` exactly when some box is for an unconfigured finding, a file without dictionary, or a finding named like a file but absent from this file's table; otherwise only the record's file changes, to `EntryBoxesAsWritten` |
| MainWindow.EntryBoxesPerFindingAsWritten | speedy_qc/main_window.py:1127-1130 | loading a record as written is loading each finding's list as written, in any order |
| MainWindow.LoadEntryBoxes | speedy_qc/main_window.py:1145-1148 | the intended record loader (appending every box): every finding's list grows by the saved ones; `KeyError` exactly when some box is for an unconfigured finding or a file without dictionary |
| MainWindow.EntryBoxesPerFinding | speedy_qc/main_window.py:1145-1148 | with the intended loader, loading a record is loading each finding's list, in any order |
| MainWindow.EntryBoxesRejects | speedy_qc/main_window.py:1145-1148 | with the intended loader, one rejected finding makes the record's load fail |
| MainWindow.MergeCheckboxes | speedy_qc/main_window.py:1120-1125 | the record's values win, names it lacks keep theirs, other files are untouched, a file without a dictionary gets one only from a non-empty record |
| MainWindow.StoreEntry | speedy_qc/main_window.py:1115-1130 | a record fails with `KeyError` exactly when it has no notes or the loader as written rejects its boxes; otherwise its flag, rotation and notes replace the file's, its checkbox values are merged in and its boxes loaded as written |
| MainWindow.LoadTables | speedy_qc/main_window.py:1114-1130 | the loop's only error is `KeyError` |
| MainWindow.StoreEntryGrows | speedy_qc/main_window.py:1115-1130 | storing a record loses no file and no checkbox name |
| MainWindow.LoadTablesGrows | speedy_qc/main_window.py:1114-1130 | a load loses no file and no checkbox name and adds no file to `bboxes` |
| MainWindow.LoadTablesOk | speedy_qc/main_window.py:1114-1130 | a load succeeds when every record has notes, configured boxes under no file's name, and a known file |
| MainWindow.StoreEntryLocal | speedy_qc/main_window.py:1115-1130 | storing a record touches only its file, and its effect depends only on what that file held |
| MainWindow.StoreEntryOthers | speedy_qc/main_window.py:1115-1130 | storing a record leaves every other file as it was |
| MainWindow.LoadTablesAbsent | speedy_qc/main_window.py:1114-1130 | a file no record names is as before the load |
| MainWindow.LoadTablesOnce | speedy_qc/main_window.py:1114-1130 | a file named by one record holds what storing that record alone leaves |
| MainWindow.Fresh | speedy_qc/main_window.py:354-358 | every file starts unviewed, with no boxes and every configured checkbox |
| MainWindow.FreshCovers | speedy_qc/main_window.py:354-358 | every file of a new window is in each of its dictionaries, with every configured checkbox |
| MainWindow.SavedSessionLoads | speedy_qc/main_window.py:1061-1148 | a session written by `save_json`, with no finding named like a file, loads back into a new window with every file's flag, rotation, notes and written checkbox map; each finding keeps only its last box, so the boxes come back exactly when no finding has more than one, and a finding with several comes back with one |
| MainWindow.SavedSessionLoadable | speedy_qc/main_window.py:1061-1130 | such a session loads without error |
| MainWindow.LastOfEachSingle | speedy_qc/main_window.py:1145-1148 | with at most one box per finding, keeping the last box of each keeps every non-empty list |
| MainWindow.FreshStore | speedy_qc/main_window.py:1115-1148 | one written record stored into a new window gives back that file's flag, rotation, notes and checkboxes, and the last box of each finding |
| MainWindow.LoadIntoEmpty | speedy_qc/main_window.py:1127-1148 | lists loaded as written into a file with no boxes leave the last box of each non-empty list |
| MainWindow.LoadEntries | speedy_qc/main_window.py:1114-1130 | the record loop computes `LoadTables`, stopping at the first error |
| MainWindow.LoadTablesPrefixErr | speedy_qc/main_window.py:1114-1130 | once some prefix of the records fails, the whole load fails the same way |
| MainWindow.Select | speedy_qc/main_window.py:869-870 | the comprehension keeps exactly the listed files whose flag has the wanted truth |
| MainWindow.RestoreIndex | speedy_qc/main_window.py:863-866 | the position of a listed saved file, as in the newer window; else the saved index, unchecked; without settings the cursor stays |
| MainWindow.ReorderKeeps | speedy_qc/main_window.py:869-874 | the reordered list has only listed files, and is the list itself when no later file is unviewed |
| MainWindow.ReorderKept | speedy_qc/main_window.py:869-874 | otherwise it is the unviewed files after the cursor, then the viewed ones up to it; exactly those files are kept |
| MainWindow.RestoreLeavesCursorOutside | speedy_qc/main_window.py:863-874 | three unviewed files, saved at the second, leave one file and the cursor at 1 |
| MainWindow.SaveToJsonAsWritten | speedy_qc/main_window.py:1031-1059 | for a new session `save_to_json` returns `False` whether or not the file was written, since `save_as` returns `None` after writing; for a loaded session it returns `None`; it is never true |
| MainWindow.CloseEventAsWritten | speedy_qc/main_window.py:1206-1216 | the session is written exactly on Yes with a loaded session or an accepted dialog |
| MainWindow.YesNeverCloses | speedy_qc/main_window.py:1206-1216 | only No closes the window; Yes on a loaded session writes it and stays open |
| MainWindow.CloseEventCorrected | speedy_qc/main_app.py:1931-1944 | the intended decision differs from the written one exactly when Yes writes the session, and then closes |
| MainWindow.GrowsCovers | speedy_qc/main_window.py:1114-1130 | a load that keeps files and names keeps the list covered |
| MainWindow.SubsetCovers | speedy_qc/main_window.py:869-874 | a list of listed files stays covered |
| MainWindow.MainWindow.constructor | speedy_qc/main_window.py:341-358 | the files are the folder listing's `.dcm` names, sorted, none lost or added; cursor 0, fresh dictionaries covering every file |
| MainWindow.DcmFiles | speedy_qc/main_window.py:341 | the sorted `.dcm` names of a listing are ordered and are exactly its names ending in `.dcm` |
| MainWindow.MainWindow.ChangeImage | speedy_qc/main_window.py:883-945 | a bad direction raises `ValueError` before any change; otherwise only the file left is marked `True` or `"FAILED"`, its boxes are stored, the cursor goes to `PrevIndex` or `SearchNext` and the new file's boxes are shown |
| MainWindow.MainWindow.StoreAndMove | speedy_qc/main_window.py:895-913 | marks the file left, stores its boxes and moves the cursor |
| MainWindow.MainWindow.ShowBoxes | speedy_qc/main_window.py:945 | the screen shows the file's non-empty box lists |
| MainWindow.MainWindow.PrepFirstImage | speedy_qc/main_window.py:515-521 | the last box step of `__init__` (line 494): every finding's list on screen grows by the current file's stored boxes; from the empty view it is the file's non-empty lists, and exactly its lists when none is empty |
| MainWindow.MainWindow.PreviousImage | speedy_qc/main_window.py:958-962 | `change_image("previous")` |
| MainWindow.MainWindow.NextImage | speedy_qc/main_window.py:964-970 | `change_image("next", prev_failed)` |
| MainWindow.MainWindow.RotateImageRight | speedy_qc/main_window.py:640-651 | the boxes on screen are stored and the current file's rotation follows the older right turn |
| MainWindow.MainWindow.RotateImageLeft | speedy_qc/main_window.py:653-664 | the boxes on screen are stored and a quarter turn is added modulo 360 |
| MainWindow.MainWindow.OnTextChanged | speedy_qc/main_window.py:616-622 | the current file's notes become the normalised text |
| MainWindow.MainWindow.SaveJson | speedy_qc/main_window.py:1061-1103 | the boxes on screen are stored, then `Outputs` is written |
| MainWindow.MainWindow.LoadFromJson | speedy_qc/main_window.py:1105-1131 | with `new_json` nothing loads; otherwise the result is `LoadTables`, a failure changes nothing and a success marks the session loaded |
| MainWindow.MainWindow.RestoreFromSavedState | speedy_qc/main_window.py:858-874 | the cursor is set by `RestoreIndex` and the list reordered; a cursor left past the end raises `IndexError` instead |
| Cxr.Clip | speedy_cxr/main.py:42 | a clipped pixel lies in `[lo, hi]` |
| Cxr.WindowPixel | speedy_cxr/main.py:40-44 | a windowed pixel is in `[0, 255]`, black at or below the window's low end and white at or above its high end |
| Cxr.ScaleBounds | speedy_cxr/main.py:43 | the scaling `a * 255 // k` stays in `[0, 255]`, with 0 and 255 at the two ends |
| Cxr.DivMonotone | speedy_cxr/main.py:43 | floor division by a positive number keeps order |
| Cxr.WindowMonotone | speedy_cxr/main.py:40-44 | windowing never reverses the order of two pixel values |
| Cxr.DefaultWindowIdentity | speedy_cxr/main.py:35-44 | with the default centre 127 and width 255, values below 254 are shown unchanged and the rest white |
| Cxr.WindowImage | speedy_cxr/main.py:40-45 | one windowed pixel per pixel, each fitting `uint8` unchanged |
| Cxr.WindowImageKeepsOrder | speedy_cxr/main.py:40-45 | the displayed image keeps the order of any two pixels |
| Strings.DcmNames | speedy_cxr/main.py:70 | exactly the names ending in `.dcm`, none added |
| Cxr.Flags | speedy_cxr/main.py:71 | the booleans as three-valued flags with the same truth and never failed |
| Cxr.DataRows | speedy_cxr/main.py:397-404 | one three-field row per listed file, in list order, starting with its name |
| Cxr.CsvRows | speedy_cxr/main.py:393-404 | the header, then the data rows |
| Cxr.LoadRows | speedy_cxr/main.py:409-417 | the only error is `IndexError`; a load keeps every file the dictionaries held |
| Cxr.LoadCsv | speedy_cxr/main.py:406-417 | a load keeps every file the dictionaries held |
| Cxr.LoadRowsFails | speedy_cxr/main.py:409-417 | loading the rows fails exactly when some row has fewer than three fields |
| Cxr.LoadCsvFails | speedy_cxr/main.py:406-417 | an empty file raises `StopIteration`; otherwise `IndexError` exactly at a short row after the header, and nothing else |
| Cxr.DataRowsLoad | speedy_cxr/main.py:393-417 | the data rows read back give each listed file the flags they were written from and keep every other entry |
| Cxr.RestoredStep | speedy_cxr/main.py:409-417 | one more row for a file extends what is restored by that file |
| Cxr.CsvRoundTrip | speedy_cxr/main.py:393-417 | `save_to_csv` then `load_from_csv`: both booleans of every listed file come back as saved and other entries stay |
| Cxr.Cut | speedy_cxr/main.py:87 | the slice end `current_index + 1` as Python clips it, never past the list |
| Cxr.ReorderKeepsList | speedy_cxr/main.py:86-91 | with no unviewed file after the cursor the list is kept |
| Cxr.ReorderKeepsUnviewed | speedy_cxr/main.py:86-91 | otherwise the list is the unviewed files after the cursor, then the unviewed ones up to it: every viewed file is dropped |
| Cxr.ResumeLeavesCursorOutside | speedy_cxr/main.py:80-91 | two viewed files of three, left from the second, leave one file and the cursor at 1 |
| Cxr.ReorderListed | speedy_cxr/main.py:86-91 | the reordered list holds only listed files |
| Cxr.NextChoice | speedy_cxr/main.py:288-300 | the first unviewed file after the cursor, else the first before it; with every other file viewed, the next file round the list |
| Cxr.CloseEvent | speedy_cxr/main.py:433-444 | the window closes unless Cancel, and saves exactly on Yes |
| Cxr.CloseEventAgrees | speedy_cxr/main.py:433-444 | the same decision as the later window on a session that has a file |
| Cxr.Viewer.constructor | speedy_cxr/main.py:64-74 | the sorted `.dcm` names, all unviewed, the cursor at 0 and no checkbox values |
| Cxr.Viewer.Open | speedy_cxr/main.py:75-94 | without a CSV file nothing changes; with one the flags load, the cursor is restored and the list reordered, or the load's error is raised with the list and cursor unchanged and the rows before the first short one stored; a cursor past the end makes `load_file` raise `IndexError` |
| Cxr.Viewer.LoadFromCsv | speedy_cxr/main.py:406-417 | succeeds exactly when `LoadCsv` does, with its dictionaries, and raises its error otherwise; an empty file changes nothing, and otherwise the flags hold every data row before the first short one, as the loop leaves them when it raises |
| Cxr.Viewer.Restore | speedy_cxr/main.py:78-91 | the cursor is the saved file's position, else the saved index, and the list is reordered |
| Cxr.Viewer.IsImageViewed | speedy_cxr/main.py:320-322 | the current file's flag |
| Cxr.Viewer.PreviousImage | speedy_cxr/main.py:252-260 | the file left is marked viewed and saved to the settings; the cursor steps back, from the first file to the last |
| Cxr.Viewer.NextImage | speedy_cxr/main.py:278-300 | the file left is marked viewed and saved; the cursor goes to `SearchNext`; with some other file unviewed the new file shows as not viewed |
| Cxr.Viewer.OnConsolidationChanged | speedy_cxr/main.py:419-421 | only the current file's checkbox value changes, to `bool(state)` |
| Cxr.Viewer.SaveToCsv | speedy_cxr/main.py:393-404 | the rows written are `CsvRows` of the list and both dictionaries |
| Cxr.ReadRows | speedy_cxr/main.py:409-417 | the row loop computes `LoadRows`, and leaves the flags holding every row before the first short one |
| Cxr.FirstShort | speedy_cxr/main.py:411-414 | the first row whose field lookups raise, or the row count: every earlier row has three fields |
| Cxr.LoadRowsErrPrefix | speedy_cxr/main.py:409-417 | once a prefix of the rows fails, the whole file fails |
| Graphics.BoundingBox.constructor | speedy_qc/graphics.py:32-49 | a box item holds the rectangle it is made with |
| Graphics.Find | speedy_qc/graphics.py:200 | the first position holding `x` |
| Graphics.RemoveFirst | speedy_qc/graphics.py:200 | `list.remove` takes out exactly one occurrence, the first, and keeps the rest in order |
| Graphics.FirstHolding | speedy_qc/graphics.py:198-201 | the first finding in dictionary order whose list holds the box, every earlier one not holding it; `None` when none does |
| Graphics.RemovedOne | speedy_qc/graphics.py:192-201 | removing a box takes one occurrence out of the first list holding it, keeps every other list and key, and changes nothing when no list holds it |
| Graphics.FirstHoldingOnly | speedy_qc/graphics.py:198-201 | a box held under one finding only is found there |
| Graphics.RemoveAppended | speedy_qc/graphics.py:200 | removing a box appended to a list that did not hold it gives the list back |
| Graphics.AppendOrdered | speedy_qc/graphics.py:186-189 | appending keeps an insertion order of the keys: a new finding goes last |
| Graphics.AppendBoxes | speedy_qc/graphics.py:186-189 | the box goes last in its finding's list and no other finding changes |
| Graphics.AppendEachOrdered | speedy_qc/graphics.py:255-260 | the inner loop keeps the key order |
| Graphics.AppendEachBoxes | speedy_qc/graphics.py:255-260 | the inner loop appends the boxes in order after the finding's own and touches no other finding |
| Graphics.AddAllBoxes | speedy_qc/graphics.py:247-260 | every finding's list grows by the given boxes for it, in order, a missing key is created only for boxes, and the key order is kept |
| Graphics.DrawThenRemove | speedy_qc/graphics.py:180-201 | a box drawn and removed again leaves every list as it was, the finding keeping a possibly empty list |
| Graphics.RemovedAt | speedy_qc/graphics.py:198-201 | the removal happens in the first holding list |
| Graphics.OrderedUpdate | speedy_qc/graphics.py:200 | replacing a present key's list keeps the key order |
| Graphics.GraphicsView.constructor | speedy_qc/graphics.py:135-142 | no boxes, no box being drawn, no current finding |
| Graphics.GraphicsView.SetCurrentFinding | speedy_qc/graphics.py:228-236 | the finding becomes the current one |
| Graphics.GraphicsView.MousePress | speedy_qc/graphics.py:174-190 | with the left button, a scene and a non-empty finding, a new zero-size box at the point is started and appended to the finding's list; otherwise nothing changes |
| Graphics.GraphicsView.MouseMove | speedy_qc/graphics.py:203-215 | while the left button is held the box keeps its origin and takes the mouse's offset as its size; otherwise it is kept |
| Graphics.GraphicsView.MouseRelease | speedy_qc/graphics.py:217-226 | drawing stops on the left button, the box staying in its list |
| Graphics.GraphicsView.HandleRemovedBbox | speedy_qc/graphics.py:192-201 | the lists become `Removed`: one occurrence out of the first holding list |
| Graphics.GraphicsView.RemoveAllBoundingBoxes | speedy_qc/graphics.py:238-245 | no boxes and no keys are left |
| Graphics.GraphicsView.AddBboxes | speedy_qc/graphics.py:247-260 | the lists and key order become `AddAll` of the given dictionary |
| Utils.CheckState.Number | speedy_qc/utils.py:247-252 | a check state's number is 0, 1 or 2 |
| Utils.ParseInt | speedy_qc/utils.py:247 | `int` of a string reads a number only from text holding a digit, and a non-negative one when the text has no minus sign |
| Utils.ParseNumber | speedy_qc/utils.py:247 | a stripped number reads only when it holds a digit, and is non-negative unless it starts with `-` |
| Utils.SpacesBefore | speedy_qc/utils.py:247 | the leading white space `int` skips: all spaces, followed by a non-space |
| Utils.SpacesAfter | speedy_qc/utils.py:247 | the trailing white space `int` skips: all spaces, preceded by a non-space |
| Utils.Unscore | speedy_qc/utils.py:247 | dropping the underscores keeps every other character and changes nothing in a string without them |
| Utils.GroupedBetweenDigits | speedy_qc/utils.py:247 | in an accepted digit group every underscore sits between two digits |
| Utils.GroupedDigits | speedy_qc/utils.py:247 | a digit group without its underscores is all digits |
| Utils.NumberWithin | speedy_qc/utils.py:247 | the number read after stripping uses digits and a sign found in the text |
| Utils.ParseIntPadded | speedy_qc/utils.py:247 | white space around a number does not change what `int` reads |
| Utils.StripPadded | speedy_qc/utils.py:247 | stripping the white space around a string without space at its ends gives back the string |
| Utils.ParseIntSpaced | speedy_qc/utils.py:247 | `int(" 2")` and `int("2\n")` are 2 |
| Utils.ParseIntGrouped | speedy_qc/utils.py:247 | `int("1_0")` is 10 |
| Utils.ParseUnsigned | speedy_qc/utils.py:247 | an unsigned digit group reads as the value of its digits |
| Utils.ParseIntRejects | speedy_qc/utils.py:247 | `"1__0"`, `"_1"`, `"1_"`, `" "` and `"- 1"` raise `ValueError` |
| Utils.ShowNat | speedy_qc/utils.py:247 | `str` of a natural number is a non-empty run of digits with that value |
| Utils.ParseShow | speedy_qc/utils.py:247 | `int(str(n)) == n` for every integer |
| Utils.PyInt | speedy_qc/utils.py:247 | `int` of a stored value: numbers and booleans convert, `None` raises `TypeError`, a bad string `ValueError` |
| Utils.ConvertToCheckstate | speedy_qc/utils.py:238-254 | succeeds exactly for values converting to 0, 1 or 2, giving the state of that number; `int`'s own error passes through; any other number raises `TypeError` |
| Utils.CheckStateRoundTrip | speedy_qc/utils.py:238-254 | a state stored as its number or its text converts back to itself; `True` is the partial state, `False` unchecked, `"FAIL"` raises `ValueError` |
| Utils.Min | speedy_qc/utils.py:305 | `np.min`: an element bounding the array from below |
| Utils.Max | speedy_qc/utils.py:305 | `np.max`: an element bounding the array from above |
| Utils.MinIsUnique | speedy_qc/utils.py:305 | any element bounding the array from below is `Min` |
| Utils.MaxIsUnique | speedy_qc/utils.py:305 | any element bounding the array from above is `Max` |
| Utils.InvertGrayscale | speedy_qc/utils.py:304-305 | an empty image raises `ValueError`; otherwise every pixel and its inverse sum to `max + min` |
| Utils.InvertGrayscaleBounds | speedy_qc/utils.py:304-305 | inversion keeps the darkest and the brightest value |
| Utils.InvertGrayscaleInvolution | speedy_qc/utils.py:304-305 | inverting twice gives the image back |
| Utils.RenameColumn | speedy_qc/utils.py:329-330 | same length, no capital letter and no space left; spaces become underscores, other characters their lower case |
| Utils.RenameColumnIdempotent | speedy_qc/utils.py:329-330 | renaming twice is renaming once |
| Utils.Bin | speedy_qc/utils.py:344-351 | negative values get no label, every other value one of `1`, `2`, `3`, `4`, `Blank` |
| Utils.BinMatchesEdges | speedy_qc/utils.py:345-351 | label `k` goes to exactly the values in `[k, k + 1)`, and `Blank` to those from 4 on |
| Utils.BinMonotone | speedy_qc/utils.py:345-351 | a larger value never gets an earlier label |
| Windows.LoadMessageBox.constructor | speedy_qc/windows.py:172-267 | a new dialog has no custom return code and is not accepted |
| Windows.LoadMessageBox.OnWizardButtonClicked | speedy_qc/windows.py:269-274 | the wizard button sets the code 42 and accepts |
| Windows.LoadMessageBox.Exec | speedy_qc/windows.py:276-291 | the code is 0, 1 or 42: 42 exactly after the wizard button, otherwise 1 exactly when the dialog was accepted |
| Windows.Kind | speedy_qc/windows.py:599 | `None`, numbers with booleans, and strings are the families Python's `<` keeps apart |
| Windows.PyEqKind | speedy_qc/windows.py:599 | values equal in Python are of one family |
| Windows.PyLt | speedy_qc/windows.py:599 | `<` raises `TypeError` exactly across families or on `None` |
| Windows.ValueOrderIsTotalPreorder | speedy_qc/windows.py:599 | the family-then-value order is a total preorder, so it can sort |
| Windows.ValueLeAntisymmetric | speedy_qc/windows.py:599 | values at most each other are equal in Python |
| Windows.DedupValues | speedy_qc/windows.py:599 | `set` of the values: no two equal, nothing new, every value represented |
| Windows.EqFreePermutation | speedy_qc/windows.py:599 | reordering keeps a value list free of equal pairs |
| Windows.HasEqPermutation | speedy_qc/windows.py:599 | reordering keeps every value represented |
| Windows.SortedValues | speedy_qc/windows.py:599 | the corrected sort: strictly increasing, nothing new, every value represented up to `==` |
| Windows.SortedValuesAsWritten | speedy_qc/windows.py:599 | the sort as written can only raise `TypeError` |
| Windows.IncomparableMixed | speedy_qc/windows.py:599 | two incomparable set members mean two families occur |
| Windows.MixedIncomparable | speedy_qc/windows.py:599 | two families occurring leave two incomparable set members |
| Windows.AsWrittenFailsIffMixed | speedy_qc/windows.py:599 | the sort as written raises exactly when two families meet, and equals the corrected sort otherwise |
| Windows.SortedValuesPythonOrder | speedy_qc/windows.py:599 | without mixed families the corrected result is in Python's strict `<` order |
| Windows.FailBesideIntRaises | speedy_qc/windows.py:599 | `sorted(set([1, "FAIL"]))` raises `TypeError` |
| Windows.Filenames | speedy_qc/windows.py:592 | the file names, in order |
| Windows.CheckboxPairs | speedy_qc/windows.py:594-595 | exactly the checkbox pairs of entries that have a checkbox object |
| Windows.RadioPairs | speedy_qc/windows.py:596 | exactly the radio pairs of entries that have a radio object |
| Windows.KeysOf | speedy_qc/windows.py:594 | the names of the pairs |
| Windows.ValuesOf | speedy_qc/windows.py:595 | the values of the pairs |
| Windows.LoadJsonFindings | speedy_qc/windows.py:580-602 | the file names in order; checkbox names and radio groups sorted, duplicate-free and exactly those used; checkbox values as `SortedValues` |
| Windows.LoadJsonFindingsAsWritten | speedy_qc/windows.py:580-602 | the code as written can only raise `TypeError` |
| Windows.LoadJsonFindingsAgree | speedy_qc/windows.py:580-602 | it raises exactly on mixed checkbox values and equals `LoadJsonFindings` otherwise |
| Windows.FailedImageFileRaises | speedy_qc/windows.py:595-599 | a file with one image scored 1 and one marked `"FAIL"` cannot be opened |
| Windows.CheckJsonImageCompatibility | speedy_qc/windows.py:522-547 | true exactly when the folder is not a directory or every listed file is among its images |
| Windows.FolderImages | speedy_qc/windows.py:532-534 | exactly the folder's names with an image extension |
| Windows.SetupWindow.constructor | speedy_qc/windows.py:337-343 | the path shown, the saved path, no findings yet, OK enabled and not accepted |
| Windows.SetupWindow.CheckJsonCompatibility | speedy_qc/windows.py:549-568 | an existing file whose checkbox values mix numbers with `"FAIL"` raises `TypeError` and changes nothing; otherwise true exactly for an existing, compatible file, which is then remembered, and a missing file disables OK |
| Windows.SetupWindow.OnAccepted | speedy_qc/windows.py:439-448 | the `TypeError` of the check propagates with the dialog open; otherwise the dialog closes exactly on a compatible file, and OK is disabled on any other |
| Windows.SetupWindow.Accept | speedy_qc/windows.py:450-454 | the plain `accept` changes nothing |
| Windows.Filter | speedy_qc/windows.py:674 | exactly the files whose lower-case name contains the lower-case query |
| Windows.FilterAppend | speedy_qc/windows.py:674 | filtering works piece by piece, so it keeps the original order |
| Windows.FilterEmptyQuery | speedy_qc/windows.py:674 | an empty query keeps every file |
| Windows.FilterIdempotent | speedy_qc/windows.py:674 | filtering twice is filtering once |
| Windows.FileSelectionDialog.constructor | speedy_qc/windows.py:614-650 | every file shown, nothing selected, OK disabled |
| Windows.FileSelectionDialog.FilterList | speedy_qc/windows.py:667-676 | the shown list becomes `Filter` of the full list, which stays |
| Windows.FileSelectionDialog.SelectFile | speedy_qc/windows.py:678-686 | the clicked name is selected and OK enabled |
| Windows.FileSelectionDialog.AcceptFile | speedy_qc/windows.py:699-706 | accepted exactly when a file is selected, rejected otherwise |
| Windows.FileSelectionDialog.SelectAndAcceptFile | speedy_qc/windows.py:688-697 | a double click selects the name and accepts |
| Wizard.NextId | speedy_qc/wizard.py:361-390 | from the options page: the checkbox page iff checkboxes are chosen, the radio page iff only radio buttons are, itself iff nothing is; from the checkbox page: the radio page iff radio buttons are chosen, else the backup page; later pages go forward or end with -1 |
| Wizard.NothingChosenStays | speedy_qc/wizard.py:372-380 | with nothing chosen, Next never leaves the options page |
| Wizard.BothChosenVisitsAll | speedy_qc/wizard.py:361-390 | with both kinds chosen every page is visited in order, then the wizard ends |
| Wizard.RouteSkipsUnchosen | speedy_qc/wizard.py:361-390 | no route from the options page shows the page of a kind not chosen |
| Wizard.RouteFrom | speedy_qc/wizard.py:361-390 | from any page allowed for the choices, no later page is a page of a kind not chosen |
| Wizard.ChosenName | speedy_qc/wizard.py:608-610 | the typed name, or the selected existing file when nothing is typed |
| Wizard.ConfigFilename | speedy_qc/wizard.py:608-614 | the name always ends in `.yml`, which is added exactly when it is missing |
| Wizard.ConfigFilenameStable | speedy_qc/wizard.py:612-614 | adding the suffix again changes nothing |
| Wizard.Labels | speedy_qc/wizard.py:230-234 | one more label than line breaks, none holding a line break, joined back they give the text (the unified wizard's dialog splits the same way, `unified_wizard.py` lines 278-282) |
| Wizard.LabelTexts | speedy_qc/wizard.py:619-625 | exactly the non-empty texts of the filled rows, in layout order; the unified wizard's loop, which checks each row for widgets first, keeps the same texts (`unified_wizard.py` lines 1014-1022) |
| Wizard.LabelTextsAppend | speedy_qc/wizard.py:620-625 | the loop works row by row, so it keeps layout order |
| Wizard.CollectLabels | speedy_qc/wizard.py:619-626 | the corrected loop, which skips rows without widgets, computes `LabelTexts` |
| Wizard.CollectLabelsAsWritten | speedy_qc/wizard.py:619-626 | the loop as written raises `AttributeError` exactly when some row lost its widgets, and computes `LabelTexts` otherwise |
| Wizard.RemovedLabelFails | speedy_qc/wizard.py:619-626 | a label added by `add_label` and removed by `remove_label` (lines 434-463) leaves an empty row, which makes `accept` raise `AttributeError` |
| Wizard.MaxLen | speedy_qc/wizard.py:90 | the longest label's length |
| Wizard.CeilDiv | speedy_qc/wizard.py:91-102 | `ceil(a / b)`: the least multiple count covering `a` |
| Wizard.GridLayout | speedy_qc/wizard.py:90-102 | no labels raise `ValueError`, only empty labels `ZeroDivisionError`, and nothing else fails; the unified page uses the same arithmetic (`unified_wizard.py` lines 783-791 and 832-840) |
| Wizard.GridColumns | speedy_qc/wizard.py:90-91 | at least one column, the fewest with `columns * longest >= 10`, and one cell per label |
| Wizard.GridCellsInside | speedy_qc/wizard.py:93-102 | every label's column is inside the grid and its row above the remove button |
| Wizard.RowBelowCeil | speedy_qc/wizard.py:95-102 | a position before `len` lies on a row before `ceil(len / n)` |
| Wizard.GridCellsDistinct | speedy_qc/wizard.py:95-96 | no two labels share a cell, on both pages |
| Wizard.GridRemoveRow | speedy_qc/wizard.py:102 | the remove button sits on the row right below the last label |
| Wizard.GroupData | speedy_qc/wizard.py:127-140 | one title and label list per group, in order |
| Wizard.GroupDataAppend | speedy_qc/wizard.py:134-140 | the projection works group by group |
| Wizard.RemoveGroupFrom | speedy_qc/wizard.py:119-125 | a group box held by some entry removes exactly one entry; otherwise nothing changes |
| Wizard.RemoveGroupSplits | speedy_qc/wizard.py:119-125 | the entry removed is the first holding the box, the rest keeping their order |
| Wizard.RadioButtonPage.constructor | speedy_qc/wizard.py:79 | a new page has no groups |
| Wizard.RadioButtonPage.AddGroupWithoutDialog | speedy_qc/wizard.py:142-174 | the layout's result; on success one new entry with a fresh box, the title and the labels is appended, on error nothing changes; the unified page appends the same way (`unified_wizard.py` lines 806-852), without a remove-button row |
| Wizard.RadioButtonPage.AddGroup | speedy_qc/wizard.py:81-112 | with the scoped enum names (Findings row 6): a cancelled dialog changes nothing; an accepted one adds its title and its text's lines, unless the layout raises |
| Wizard.RadioButtonPage.AddGroupAsWritten | speedy_qc/wizard.py:81-86 | as written the dialog's constructor raises `AttributeError` (the unscoped `QDialogButtonBox.Ok` of line 211), so no group is ever added |
| Wizard.AcceptedGroupNotAdded | speedy_qc/wizard.py:81-112 | the accepted dialog for one label leaves the page as written without a group and gives the corrected page one |
| Wizard.RadioButtonPage.RemoveGroup | speedy_qc/wizard.py:114-125 | the list becomes `RemoveGroupFrom`, on both pages (`unified_wizard.py` lines 854-865) |
| Wizard.RadioButtonPage.GetGroupData | speedy_qc/wizard.py:127-140 | the groups' titles and labels in insertion order, on both pages (`unified_wizard.py` lines 867-880) |
| Wizard.RadioButtonPage.LoadGroupData | speedy_qc/wizard.py:176-185 | all groups are added when every layout succeeds; otherwise the first failing group stops it, the earlier ones added |
| Wizard.LoadThenGet | speedy_qc/wizard.py:127-185 | saved groups loaded into a fresh page read back as the same groups, exactly when all lay out |
| Wizard.AcceptedConfig | speedy_qc/wizard.py:616-639 | `accept` adds its seven keys, the labels and groups only when their option is on, `tristate_checkboxes` as a boolean, and keeps every other key |
| Wizard.ConfigurationWizard.constructor | speedy_qc/wizard.py:297-313 | the loaded configuration, its tri-state option, and a fresh radio page without groups |
| Wizard.NewConfigurationWizard | speedy_qc/wizard.py:297-332 | with the scoped `QWizard.WizardButton.NextButton` (Findings row 7): building the wizard fails exactly when some saved group's layout fails, with its `ValueError` or `ZeroDivisionError`; otherwise the radio page holds the saved groups, in order |
| Wizard.NewConfigurationWizardAsWritten | speedy_qc/wizard.py:297-332 | as written building the wizard always fails: with a group's layout error, or else with the `AttributeError` of the unscoped `QWizard.NextButton` |
| Wizard.ConfigurationWizard.UpdateTristateCheckboxesState | speedy_qc/wizard.py:476-483 | the option is on exactly for a non-zero state |
| Wizard.ConfigurationWizard.Accept | speedy_qc/wizard.py:603-645 | with the checkbox option on, a label row without its line edit raises `AttributeError` and nothing is stored; otherwise the configuration becomes `AcceptedConfig` and is saved under `ConfigFilename` |
| UnifiedWizard.ResolveConflictsPage.constructor | speedy_qc/unified_wizard.py:540-558 | the page starts from the wizard's conflict option and the two paths |
| UnifiedWizard.ResolveConflictsPage.UpdateConflictResolutionState | speedy_qc/unified_wizard.py:659-667 | conflict mode is on exactly for a non-zero state |
| UnifiedWizard.ResolveConflictsPage.GetJsonFilePaths | speedy_qc/unified_wizard.py:673-682 | keys `1` and `2`: the two paths in conflict mode, empty paths otherwise |
| UnifiedWizard.JsonFilePaths | speedy_qc/unified_wizard.py:680-682 | the same two keys and the same choice, as a value |
| UnifiedWizard.UnifiedCheckboxPage.constructor | speedy_qc/unified_wizard.py:403-423 | the page starts from the wizard's tri-state option and label rows |
| UnifiedWizard.UnifiedCheckboxPage.UpdateTristateCheckboxesState | speedy_qc/unified_wizard.py:529-536 | the option is on exactly for a non-zero state |
| UnifiedWizard.SavedConfigKeys | speedy_qc/unified_wizard.py:1006-1024 | the configuration gets every page's key, the labels, groups, options and paths, and keeps every key no page owns |
| UnifiedWizard.SavedSettingsKeys | speedy_qc/unified_wizard.py:1033-1042 | the settings get the file name and the stored options, and keep every other key |
| UnifiedWizard.ConfigurationWizard.constructor | speedy_qc/unified_wizard.py:942-984 | the configuration's decoded values, the wizard's own option copies, the pages, nothing skipped or saved |
| UnifiedWizard.ConfigurationWizard.CloseAdvancedSettings | speedy_qc/unified_wizard.py:219-233 | the file name is the typed one, or the selected one when nothing is typed; the directories and counts are taken over |
| UnifiedWizard.ConfigurationWizard.ConfigLoadDialog | speedy_qc/unified_wizard.py:1058-1069 | accepting records the file, sets `skip` and closes; cancelling changes nothing |
| UnifiedWizard.ConfigurationWizard.WriteConfig | speedy_qc/unified_wizard.py:1006-1031 | the configuration becomes `SavedConfig` of the pages and the name gets `.yml` when missing |
| UnifiedWizard.ConfigurationWizard.WriteSettings | speedy_qc/unified_wizard.py:1033-1048 | the settings become `SavedSettings` and the configuration is written under its name |
| UnifiedWizard.ConfigurationWizard.SaveConfig | speedy_qc/unified_wizard.py:998-1056 | a missing `log_dir` raises `KeyError`, a non-path one `TypeError`, both changing nothing; with `skip` nothing is written; otherwise the pages, the `.yml` name, the settings and the file are written |
| UnifiedWizard.LoadThenFinish | speedy_qc/unified_wizard.py:998-1069 | loading a configuration and finishing writes nothing beyond `last_config_file` |
| UnifiedWizard.TristateCopiesDiverge | speedy_qc/unified_wizard.py:1010-1040 | toggling tri-state on the page changes the written configuration but not the settings copy |
| ConfigWizard.Rows | speedy_qc/config_wizard.py:144-146 | one line-edit row per label edit, in order |
| ConfigWizard.SavedLabels | speedy_qc/config_wizard.py:296-302 | the saved labels are exactly the non-empty texts of the line edits |
| ConfigWizard.Truthy | speedy_qc/config_wizard.py:133 | Python truth of a stored value: a boolean itself, a number when non-zero, a text when non-empty |
| ConfigWizard.Clamp | speedy_qc/config_wizard.py:198-206 | a spin box value lies in its range and is the given value when that is in range, else the nearer end |
| ConfigWizard.AcceptedConfigKeys | speedy_qc/config_wizard.py:296-309 | `accept` adds its six keys, `True` under `tristate_cboxes` (a PyQt6 check state is an enum member and always truthy), and keeps every other key |
| ConfigWizard.ConfigurationWizard.constructor | speedy_qc/config_wizard.py:88-206 | with the scoped `QWizard.WizardButton.NextButton` (Findings row 8): one edit per saved label, the tri-state box checked iff the saved option is truthy, the spin boxes clamped to 1..100 and 1..30 |
| ConfigWizard.NewConfigurationWizardAsWritten | speedy_qc/config_wizard.py:55-115 | as written `__init__` always raises the `AttributeError` of the unscoped `QWizard.NextButton` |
| ConfigWizard.ConfigurationWizard.UpdateTristateCheckboxesState | speedy_qc/config_wizard.py:156-160 | the raw state goes under `tristate_checkboxes`, nothing else changes |
| ConfigWizard.ConfigurationWizard.ToggleTristate | speedy_qc/config_wizard.py:156-160 | clicking the box changes its state and runs the handler |
| ConfigWizard.ConfigurationWizard.AddLabel | speedy_qc/config_wizard.py:215-220 | one empty edit is added at the end |
| ConfigWizard.ConfigurationWizard.EditLabel | speedy_qc/config_wizard.py:144-146 | typing changes only that edit's text |
| ConfigWizard.ConfigurationWizard.CollectLabels | speedy_qc/config_wizard.py:296-302 | the non-empty texts in layout order, exactly the non-empty edit texts |
| ConfigWizard.ConfigurationWizard.Accept | speedy_qc/config_wizard.py:282-322 | the configuration becomes `AcceptedConfig` and is saved under the typed or selected name with `.yml` when missing |
| ConfigWizard.TristateUnderTwoKeys | speedy_qc/config_wizard.py:303 | the handler at line 160 writes the raw state; ticking the box and finishing stores 2 under `tristate_checkboxes` and `True` under `tristate_cboxes` |
| ConfigWizard.UntickedStillTrue | speedy_qc/config_wizard.py:303 | unticking the box and finishing stores 0 under `tristate_checkboxes` and still `True` under `tristate_cboxes` |
| ConfigWizard.BlankEditSavesNothing | speedy_qc/config_wizard.py:296-302 | a blank edit added at the end saves no more labels |
| Config.AppConfig.Titles | speedy_qc/main_app.py:116 | the titles of the configured radio groups, one per group and in configuration order |
| Session.LeaveMark | speedy_qc/main_app.py:1306-1309 | leaving an image always leaves a truthy viewed flag, and it is `"FAILED"` exactly when the load failed |
| Session.PyEqIsEquivalence | speedy_qc/main_app.py:1709-1710 | the `==` used to compare the two annotators' values (`True == 1`) is reflexive, symmetric and transitive, and holds between equal values |
| Session.NonEmpty | speedy_qc/main_app.py:1679-1681 | a finding keeps a box list after loading exactly when some box was stored for it, with that list; `get(finding, [])` sees no difference |
| Session.AddBoxes | speedy_qc/main_app.py:1825-1828 | appending boxes per finding puts the new boxes after the old ones, and a finding gets a list only once it holds a box |
| Session.AddBoxesKeepsNonEmpty | speedy_qc/main_app.py:1825-1828 | a box table without empty lists keeps none after boxes are appended |
| Session.AddBoxesAppend | speedy_qc/main_app.py:1825-1828 | appending two batches of boxes stores the old boxes, then the first batch, then the second, for every finding |
| Session.AddBoxesTwice | speedy_qc/main_app.py:1722-1725 | the two annotators' boxes appended one after the other leave the own boxes, then annotator 1's, then annotator 2's, and no empty list |
| Session.AddToEmpty | speedy_qc/main_app.py:1825-1828 | appending to an empty table keeps exactly the findings with at least one box |
| Session.AddNothing | speedy_qc/main_app.py:1825-1828 | appending no boxes leaves the table unchanged |
| Session.Names | speedy_qc/main_app.py:1641 | the file list is the saved entries' file names, one per entry, in entry order |
| Session.LastIndex | speedy_qc/main_app.py:1664-1667 | a name that occurs is answered by the position of its last entry, the one a loop writing entry after entry leaves behind |
| Session.LastIndexOfDistinct | speedy_qc/main_app.py:1664-1667 | when no file name repeats, each entry is the one its name is answered with |
| Session.LastIndexStep | speedy_qc/main_app.py:1664-1667 | storing one more entry redirects its own name to it and leaves every other name where it was |
| Sorting.InsertBy | speedy_qc/windows.py:599 | inserting into a sorted list under a total preorder keeps it sorted and adds exactly the one element |
| Sorting.SortBy | speedy_qc/windows.py:599 | `sorted` under a total preorder returns an ordered permutation of its input |
| Sorting.Dedup | speedy_qc/main_app.py:276-278 | the radio groups keyed by title: no title twice, and exactly the configured titles |
| Sorting.DistinctPermutation | speedy_qc/main_app.py:132-137 | reordering a list without repeats, as sorting does, leaves it without repeats |
| Strings.StrLeIsTotalPreorder | speedy_qc/main_app.py:132-137 | Python's `<=` on strings is total and transitive, so `sorted` on names is well defined |
| Strings.LeAntisymmetric | speedy_qc/main_app.py:132-137 | two names each at most the other are the same name, so a sorted list of names is determined by its contents |
| Strings.SortStrings | speedy_qc/main_app.py:132-137 | `sorted(names)` is ordered by Python's string order and holds exactly the given names |
| Strings.SortStringsHead | speedy_qc/main_app.py:600-605 | the first of the sorted backup names is one of them and at most every other, so the oldest backup is the one removed |
| Strings.SortedSet | speedy_qc/windows.py:598 | `sorted(set(names))` is strictly increasing and has exactly the members of the input |
| Strings.Lower | speedy_qc/windows.py:674 | lower-casing keeps the length and leaves no upper-case ASCII letter |
| Strings.LowerIdempotent | speedy_qc/windows.py:674 | lower-casing twice is lower-casing once |
| Strings.ReplaceChar | speedy_qc/main_app.py:665 | replacing one character by another keeps every other character in place, puts the new one at every former occurrence, and leaves none of the old |
| Strings.ContainsIffOccurs | speedy_qc/windows.py:674 | `needle in hay` holds exactly when the needle occurs at some offset of the text |
| Strings.WithSuffix | speedy_qc/wizard.py:608-614 | the name ends with the suffix, starts with the typed name, and is left alone when it already ends with the suffix |
| Strings.Split | speedy_qc/wizard.py:234 | splitting at a separator yields one more piece than there are separators, none containing it |
| Strings.JoinSplit | speedy_qc/wizard.py:234 | joining the pieces of a split with the separator gives back the text |
| Strings.IndexOf | speedy_qc/main_app.py:1259 | `list.index` returns the position of the first occurrence |
| Strings.IndexOfDistinct | speedy_qc/main_app.py:1259 | in a list without repeats, `index` of the element at a position is that position |
| Strings.ImageNames | speedy_qc/main_app.py:135-137 | the image files of a listing are exactly the listed names with an image extension |

## Left out

- Pixel data, DICOM decoding and LUTs, image scaling, and floating-point geometry are not modelled. Box coordinates and the progress percentage are exact reals rather than floats, and rotating a box with the image is left out.
- Qt widgets, colours, fonts, themes, icons, timers, logging and signal wiring are left out. Message boxes and dialogs become parameters that carry the user's choice.
- File-system and settings I/O are parameters. Directory listings, `QSettings` values and file contents are passed in, and written files are results. `os.path.join`, `normpath` and `abspath` are not modelled, so a stored path is the file name the code joins.
- JSON and YAML parsing and printing are left out. The model takes decoded values, a parse error is not modelled, and neither is a `KeyError` on a missing `config`, `files`, `image_directory`, `filename`, `viewed` or `rotation` key.
- `connection_manager.py` and `custom_windows.py` are not part of this model. Neither is `speedy_qc/main.py`, the start-up script that wires the dialogs together.
- Concurrency and the Qt event loop are left out. Each handler runs to completion.
- `Utils.ParseInt`: reads ASCII digits and skips ASCII white space only. Python's `int` also accepts the other Unicode decimal digits and white space, which are not modelled.
- `Strings.Lower`: lower-cases ASCII letters only, because Python's full Unicode case mapping is not modelled.
- `Cxr.WindowPixel`: requires a window width of at least 2. A width of 0 or 1 makes `hi - lo` zero and the numpy division yields 0 with a warning, which is not modelled.
- `MainApp.MainApp.RestoreFromSavedState`: treats a saved `QSettings` index as a natural number. A negative stored index would index from the end in Python.
- `MainWindow.MainWindow.constructor`: requires a folder with at least one `.dcm` file. Without one, Python raises an `IndexError` at `file_list[current_index]`.
- `MainApp.MainApp.constructor` and `MainWindow.MainWindow.constructor` are only the start of `__init__`. Its later steps are separate methods: the folder or session load, the conflict data, the saved cursor and last `PrepFirstImage`. No member chains them in `__init__`'s order.
- The errors raised inside `__init__` by `load_from_json` and `load_conflict_resolution_data` abort the window. `MainApp.MainApp.LoadFromJson` and `MainApp.MainApp.LoadConflictResolutionData` promise nothing about the state after such an error.
- `MainWindow.MainWindow.LoadFromJson`: on a `KeyError` the model keeps the window's dictionaries as they were. `load_from_json` has by then stored the records before the failing one and part of that one. The error ends `__init__`, so nothing reads that state.
- `MainApp.MainApp.ChangeImage`: on an error after the direction check the model changes nothing. `change_image` has by then marked the outgoing file, stored its boxes and moved the cursor, and the error aborts the application.
- `Graphics.GraphicsView.AddBboxes` and `Graphics.GraphicsView.RemoveAllBoundingBoxes` do not read `hasScene`. Both windows give the view its scene when they build it (`main_app.py` line 223, `main_window.py` line 377), so the `AttributeError` of `self.scene()` returning `None` is not modelled.
- `Cxr.Viewer.OnConsolidationChanged`: the `QSettings` write of the raw state under the file name is left out, because nothing reads that key back; only `last_file` and `last_index` are read.
- `MainApp.MainApp.Decide`: `set_checkbox_value` and `set_checked_radiobuttons` are modelled by the errors they raise; their widget updates (the check states, the disabled boxes, the unchecked groups) are left out with the other widgets.
- QWizard's default `nextId` is modelled as the next page in page order, and -1 after the last page.
- The wizard constructors take decoded YAML values and do not open files.
- `Wizard.CeilDiv`: `math.ceil` on a float quotient is modelled as the integer ceiling, which is exact for the small counts involved.
- The unified wizard's `add_group` builds no remove-button row. The model shares the page with the first wizard's `RadioButtonPage`, and the difference is layout only.
- `UnifiedWizard.ConfigurationWizard.SaveConfig`: it and `WriteConfig` build the written configuration from the functions that the page methods are proved equal to, rather than by calling the page methods.
- `ConfigWizard.ConfigurationWizard.constructor`: the `QSettings` defaults of the directory edits are constructor parameters.
- The spin-box ranges are applied at construction only. Later edits are taken as in range.
- The layout arithmetic of `create_radiobuttons` in `main_app.py` is left out. The model keeps the group sizes only.
- `select_json`, the file dialogs and the choice of save paths are parameters.
- `next_image(prev_failed=True)` is never called with `True` inside `main_app.py`. The model nonetheless follows the code, and the failed mark is overwritten when the image is left.

## Findings

| source | as written | input that shows it | evidently intended | confidence | as-written member | corrected member |
|---|---|---|---|---|---|---|
| speedy_qc/main_window.py:1206-1216 | `closeEvent` closes after Yes only when `save_to_json()` is truthy, but `save_to_json` never returns a truthy value: `None` after writing, `False` for a new session | any session, and the user answers Yes to "save before exit" | save, then close, as `main_app.py` does when the save succeeds | not executed | MainWindow.YesNeverCloses | MainWindow.CloseEventCorrected |
| speedy_qc/main_window.py:1145-1148 | `load_bounding_box` checks `finding in self.bboxes`, the per-file table, instead of `self.bboxes[file]` | two boxes for the same finding in one JSON entry: the second replaces the first | append every box to its finding's list | not executed | MainWindow.TwoBoxesAsWritten | MainWindow.EntryBoxesPerFinding |
| speedy_qc/windows.py:599 | `sorted(list(set(cbox_values)))` over checkbox values that can mix integers with the string `"FAIL"` | a JSON file where one image failed to load and another has ticked findings | list the distinct values without raising `TypeError` | not executed | Windows.AsWrittenFailsIffMixed | Windows.SortedValuesPythonOrder |
| speedy_qc/wizard.py:619-626 | `accept` calls `hbox.itemAt(0).widget()` on every row, including one whose line edit was removed | add a label, remove it, then finish the wizard: `itemAt(0)` is `None` (reachable once the wizard can be built, Findings row 7) | skip an empty row, as `unified_wizard.py` does with `count() > 0` | not executed | Wizard.RemovedLabelFails | Wizard.CollectLabels |
| speedy_cxr/main.py:86-87 | on resume `viewed_files` keeps the files up to the cursor that are NOT viewed | `a.dcm`, `b.dcm` viewed, `c.dcm` not, cursor at `b.dcm`: the list becomes `["c.dcm"]` | keep the viewed files up to the cursor, as `main_window.py:870` does | not executed | Cxr.ResumeLeavesCursorOutside | MainWindow.ReorderKept |
| speedy_qc/wizard.py:211 | `QDialogButtonBox.Ok \| QDialogButtonBox.Cancel`, names PyQt6 only offers scoped | click "Add Group": the dialog's constructor raises `AttributeError` before it shows | `QDialogButtonBox.StandardButton.Ok`, as `unified_wizard.py` line 259 writes it | not executed | Wizard.AcceptedGroupNotAdded | Wizard.RadioButtonPage.AddGroup |
| speedy_qc/wizard.py:331 | `self.button(QWizard.NextButton)` at the end of `__init__` | any configuration whose radio groups lay out: `__init__` raises `AttributeError` | `QWizard.WizardButton.NextButton`, as `unified_wizard.py` line 349 writes it | not executed | Wizard.NewConfigurationWizardAsWritten | Wizard.NewConfigurationWizard |
| speedy_qc/config_wizard.py:114 | `self.button(QWizard.NextButton)` at the end of `__init__` | any configuration: `__init__` raises `AttributeError` | `QWizard.WizardButton.NextButton` | not executed | ConfigWizard.NewConfigurationWizardAsWritten | ConfigWizard.ConfigurationWizard.constructor |
