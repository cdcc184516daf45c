# File organizer: a verified model of the sort pass and its undo

The file organizer sorts the regular files of a watched directory into category
folders under a sort directory. It picks the category from the file's last
suffix, lowercased, using a fixed table; anything unlisted goes to "Others".
Each pass records every move in a one-generation undo ledger (`config.json`),
mapping the new path back to the old one. An undo moves back each recorded file
that is still at its recorded destination, then saves an empty ledger.

The project has three modules:

- `Classifier` (`classifier.dfy`) models the category lookup as pure functions:
  - `os.path.splitext` on a directory-entry name, as `SplitExt`;
  - `str.lower`, as `Lower`;
  - the `FILE_TYPES` table, kept in declaration order;
  - the `next(...)` search with its "Others" default, as `LookupFrom` and `Classify`.
- `Organizer` (`organizer.dfy`) models the file system abstractly:
  - a set of directory paths, a map from file path to content, and the persisted ledger;
  - specification functions stating what a whole pass (`AfterSort`, `SortLedger`) and a whole undo (`AfterUndo`) leave behind;
  - the class `FileOrganizer`, whose methods `SortFiles` and `UndoLast` run the two loops step by step. They are proved to reach exactly those states and to keep the file system well formed.
- `OrganizerProperties` (`properties.dfy`) proves what the two operations promise:
  - every regular file is moved with its content and recorded;
  - nothing else moves;
  - a second pass is idle;
  - an undo skips missing destinations;
  - a second undo is idle;
  - undoing a pass puts every file back where it was, with its content; the category folders the pass created stay.

A path is a sequence of components, and `os.path.join(d, n)` is `d + [n]`. The
entry order of `os.listdir` and the iteration order of the saved mapping are left
open: each loop takes its entries in any order, and the properties hold for all
of them.

Three behaviours of `file_organizer.py` shape the model:

- `json.load` on a corrupt `config.json` raises, and nothing catches it (file_organizer.py:29), so `undo_last` stops before it moves anything.
- A failed `os.makedirs` or `shutil.move` inside the loop of `sort_files` raises, and nothing catches it (file_organizer.py:60-63), so the pass ends before `save_undo`. The model excludes such failures by precondition (see "Left out").
- A missing watched directory makes `os.listdir` raise before anything is done (file_organizer.py:49). `SortFiles` models this: it reports that it could not list the directory and changes nothing.

## Model

| member | source | states |
|---|---|---|
| Classifier.LastIndexOf | file_organizer.py:54 | the index of the last dot in the name, as `splitext` finds it, or -1 when there is none: the character there is a dot and none follows it |
| Classifier.SplitExt | file_organizer.py:54 | the two parts concatenate back to the name; a non-empty suffix starts with its only dot; a suffix exists exactly when some dot follows a non-dot character (leading dots do not start one) |
| Classifier.Lower | file_organizer.py:54 | lowercasing keeps the length and maps each character on its own |
| Classifier.LookupFrom | file_organizer.py:55-57 | the search from a row on yields the first row listing the suffix, or "Others" when no row lists it |
| Classifier.Classify | file_organizer.py:55-57 | the lookup is total, always yields a table category, and yields either the first matching row in declaration order or "Others" for an unlisted suffix |
| Classifier.Category | file_organizer.py:54-57 | the category of a file name is always a table category: the first row in declaration order listing its lowercased last suffix, or "Others" when no row lists it |
| Classifier.ExtensionsDisjoint | file_organizer.py:15-22 | no suffix is listed under two categories, so declaration order never breaks a tie |
| Classifier.ClassifyListed | file_organizer.py:55-57 | a suffix is classified under a named category if and only if that category lists it |
| Classifier.ClassifyFallback | file_organizer.py:56 | "Others" is chosen if and only if no category lists the suffix |
| Classifier.LowerIdempotent | file_organizer.py:54 | lowercasing twice is lowercasing once |
| Classifier.ExtensionOfLower | file_organizer.py:54 | splitting off the suffix commutes with lowercasing |
| Classifier.CategoryOfLower | file_organizer.py:54-57 | a name and its lowercase form fall in the same category |
| Classifier.CategoryIgnoresCase | file_organizer.py:54-57 | two names that agree up to letter case fall in the same category |
| Classifier.TarGzUnreachable | file_organizer.py:19 | no name's lowercased suffix is ".tar.gz", so that table entry never matches |
| Classifier.ArchivesOnlySingleSuffix | file_organizer.py:19 | a name goes to Archives if and only if its lowercased suffix is ".zip", ".rar" or ".7z" |
| Classifier.ImagesExample | file_organizer.py:16 | a.jpg goes to Images |
| Classifier.VideosExample | file_organizer.py:17 | b.mp4 goes to Videos |
| Classifier.OthersExample | file_organizer.py:55-57 | c.xyz goes to Others |
| Classifier.UpperCaseExample | file_organizer.py:54 | a.JPG goes to Images, like a.jpg |
| Classifier.TarGzExample | file_organizer.py:19 | x.tar.gz is looked up as ".gz" and goes to Others, not Archives |
| Classifier.DotfileExample | file_organizer.py:54 | .bashrc has no suffix and goes to Others |
| Organizer.Destination | file_organizer.py:59-62 | a file's new path is the sort directory, then its category, then its own name |
| Organizer.DestinationInjective | file_organizer.py:62-64 | distinct file names get distinct destinations, so each moved file gets its own ledger key |
| Organizer.FileNames | file_organizer.py:49-51 | a name is listed exactly when the watched directory holds a regular file of that name |
| Organizer.SortStepState | file_organizer.py:59-64 | moving one more file and recording it takes the state after the files already handled to the state after those files plus this one |
| Organizer.RestoredFilesStep | file_organizer.py:74-76 | one more ledger entry, moved back or skipped, takes the state after the entries already handled to the state after those entries plus this one |
| Organizer.SortKeepsWellFormed | file_organizer.py:59-63 | after a pass, files and directories are still distinct paths and every parent still exists |
| Organizer.UndoKeepsWellFormed | file_organizer.py:74-76 | after an undo, files and directories are still distinct paths and every parent still exists |
| Organizer.FileOrganizer.IsFile | file_organizer.py:51 | `os.path.isfile` is false of a directory, so directories are passed over |
| Organizer.FileOrganizer.Exists | file_organizer.py:75 | `os.path.exists` is true of every file; where no directory sits it agrees with `isfile` |
| Organizer.FileOrganizer.LoadUndo | file_organizer.py:26-30 | a missing ledger file loads as the empty ledger; otherwise the saved ledger loads as it was saved |
| Organizer.FileOrganizer.SaveUndo | file_organizer.py:34-36 | the saved ledger is replaced as a whole by the new one, never merged |
| Organizer.FileOrganizer.ListDir | file_organizer.py:49 | the listing holds each entry of the directory, file or directory, exactly once, in no particular order |
| Organizer.FileOrganizer.MakeDirs | file_organizer.py:60 | the folder exists afterwards, whether or not it did before; nothing else changes |
| Organizer.FileOrganizer.Move | file_organizer.py:63 | the file leaves its old path and appears, with the same content, at the new one |
| Organizer.FileOrganizer.SortFile | file_organizer.py:54-64 | a regular file is moved to its category folder, the folder is created, and the move is recorded from the new path to the old |
| Organizer.FileOrganizer.SortEntry | file_organizer.py:50-64 | one loop round moves and records a regular file and passes over anything else, keeping the invariant "every handled file is at its destination and in the ledger" |
| Organizer.FileOrganizer.SortEntries | file_organizer.py:47-65 | whatever the listing order, the loop leaves exactly the state of a whole pass and builds exactly its ledger, starting from an empty one |
| Organizer.FileOrganizer.SortFiles | file_organizer.py:46-67 | when the watched directory is missing, the listing fails and nothing changes; otherwise a pass moves every regular file of the watched directory and nothing else, creates only the category folders needed, and saves exactly the ledger of its moves over the old one |
| Organizer.FileOrganizer.UndoEntry | file_organizer.py:74-77 | one loop round moves a recorded file back if its destination exists and skips it otherwise |
| Organizer.FileOrganizer.RestoreAll | file_organizer.py:74-77 | whatever the order of the entries, the loop leaves exactly the state of a whole undo |
| Organizer.FileOrganizer.UndoLast | file_organizer.py:72-78 | an undo moves back every recorded file still at its destination, leaves the directories alone, and always saves an empty ledger |
| OrganizerProperties.SortMovesEveryFile | file_organizer.py:49-64 | each regular file of the watched directory ends at its category destination with unchanged content, its old path is free, and the ledger maps the destination back to it |
| OrganizerProperties.SortKeepsOtherFiles | file_organizer.py:49-52 | a file not directly inside the watched directory keeps its path and content |
| OrganizerProperties.SortKeepsDirectories | file_organizer.py:51-52 | an entry that is not a regular file, such as a subdirectory, stays a directory (as SortFiles' own `dirs` postcondition also says), and no file is moved onto it |
| OrganizerProperties.SortCreatesOnlyDestinations | file_organizer.py:62-63 | a pass creates a file only at the destination of a regular file it moved |
| OrganizerProperties.SortLedgerEntries | file_organizer.py:64 | every ledger entry maps a destination to the source of the file moved there, one entry per moved file |
| OrganizerProperties.SortLedgerInjective | file_organizer.py:64 | no two ledger entries send files back to the same path |
| OrganizerProperties.MovedNothing | file_organizer.py:49-52 | a pass with no regular file to move leaves the files as they were |
| OrganizerProperties.SortEmptiesWatchDir | file_organizer.py:49-63 | after a pass the watched directory holds no regular file |
| OrganizerProperties.SecondSortIsIdle | file_organizer.py:47-67 | a second pass may run, moves nothing, creates no folder, and saves an empty ledger over the first |
| OrganizerProperties.UndoRestoresLive | file_organizer.py:74-76 | a recorded file still at its destination goes back to its source with its content, and the destination is freed |
| OrganizerProperties.UndoKeepsOthers | file_organizer.py:74-76 | a file at a path that is not a recorded destination keeps its path and content through an undo |
| OrganizerProperties.UndoSkipsMissing | file_organizer.py:75 | an entry whose destination holds no file is skipped: undoing with or without it gives the same result |
| OrganizerProperties.UndoWithEmptyLedger | file_organizer.py:72-78 | undoing the empty ledger is always possible and changes nothing |
| OrganizerProperties.SortLedgerUndoSafe | file_organizer.py:64-76 | the ledger a pass saves can be undone in the state the pass leaves |
| OrganizerProperties.SortThenUndoRestores | file_organizer.py:46-78 | undoing a pass with the ledger it saved restores every file, path and content, and nothing else |
| OrganizerProperties.SortUndoSort | file_organizer.py:46-78 | after a pass and its undo, a new pass may run; it sends every file to the same destination and saves the same ledger as the first pass |
| OrganizerProperties.RoundTripSource | file_organizer.py:63-76 | in the round trip, a file of the watched directory comes back to its path with its content |
| OrganizerProperties.RoundTripOther | file_organizer.py:49-76 | in the round trip, a file elsewhere is never touched |
| OrganizerProperties.RoundTripAbsent | file_organizer.py:63-76 | in the round trip, a path that held no file holds none afterwards |
| OrganizerProperties.SortThenUndo | file_organizer.py:46-78 | on the organizer itself, a pass then an undo gives back the original files and leaves an empty ledger saved; the category folders the pass created stay |
| OrganizerProperties.SortUndoSortAgain | file_organizer.py:46-78 | on the organizer itself, a pass, an undo and a pass leave the files where the first pass put them, the same ledger saved, and exactly the first pass's category folders added |
| OrganizerProperties.SortTwice | file_organizer.py:46-67 | on the organizer itself, a second pass moves nothing, adds no folder beyond the first pass's category folders, and leaves an empty ledger saved |
| OrganizerProperties.SortIdle | file_organizer.py:46-67 | on the organizer itself, a pass over a state with nothing to move changes no file and no folder, and saves an empty ledger |
| OrganizerProperties.UndoTwice | file_organizer.py:72-78 | on the organizer itself, a second undo finds an empty ledger and changes nothing |

## Left out

- `log_action` (file_organizer.py:40-42) is not modelled. It appends a timestamped line to `logs.txt`, which is output only and never read back.
- The watchdog monitor `FileHandler`/`monitor_folder` (file_organizer.py:83-102) is not modelled. It is a background observer thread with a sleep loop that only calls `sort_files`.
- The interactive menu and `print` calls (file_organizer.py:68, 79, 105-116) are not modelled. They are console I/O.
- The hard-coded Windows paths (file_organizer.py:9-10) are not modelled. The watched and sort directories are parameters of the organizer.
- JSON encoding in `load_undo`/`save_undo` is not modelled. The ledger file is an abstract optional mapping: absent, or a saved `map<Path, Path>`.
- A corrupt ledger file is not modelled. In the source, `json.load` raises, and the exception ends the undo.
- Classifier.SplitExt models `os.path.splitext` only for names without a path separator. These are the names `os.listdir` returns, which is all the classifier ever sees.
- Classifier.Lower maps only ASCII capitals and the KELVIN SIGN (which lowercases to "k"). Every other character maps to itself, where Python's `str.lower` may map it to other non-ASCII text. No table suffix contains such text, so the category is the same.
- Organizer.FileOrganizer.SortFiles requires `SortSafe`: no category folder that a file needs is itself a file, and no destination exists yet.
  - `os.makedirs` fails on the first case.
  - What `shutil.move` does onto an existing file depends on the platform.
  - Onto an existing directory, `shutil.move` puts the file inside it, at the directory's path plus the file's name. The ledger (file_organizer.py:64) still records the directory's path. The next `undo_last` finds that path exists (file_organizer.py:75) and moves the whole directory back, which `UndoSafe` excludes.
  - The source handles none of these; each ends or changes the pass in ways the model does not describe.
- Organizer.FileOrganizer.SortFiles assumes that a path names exactly one file: paths are compared component by component and case-sensitively, with no symbolic links and no `..`. On a case-insensitive file system (the default on Windows and macOS), a file `photo.JPG` left in a category folder by an earlier pass is the same file as the new destination `photo.jpg`; there such a destination already exists, and `SortSafe` must be read that way.
- Organizer.FileOrganizer.UndoLast requires `UndoSafe`:
  - No recorded destination is a directory. `os.path.exists` is true of one, and `shutil.move` would carry the whole directory back.
  - Each file still present goes back to a distinct path that is absent, not itself recorded, and whose directory exists.
- Organizer.FileOrganizer.UndoLast assumes, as SortFiles does, that a path names exactly one file: case-sensitive comparison, no symbolic links and no `..`. On a case-insensitive file system, a source path that differs from an existing file only in case is not absent, and `UndoSafe` must be read that way.
- Organizer.FileOrganizer.MakeDirs creates one level only. The sort directory is required to exist, so every category folder's parent exists; `os.makedirs` would also create missing ancestors.
- Organizer.FileOrganizer.Move models a move to a path that does not exist yet. Cross-device copying, permissions and locked files are foreign file-system behaviour.
- The model assumes the working directory is not the watched directory. `config.json` and `logs.txt` (file_organizer.py:11-12) are relative paths, and the model keeps the ledger file and the log outside the file map. If the program runs inside the watched directory, a pass moves `config.json` to Others and `logs.txt` to Documents. `log_action` (file_organizer.py:65) and `save_undo` (file_organizer.py:67) then re-create both files there. The watched directory is then not left empty, and a second pass is not idle. OrganizerProperties.SortEmptiesWatchDir and OrganizerProperties.SecondSortIsIdle hold only under this assumption.
- A watched directory that is missing or is a file makes `os.listdir` raise `FileNotFoundError` or `NotADirectoryError` (file_organizer.py:49). Organizer.FileOrganizer.SortFiles models this as a pass that reports the failure and changes nothing. It does not model the error as an exception. `undo_last` never touches the watched directory, and UndoLast does not require it.
- The order of `os.listdir` and of the saved mapping is not modelled. Both loops are proved for every order.
