# FilesOrganizer in Dafny

A model of `FilesOrganizer` from the SavingFilesDemo app. FilesOrganizer stores binary blobs, such as images, under
`<caches directory>/FilesOrganizer/<folderName>/<fileName>.<pathExtension>`.
Every instance owns a serial `ioQueue`. A save or a load resolves the file's
path at once and puts a closure on that queue. The closure runs later and
calls the caller's completion handler exactly once, with a `URLResult` or a
`DataResult`. `removeFolder` runs at once, on the caller's side, and reports
nothing.

The model has five modules:

- `Paths` (paths.dfy): the path resolver. A path is a sequence of
  components, and the caches directory is an opaque path handed in by the
  caller. It covers `folderURL`, `createFileURL`, `FileMeta` and
  `Defaults.subfolderName`, plus a parser that reads a leaf name back into
  a `FileMeta`. The parser is the inverse against which path construction is proved
  injective.
- `Disks` (disks.dfy): the part of `FileManager` and `Data` that the
  organizer calls. It works over an abstract disk: a set of directories and
  a map from file path to bytes.
  - Each call that can throw takes a `fault` flag, which stands for the
    platform's I/O errors.
  - Structural failures are modelled (the model holds no file directly
    under the filesystem root):
    - a regular file above the folder makes `createDirectory` fail;
    - a missing parent, or a directory at the URL, makes the write fail;
    - a missing file makes the read fail.
  - `WellFormed` is the filesystem invariant: every directory above a
    directory exists, every file sits in a directory, and no path is both.
- `Jobs` (jobs.dfy): the closures that `saveFileInBackground` and
  `loadDataInBackground` put on `ioQueue`, as functions of the disk.
  `RunJob` runs one closure, `Exec` runs a queue of them in order, and
  `RemoveFolder` is the `try? removeItem` of `removeFolder`. The
  properties of the store are lemmas about these functions.
- `Organizer` (organizer.dfy): the class `FilesOrganizer`. Its state:
  - the disk it shares with the process (`dirs`, `files`);
  - `ioQueue`, the pending closures, oldest first;
  - `delivered`, the completion-handler calls made so far.

  Its methods:
  - `SaveFile`/`SaveFileInBackground` and `LoadData`/`LoadDataInBackground`
    only enqueue.
  - `Step` is the queue running its oldest closure.
  - `RunQueue` drains the queue.
  - `RemoveFolder` changes the disk at once.

  Jobs carry a ticket, their position in submission order. The class
  invariant keeps handler calls numbered 0, 1, 2, ... with the queue
  holding the next numbers in order. That is FIFO order with exactly one
  call per job. `Step`, `RunQueue`, `RemoveFolder` and `PrepareDirectory`
  are proved against the `Jobs` function that specifies them. The
  submitting methods state the job they append to `ioQueue` and that they
  leave the disk and the handler calls alone.
- `Scenarios` (scenarios.dfy): the demo's view model driving one organizer
  over the folder "Images" with the blob "Image.jpeg". Each scenario states
  the handler calls that result.

The code does not check that `folderName` is non-empty, and the model has
no such precondition either. The model treats every folder name and every
file name as exactly one path component, and compares components as exact
character sequences. That matches the platform only for names that are
not empty, not "." or "..", and contain no "/", and only on a volume that
tells apart names differing in case or Unicode normalization.
"## Left out" says what differs for the other names.

The rows for `Disks.FileExists`, `Disks.CreateDirectory`,
`Disks.WriteData`, `Disks.ReadData`, `Disks.RemoveItem` and `Disks.Prune`
are definitions of platform calls: their contracts state, case by case,
what the call does. Their partners are the `...KeepsWellFormed` lemmas
and the round-trip lemmas in `Jobs`.

## Model

| member | source | states |
|---|---|---|
| Paths.FolderURL | SavingFilesDemo/Classes/Tools/FilesOrganizer.swift:97-101 | the folder is inside `<cachesRoot>/FilesOrganizer`, exactly two components below the caches root, and ends in the organizer's folder name |
| Paths.FoldersDisjoint | SavingFilesDemo/Classes/Tools/FilesOrganizer.swift:97-101 | organizers with different folder names own folders neither of which lies inside the other |
| Paths.FileURL | SavingFilesDemo/Classes/Tools/FilesOrganizer.swift:119-123 | a file path is a direct child of the folder; its name is fileName, then ".", then pathExtension |
| Paths.FileInFolder | SavingFilesDemo/Classes/Tools/FilesOrganizer.swift:119-123 | every file path lies under its folder and under the FilesOrganizer namespace |
| Paths.LeafName | SavingFilesDemo/Classes/Tools/FilesOrganizer.swift:121-122 | the leaf is fileName, then one ".", then pathExtension, with nothing else |
| Paths.SplitLeaf | SavingFilesDemo/Classes/Tools/FilesOrganizer.swift:119-123 | the reference inverse of createFileURL's leaf (the source has no parser): a leaf reads back into a FileMeta exactly when it holds a "."; the FileMeta rebuilds that leaf, and its extension holds no "." |
| Paths.SplitLeafName | SavingFilesDemo/Classes/Tools/FilesOrganizer.swift:119-123 | reading back the leaf built from a FileMeta gives that FileMeta, when the extension has no "." |
| Paths.LeafNameInjective | SavingFilesDemo/Classes/Tools/FilesOrganizer.swift:119-123 | two FileMeta values with extensions without "." and the same leaf name are equal |
| Paths.FileURLInjective | SavingFilesDemo/Classes/Tools/FilesOrganizer.swift:119-123 | within one folder, distinct FileMeta values (extensions without ".") resolve to distinct files |
| Disks.FileExists | SavingFilesDemo/Classes/Tools/FilesOrganizer.swift:107 | fileExists holds exactly when a directory or a regular file is at the path (definition) |
| Disks.CreateDirectory | SavingFilesDemo/Classes/Tools/FilesOrganizer.swift:108-112 | createDirectory with intermediate directories adds the folder and all its ancestors and leaves files alone; it always succeeds without a fault when no ancestor is a regular file |
| Disks.WriteData | SavingFilesDemo/Classes/Tools/FilesOrganizer.swift:140 | the write succeeds exactly when there is no fault, the parent directory exists (the root is not recorded as a directory) and the URL is no directory; it then replaces exactly the file at the URL |
| Disks.ReadData | SavingFilesDemo/Classes/Tools/FilesOrganizer.swift:157 | the read succeeds exactly when there is no fault and a regular file is at the URL, and then returns its whole content |
| Disks.RemoveItem | SavingFilesDemo/Classes/Tools/FilesOrganizer.swift:87 | removeItem succeeds exactly when there is no fault and something is at the path, and then removes the path and all below it |
| Disks.Prune | SavingFilesDemo/Classes/Tools/FilesOrganizer.swift:87 | what survives a removal is exactly what is not at or under the path, with unchanged contents |
| Disks.CreateDirectoryKeepsWellFormed | SavingFilesDemo/Classes/Tools/FilesOrganizer.swift:108-112 | creating directories keeps the disk well formed |
| Disks.WriteDataKeepsWellFormed | SavingFilesDemo/Classes/Tools/FilesOrganizer.swift:140 | a successful write keeps the disk well formed |
| Disks.PruneKeepsWellFormed | SavingFilesDemo/Classes/Tools/FilesOrganizer.swift:87 | removing a subtree keeps the disk well formed |
| Disks.OccupiedFolderExists | SavingFilesDemo/Classes/Tools/FilesOrganizer.swift:107 | on a well-formed disk, anything under the folder means fileExists holds for the folder |
| Jobs.PrepareDirectory | SavingFilesDemo/Classes/Tools/FilesOrganizer.swift:106-114 | an existing folder is left alone with success; otherwise the folder is created (it exists afterwards, files untouched), or a DirectoryCreationFailed is thrown and only when the folder was missing |
| Jobs.PrepareDirectoryIdempotent | SavingFilesDemo/Classes/Tools/FilesOrganizer.swift:106-114 | a second prepareDirectory after a successful one changes nothing and cannot fail, whatever fault the platform would raise |
| Jobs.RunJob | SavingFilesDemo/Classes/Tools/FilesOrganizer.swift:132-163 | a job answers once with its own ticket and kind; it creates no directory other than the folder and those above it; a successful save reports its URL and stores exactly its data there; a failed save stores nothing (a faulting platform call is taken to have no effect); a load changes nothing and reports the read |
| Jobs.MkdirFailureBlocksWrite | SavingFilesDemo/Classes/Tools/FilesOrganizer.swift:138-144 | whenever prepareDirectory fails, by a platform error or a regular file above the folder, the write is not attempted, the disk is unchanged and DirectoryCreationFailed is reported |
| Jobs.SaveSucceeds | SavingFilesDemo/Classes/Tools/FilesOrganizer.swift:137-145 | without faults, with no regular file above the file, a save succeeds, reports its URL and creates no directory beyond the folder's ancestors |
| Jobs.SaveThenLoad | SavingFilesDemo/Classes/Tools/FilesOrganizer.swift:135-158 | a load without a read fault right after a successful save returns exactly the saved bytes |
| Jobs.LoadMissingFails | SavingFilesDemo/Classes/Tools/FilesOrganizer.swift:155-162 | a load of a path with no regular file reports ReadFailed, never empty data |
| Jobs.Exec | SavingFilesDemo/Classes/Tools/FilesOrganizer.swift:29 | the serial queue makes one handler call per job, never removes a directory, and creates none but the folder and those above it |
| Jobs.ExecFirst | SavingFilesDemo/Classes/Tools/FilesOrganizer.swift:29 | the queue runs its oldest job first, then the rest on the disk it left |
| Jobs.ExecAnswersEachJobOnce | SavingFilesDemo/Classes/Tools/FilesOrganizer.swift:137-162 | the i-th handler call answers the i-th job, with its ticket and of its kind |
| Jobs.RunJobKeepsWellFormed | SavingFilesDemo/Classes/Tools/FilesOrganizer.swift:132-163 | one closure keeps the disk well formed |
| Jobs.ExecKeepsWellFormed | SavingFilesDemo/Classes/Tools/FilesOrganizer.swift:29 | a run of the queue keeps the disk well formed |
| Jobs.ExecAppend | SavingFilesDemo/Classes/Tools/FilesOrganizer.swift:29 | running two queues back to back is running their concatenation |
| Jobs.ExecSnoc | SavingFilesDemo/Classes/Tools/FilesOrganizer.swift:29 | running k+1 jobs is running k, then job k on the disk they leave |
| Jobs.ExecKeepsFile | SavingFilesDemo/Classes/Tools/FilesOrganizer.swift:137-145 | jobs that do not save to a path leave its file, present or absent, as it was |
| Jobs.SaveThenLaterLoad | SavingFilesDemo/Classes/Tools/FilesOrganizer.swift:135-158 | after a successful save, any jobs not saving to that path, then a load without a read fault, the load returns the saved bytes |
| Jobs.LastSaveWins | SavingFilesDemo/Classes/Tools/FilesOrganizer.swift:137-145 | saves B1..Bn to one path without faults all report success and leave the file holding Bn |
| Jobs.OverwriteThenLoad | SavingFilesDemo/Classes/Tools/FilesOrganizer.swift:137-162 | save B1, save B2, load, without faults: both saves report the URL and the load returns exactly B2 |
| Jobs.RemoveFolder | SavingFilesDemo/Classes/Tools/FilesOrganizer.swift:86-88 | removeFolder either removes the folder's subtree or, on an error it swallows, leaves the disk as it was (a faulting removal is taken to have no effect); nothing outside the folder changes |
| Jobs.RemoveFolderClears | SavingFilesDemo/Classes/Tools/FilesOrganizer.swift:86-88 | without a fault, nothing is at or under the folder afterwards, whether or not it existed |
| Jobs.RemoveThenLoadFails | SavingFilesDemo/Classes/Tools/FilesOrganizer.swift:86-88 | after a removeFolder that raises no error, a load of any file under the folder reports ReadFailed |
| Jobs.RemoveThenSaveSucceeds | SavingFilesDemo/Classes/Tools/FilesOrganizer.swift:139 | after a removeFolder that raises no error, a save without faults recreates the folder and succeeds, if no regular file sits above the folder |
| Organizer.SubmitKeepsOrder | SavingFilesDemo/Classes/Tools/FilesOrganizer.swift:137 | enqueuing a job with the next ticket keeps handler calls and queue in ticket order |
| Organizer.AnswerKeepsOrder | SavingFilesDemo/Classes/Tools/FilesOrganizer.swift:155 | answering the oldest job with its ticket keeps handler calls and queue in ticket order |
| Organizer.FilesOrganizer.constructor | SavingFilesDemo/Classes/Tools/FilesOrganizer.swift:35-40 | a new organizer has an empty queue, no handler calls, and the disk the file manager already holds |
| Organizer.FilesOrganizer.SaveFile | SavingFilesDemo/Classes/Tools/FilesOrganizer.swift:53-62 | saveFile enqueues one save of `data` to the file named by (named, pathExtension) and does not touch the disk |
| Organizer.FilesOrganizer.SaveFileInBackground | SavingFilesDemo/Classes/Tools/FilesOrganizer.swift:132-137 | the file URL is resolved at submission; the save is appended to ioQueue with the next ticket |
| Organizer.FilesOrganizer.LoadData | SavingFilesDemo/Classes/Tools/FilesOrganizer.swift:73-81 | loadData enqueues one load of the file named by (named, pathExtension) and does not touch the disk |
| Organizer.FilesOrganizer.LoadDataInBackground | SavingFilesDemo/Classes/Tools/FilesOrganizer.swift:151-155 | the file URL is resolved at submission; the load is appended to ioQueue with the next ticket |
| Organizer.FilesOrganizer.RemoveFolder | SavingFilesDemo/Classes/Tools/FilesOrganizer.swift:86-88 | removeFolder changes the disk as Jobs.RemoveFolder says, at once, leaving queue and handler calls alone |
| Organizer.FilesOrganizer.PrepareDirectory | SavingFilesDemo/Classes/Tools/FilesOrganizer.swift:106-114 | the directories change as Jobs.PrepareDirectory says, and the thrown error is its error |
| Organizer.FilesOrganizer.Step | SavingFilesDemo/Classes/Tools/FilesOrganizer.swift:137-162 | the oldest closure leaves the queue, the disk becomes RunJob's, and exactly its handler call is appended; the class invariant is kept |
| Organizer.FilesOrganizer.RunQueue | SavingFilesDemo/Classes/Tools/FilesOrganizer.swift:29 | draining the queue leaves it empty, the disk as Exec leaves it, and Exec's handler calls appended in order |
| Scenarios.SaveThenLoadImage | SavingFilesDemo/Classes/ContentView/ContentViewModel.swift:15-36 | saveImage then loadImage without faults: the save reports Image.jpeg's URL, then the load returns the saved bytes |
| Scenarios.OverwriteThenLoadImage | SavingFilesDemo/Classes/ContentView/ContentViewModel.swift:15-36 | two saveImage calls then loadImage: both saves report the URL and the load returns the second image |
| Scenarios.RemoveAllThenLoad | SavingFilesDemo/Classes/ContentView/ContentViewModel.swift:38-40 | a removeAll that raises no error, then loadImage: the load reports ReadFailed, whatever was stored before |
| Scenarios.RemoveAllThenSave | SavingFilesDemo/Classes/ContentView/ContentViewModel.swift:38-40 | a removeAll that raises no error, then saveImage, with no regular file above the folder: the save recreates the folder, reports the URL, and the file holds the data |

## Left out

- Threads: `DispatchQueue` is not modelled. The serial queue is a FIFO sequence drained by `Step`. A caller may call `RemoveFolder` between any two steps, but not in the middle of one closure: a closure's `prepareDirectory` and write run together, so a removal racing a closure halfway through is not modelled.
- The `callbackQueue` hop, and the `.main` default: a handler call is an append to `delivered` at the moment the closure runs, so handler calls keep submission order.
- The queue's label: it is built from a UUID and has no effect on behaviour.
- The concrete error types of `FileManager` and `Data`. They are four error constants, and every platform failure is a `fault` flag given to each call.
- URL normalisation by `appendingPathComponent` and `appendingPathExtension`: slashes inside names, percent-encoding, and an empty extension (which adds no ".") are not modelled. The leaf name is always fileName + "." + pathExtension.
- Paths.FileURLInjective: stated only for extensions without ".", because "a.b" + "c" and "a" + "b.c" give the same file name.
- `FileManager+Helpers.swift` (the caches-directory lookup): the caches root is a parameter.
- `ContentView.swift` and the printing in `ContentViewModel.swift`: UI and logging. The view model appears only as the driver of the scenarios.
- Other processes and other organizer instances writing the same disk: each class instance holds its own copy of the disk.
- Jobs.Exec: its own contract gives only the number of handler calls and bounds on the directories. What each call answers is in Jobs.ExecAnswersEachJobOnce.
- Partial effects of a failing platform call: a call that raises an error is modelled as changing nothing. On the platform, these calls can leave partial effects:
  - `Data.write(to:)` with default options is not atomic, so a failed write can leave the file truncated.
  - `removeItem` can fail partway through a tree after deleting part of it.
  - `createDirectory` with intermediate directories can fail after creating some of them.
- Jobs.RunJob: "a failed save stores nothing" holds only under the no-partial-effect reading above, because a write that fails partway can leave a truncated file.
- Jobs.RemoveFolder: "leaves the disk as it was" on an error holds only under the no-partial-effect reading above, because a removal can fail after deleting part of the tree.
- Case-insensitive and normalization-insensitive file systems. Path components are compared as exact character sequences. The platform's default volumes may treat as one name two names that differ only in case ("Image" and "image") or in Unicode normalization (NFC and NFD). On such a volume the following claims do not carry over to the source for names that differ only in these ways:
  - Paths.FileURLInjective: "distinct files" fails.
  - Paths.FoldersDisjoint: removing "Images" would also remove "images".
  - Jobs.ExecKeepsFile: a save to a case variant reaches the same file.
  - Jobs.SaveThenLaterLoad: its "no job saves to that path" hypothesis does not exclude a case variant.
- Folder and file names that are not a single plain path component. These are the empty name, "." and "..", or a name with "/". Foundation's `appendingPathComponent` does not add a component for an empty name. So an organizer with folder name "" works on `<caches>/FilesOrganizer` itself, which holds every other organizer's folder, and its removeFolder deletes them all. The model instead adds "" as a component of its own, so Paths.FoldersDisjoint holds only for names that are single plain components. The same applies to an empty fileName in Paths.FileURL.
