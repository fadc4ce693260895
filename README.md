# squashfs extraction, modelled in Dafny

This project models the core of `squashfs`, a Go binding to a squashfs
archive library, and of its `squashtool` command. It covers three parts.

- **The archive side** (`squash.go`):
  - `getFileInfo`, which turns an inode into a `FileInfo` carrying Go mode
    bits;
  - the path normalisation in `Open`;
  - `SquashFs.Lstat`;
  - the `filepath.Walk`-style walker `SquashFs.Walk` and `walk`;
  - the `File` cursor: `Size`, `Seek`, `Read` and `Readdirnames`.
- **The library extractor** (`extract.go`):
  - the three `FsOps` implementations (`GoFsOps`, `FakerootOps`, and the
    library-symbol operations `LibcFsOps`);
  - the choice among them in `Extract`;
  - the `extract` visitor with its type dispatch, ownership and permission
    handling;
  - `prepWrite`, `doCreate`, the per-type extractors, `applyWhiteOut`;
  - the deferred cleanups that restore directory modes.
- **The command's own extractor** (`squashtool/main.go`): an older copy of
  the library extractor that has drifted from it. It has plain `chown`,
  `chmod` and `mknod` functions, no cleanup list, and different `doCreate`
  and whiteout logic.

Each part is written twice:
- as functions, in `Squash`, `ExtractSpec` and `ToolSpec`;
- as imperative Dafny: the `SquashFile.File` class, the
  `Extract.Extractor` class, and the `ToolOps` methods with the
  `Tool.ToolExtractor` class. Every method is proved equal to its function,
  and the walk loops are proved against `Squash.WalkAt`/`WalkNames`.

Lemmas in `WalkFacts`, `SquashFile`, `ExtractFacts`, `ToolFacts` and
`Findings` then state what the source promises about these functions.

The target filesystem is `FsModel`:
- a map from paths to nodes;
- a log of every state-changing call;
- a fault oracle (`Env.fails`) that lets any system call fail without
  changing anything.

The archive is an abstract tree: a map from paths to inodes, each directory
holding its child names in reader order. Another component,
`Archive.unlistable`, lists the directories whose listing fails.

A path is a sequence of components: `filepath.Join` is concatenation, and
`filepath.Dir` drops the last component. So `/a/b` and `/a/b/` are one path;
only `Open` works on the name as a string, with `TrimSlash`.

Write access (`unix.Access(dir, W_OK)`, extract.go:342 and
squashtool/main.go:296) follows access(2): root always passes; anyone else
needs the owner, group or other write bit, whichever class they fall in.
A path can also be denied outright (`Env.denied`), as on a read-only mount.
`os.Chown`, `os.Chmod` and the `chmod` command follow symbolic links: a
link's target is resolved, up to 40 links deep, before it is re-owned or
its permissions are set, and a dangling link is an error. `os.Lchown` and
`chown --no-dereference` change the link itself.

Two behaviours of the code are easy to miss:
- The extended symlink inode type gets no symlink type bit in
  `getFileInfo` (squash.go:429-431). An extended symlink is therefore
  classified and extracted as a regular file (`ExtractSpec.ClassifyInode`).
- The library's `doCreate` drops `prepWrite`'s error
  (extract.go:388-400); `ExtractFacts.DoCreatePrepFailed` states this.

## Definitions

The functions that define the behaviour, whose properties the lemmas and
methods in the table below state:

- `Squash.WalkAt` (`walk`, squash.go:101-137), `Squash.WalkNames` (its loop, squash.go:120-135), `Squash.Walk` (squash.go:84-99), `Squash.List` (the listing, squash.go:107-118).
- `SquashFile.ReadNames` (the loop of `Readdirnames`, squash.go:505-517).
- `ExtractSpec.PrepWrite` (extract.go:329-383), `GrantWrite` (extract.go:342-357), `ClearTarget` (extract.go:359-382), `Create` (the creators, extract.go:227-268), `DoCreate` (extract.go:386-401), `ExtractRegular` (extract.go:270-299), `OpsMknod` (extract.go:54-100), `WriteRegular` (the open, copy and size check of `extractRegular`, extract.go:275-289), `PermsMode` (extract.go:202-209), `IsWhiteOut` (extract.go:407-416), `Classify` (extract.go:152-185), `Materialise` (extract.go:152-189), `SetPerms` (extract.go:201-222), `Finish` (extract.go:191-222), `ExtractEntry` (extract.go:138-225), `Drain` (extract.go:122-129), `Run` (extract.go:103-136).
- `ToolSpec.ToolGrantWrite` (squashtool/main.go:296-311), `ToolPrepWrite` (squashtool/main.go:283-337), `ToolCreate` (squashtool/main.go:164-205), `ToolDoCreate` (squashtool/main.go:264-279), `ToolExtractRegular` (squashtool/main.go:207-236), `ToolMaterialise` (squashtool/main.go:95-128), `ToolFinish` (squashtool/main.go:134-152), `ToolEntry` (squashtool/main.go:81-153), `ToolRun` (squashtool/main.go:76-79).

## Model

| member | source | states |
|---|---|---|
| Squash.GetFileInfo | squash.go:388-461 | The info carries the name and the owner ids. Its permission bits are the inode's. Its size is the type's size field for directories, files and symlinks, and 0 otherwise. Rdev is the device number for device inodes only. The symlink target is set for symlink inodes only. |
| Squash.TrimSlash | squash.go:292-294 | `/` is kept. One trailing slash is dropped from any other name, and a name without one is unchanged. |
| Squash.Lstat | squash.go:75-81 | Succeeds exactly when the archive holds the path; otherwise the error is `ErrNotExist`. |
| WalkFacts.WalkAtShape | squash.go:101-137 | Every visit of `walk` is of the path itself or below it. Only the last visit may abort. An aborting visit's result is `walk`'s result. When nothing aborted and no file returned `SkipDir`, every directory whose listing was read had all of its children visited. |
| WalkFacts.WalkNamesShape | squash.go:120-135 | The loop over a directory's names visits only paths below those names. An aborting visit ends it, and its result is the loop's. When nothing aborted and no file returned `SkipDir`, the loop returns nil and every remaining name's path is visited, with every listed directory below closed the same way. |
| WalkFacts.WalkResult | squash.go:84-99 | A missing root yields `ErrNotExist` with no visit. Otherwise the root is visited first and every visit is at or below it. An aborting visit is the last and gives the walk's result. `SkipDir` never escapes the walk. When the walk returns nil and no file returned `SkipDir`, every directory whose listing was read had all of its children visited. |
| WalkFacts.NonDirVisitedOnce | squash.go:102-104 | A non-directory is visited exactly once, with no error, and its walk returns the visitor's result. |
| WalkFacts.DirStopsOnListErrorOrResult | squash.go:107-118 | A directory whose listing failed, or whose visit returned non-nil, is visited once with the listing error and its children are not walked. |
| WalkFacts.WalkAtCloses | squash.go:101-137 | The first visit is of the path. Unless a visit aborted or a file returned `SkipDir`, every directory whose listing the walk read had every one of its children visited. |
| WalkFacts.WalkNamesCloses | squash.go:120-135 | Unless a visit aborted or a file returned `SkipDir`, the loop returns nil, visits the path of every remaining name and closes every directory it listed. |
| WalkFacts.WalkNamesGoesOn | squash.go:120-134 | After an `Lstat` failure answered with nil or `SkipDir`, or a child walk returning nil (or `SkipDir` for a directory), the rest of the loop is exactly the walk of the remaining names. |
| WalkFacts.WalkAtPreOrder | squash.go:101-137 | Pre-order: every visit after the first is of a path whose parent was visited before it. |
| WalkFacts.WalkNamesPreOrder | squash.go:120-135 | Each visit in the loop over a directory's names has its parent visited earlier, or that parent is the directory itself. |
| WalkFacts.WalkAtSkipSound | squash.go:101-137 | Nothing below a directory is visited after its visit returned `SkipDir`. After a file's `SkipDir` no sibling is visited. Nothing follows below an entry reported with an error. Nothing else is skipped: without an abort or a file's `SkipDir`, every listed directory had all of its children visited. |
| WalkFacts.WalkNamesSkipSound | squash.go:120-135 | The same skip discipline holds for the loop over a directory's names. Without an abort or a file's `SkipDir`, every remaining name is visited: a directory's `SkipDir` and an `Lstat` error answered with nil or `SkipDir` let the loop go on. |
| WalkFacts.WalkSkipSound | squash.go:84-137 | The same skip discipline holds for the whole walk from the root. Without an abort or a file's `SkipDir`, every listed directory had all of its children visited. |
| SquashFile.SeekResult | squash.go:522-545 | A target below 0 or past the size is refused, keeping the old position. Any other target becomes the position. |
| SquashFile.SeekWhenceAgree | squash.go:525-534 | Seeking from the start, the current position or the end reaches the same place whenever the offsets agree. |
| SquashFile.ReadResult | squash.go:330-341 | At the end, `(0, EOF)`. A negative reader count is returned with an error and the position kept. Otherwise the position advances by the count. |
| SquashFile.ReadKeepsCursorInFile | squash.go:330-341 | A read never moves the cursor back. A reader returning no more than what is left keeps the cursor within the file. |
| SquashFile.ReadNamesEntry | squash.go:505-517 | Proof helper: each entry the reader yields is appended to the names and the loop goes on. |
| SquashFile.ReadAllNames | squash.go:505-518 | With `n <= 0`, all remaining names are returned, with a nil error unless the reader failed. |
| SquashFile.ReadSomeNames | squash.go:505-518 | With `n > 0`, the first `n` names are returned when the directory has that many. Otherwise all of them are returned with `EOF` or the reader's error. |
| SquashFile.File.constructor | squash.go:295-299 | A new file has position 0, size unknown, and no reader opened. |
| SquashFile.File.Size | squash.go:345-354 | Returns the inode's size, and remembers it after the first call. |
| SquashFile.File.Seek | squash.go:522-545 | The position and result are those of `SeekResult`. |
| SquashFile.File.Read | squash.go:323-342 | A failed reader copy gives `(0, error)`. Otherwise the position and result are those of `ReadResult`. |
| SquashFile.File.Readdirnames | squash.go:496-519 | A failed reader open gives no names and an error. Otherwise the names, error and reader position are those of the loop `ReadNames`. |
| SquashFile.File.ReadEntries | squash.go:505-517 | The loop on an opened reader leaves the names, error and reader position of `ReadNames` from the old position, and changes nothing else. |
| SquashFile.Open | squash.go:290-301 | The file is opened on the trimmed name. A name the lookup cannot find gives `ErrNotExist`. |
| ExtractSpec.OpsChmod | extract.go:46-67 | The chmod issued: the system call for the Go and library operations, the `chmod` command under fakeroot. On success the node the path's symbolic links lead to gets permission bits `mode & 0777` (the path's own node when it is not a link), and nothing changes on error. |
| ExtractSpec.OpsChown | extract.go:50-71 | The Go and library operations issue `os.Chown`; fakeroot uses `chown --no-dereference`. Nothing changes on error. |
| ExtractFacts.OpsChownOnSymlink | extract.go:50-71 | On a symbolic link, the Go and library operations fail with "does not exist" and change nothing when it dangles. When it points to an existing file, they re-own that file and leave the link alone. Fakeroot re-owns the link itself. |
| ExtractFacts.OpsChmodOnSymlink | extract.go:46-67 | On a symbolic link, every mechanism fails with "does not exist" and changes nothing when it dangles. When it points to an existing file, that file gets the permission bits and the link is left alone. |
| ExtractSpec.MajorMinorSplit | extract.go:77 | Major and minor recombine to the device number, and the minor is below 256. |
| ExtractSpec.FakerootMknod | extract.go:73-100 | A mode that is neither char, block nor fifo gives the not-a-device error with no call. Otherwise the `mknod` command is issued with the permission bits, the type letter and the major/minor pair (none for a fifo). |
| ExtractSpec.FakerootMknodUnfold | extract.go:92-99 | Proof helper: after a failed command, the error is `ErrExist` when the path is then found, and the command's own error otherwise. |
| ExtractSpec.FakerootMknodExists | extract.go:93-96 | A failed `mknod` whose path exists afterwards reports `ErrExist`. |
| ExtractSpec.SelectOps | extract.go:106-117 | A preset is kept. Without one, fakeroot gives the library operations, or an error when the library cannot be loaded, and otherwise the Go operations. |
| ExtractSpec.ClassifyTotal | extract.go:155-185 | Every mode takes one of the tested branches, so "could not determine file type" is unreachable. |
| ExtractSpec.ClassifyInode | squash.go:396-450 | The branch each inode type takes. An extended symlink takes the regular-file branch. |
| ExtractSpec.ClearTargetKeepsCleanup | extract.go:359-382 | Proof helper: clearing the target passes the cleanup set up before it through unchanged. |
| ExtractSpec.ExtractDir | extract.go:305-316 | `Mkdir` with 0755. An existing path is success; other errors are returned. |
| ExtractSpec.ApplyWhiteOut | extract.go:318-325 | An existing path is removed recursively; an absent path is left alone. |
| ExtractFacts.DrainLog | extract.go:122-129 | Running the cleanups appends exactly their calls, in order. |
| ExtractFacts.ExtractOutcome | extract.go:103-136 | Without operations, the selection error and no walk. Otherwise the chosen operations, the walk's log followed by every cleanup exactly once, and the walk's error as the result. |
| ExtractFacts.OpsChosenOnce | extract.go:106-117 | Preset operations are never replaced. |
| ExtractFacts.ClearTargetOutcome | extract.go:359-382 | On success the target is absent, or is a directory kept for a directory, and the cleanup is passed through. |
| ExtractFacts.PrepWriteBadParent | extract.go:332-340 | A missing parent, or one that is not a directory, fails with a no-op cleanup and no call. |
| ExtractFacts.PrepWriteOutcome | extract.go:329-383 | On success the target is clear, or a directory kept for a directory, and the parent is a writable directory. |
| ExtractFacts.PrepWriteParentOk | extract.go:338-357 | Success implies the parent is a directory. |
| ExtractFacts.PrepWriteWritable | extract.go:342 | With a writable parent, no chmod and a no-op cleanup. |
| ExtractFacts.PrepWriteGranted | extract.go:342-357 | With a non-writable parent, chmod 0777 first. On success the cleanup restores the parent's old mode. |
| ExtractFacts.PrepWriteGrantRefused | extract.go:350-355 | When the parent stays unwritable after the grant, the old mode is set back at once and the call fails with a no-op cleanup. |
| ExtractFacts.DoCreatePrepFailed | extract.go:386-401 | When `prepWrite` fails, the creator is skipped and the result is the cleanup's, not `prepWrite`'s error. |
| ExtractFacts.DoCreatePrecedence | extract.go:386-401 | When `prepWrite` succeeds, the creator runs, then the cleanup. A creator error wins over a cleanup error. |
| ExtractFacts.CleanupKeepsOthers | extract.go:344-346 | Restoring a mode changes no node except the one the restored path leads to. |
| ExtractFacts.ExtractRegularOutcome | extract.go:270-299 | Without an error the target is a regular file, and after a copy that went through it starts with the entry's bytes, as many as recorded. The open and copy happen only after a successful `prepWrite`, and the cleanup always runs last. The result is the `prepWrite` error, else the open error, else the size mismatch after a copy that went through, else the cleanup's error. |
| ExtractFacts.ExtractRegularIgnoresCopyError | extract.go:278-283 | A failed copy is not reported. |
| ExtractFacts.VisitErrorPassedThrough | extract.go:139-142 | A walk error is returned as is, with nothing done. |
| ExtractFacts.WhiteOutHandling | extract.go:144-150 | A whiteout is skipped without `WhiteOuts` and applied with it. |
| ExtractFacts.GatedEntriesSkipped | extract.go:159-178 | Sockets without `Sockets`, and devices without `Devs`, are skipped with nothing done. |
| ExtractFacts.MaterialiseFirst | extract.go:187-189 | A failed type-specific step ends the visit before ownership or permissions. |
| ExtractFacts.FinishCalls | extract.go:191-222 | A chown only with `Owners`. A chmod only with `Perms`, never for a symlink, and only after a successful chown. A directory lacking both owner read and write is chmod'ed with them added, and a restore cleanup is appended. |
| ExtractFacts.SymlinkNeverChmodded | extract.go:203-204 | A symlink gets no chmod and no cleanup. |
| ExtractFacts.VisitCleanups | extract.go:205-215 | A visit appends at most one cleanup: the restore of a directory extracted with added read and write. |
| Extract.Extractor.constructor | extract.go:24-36 | The options, archive and target are stored, with no cleanups. |
| Extract.Extractor.Chmod | extract.go:46-67 | The filesystem is updated as `OpsChmod` says, so a symbolic link at the path is followed. |
| Extract.Extractor.Chown | extract.go:50-71 | The filesystem is updated as `OpsChown` says. |
| Extract.Extractor.Mknod | extract.go:54-100 | The filesystem is updated as `OpsMknod` says. |
| Extract.Extractor.FakerootMknod | extract.go:73-100 | The filesystem is updated as `FakerootMknod` says. |
| Extract.Extractor.RunCleanup | extract.go:211-214 | Runs a cleanup as `RunCleanup` says. |
| Extract.Extractor.PrepWrite | extract.go:329-383 | The filesystem, cleanup and error are those of `PrepWrite`. |
| Extract.Extractor.GrantWrite | extract.go:342-357 | The filesystem, cleanup and error are those of `GrantWrite`. |
| Extract.Extractor.ClearTarget | extract.go:359-382 | The filesystem and error are those of `ClearTarget`. |
| Extract.Extractor.Create | extract.go:227-268 | Runs the creator as `Create` says. |
| Extract.Extractor.DoCreate | extract.go:386-401 | The filesystem and error are those of `DoCreate`. |
| Extract.Extractor.ExtractRegular | extract.go:270-299 | The filesystem and error are those of `ExtractRegular`. |
| Extract.Extractor.ExtractDir | extract.go:305-316 | The filesystem and error are those of `ExtractDir`. |
| Extract.Extractor.ApplyWhiteOut | extract.go:318-325 | The filesystem and error are those of `ApplyWhiteOut`. |
| Extract.Extractor.Dispatch | extract.go:152-185 | The type dispatch equals `Materialise` for the entry's class. |
| Extract.Extractor.Finish | extract.go:191-222 | The state and error are those of `Finish`. |
| Extract.Extractor.SetPerms | extract.go:201-222 | The state and error are those of `SetPerms`. |
| Extract.Extractor.Visit | extract.go:138-225 | The state and error are those of the visitor `ExtractEntry`. |
| Extract.Extractor.Walk | squash.go:101-137 | The recursive walk leaves the state and result of `WalkAt` with the extract visitor. |
| Extract.Extractor.Extract | extract.go:103-136 | The operations, filesystem, cleanups and result are those of `Run`. |
| Extract.SetPermsUnfold | extract.go:216-221 | Proof helper: the chmod of `SetPerms` is the last step of its state. |
| ToolSpec.ToolChmod | squashtool/main.go:360-366 | A symlink mode does nothing. Otherwise `os.Chmod` with the permission bits, set on the node the path's symbolic links lead to, and nothing changes on error. |
| ToolSpec.ToolChown | squashtool/main.go:343-358 | Issues `os.Lchown`, or `chown --no-dereference` under fakeroot. A link is never followed. |
| ToolFacts.ToolChownOnSymlink | squashtool/main.go:343-358 | On a symbolic link, the tool's `chown` re-owns the link itself and never its target. |
| ToolFacts.ToolChmodOnSymlink | squashtool/main.go:360-366 | On a symbolic link, a symlink mode does nothing. Any other mode fails with "does not exist" on a dangling link, and otherwise sets the target's permission bits and leaves the link alone. |
| ToolSpec.ToolMknod | squashtool/main.go:368-400 | Outside fakeroot, the system call with 0644 and the device number. Under fakeroot, exactly the library's fakeroot `mknod`. |
| ToolFacts.ToolChmodIsGo | squashtool/main.go:360-366 | For a non-symlink mode, the same as the library's Go chmod. |
| ToolFacts.ToolGrantWriteIsGo | squashtool/main.go:296-311 | The write grant is the library's with Go operations. |
| ToolFacts.ToolPrepWriteIsGo | squashtool/main.go:283-337 | For a parent without the symlink bit, `prepWrite` is the library's with Go operations. |
| ToolFacts.PrepWriteCleanup | squashtool/main.go:284-310 | The cleanup is a no-op, or the restore of the parent's directory mode. |
| ToolFacts.ToolExtractRegularIsGo | squashtool/main.go:207-236 | `extractRegular` is the library's with Go operations. |
| ToolFacts.ToolExtractRegularOutcome | squashtool/main.go:207-236 | The same as the library: a regular file with the entry's bytes on success. The errors come in the same order of precedence: `prepWrite`, open, size mismatch, then the cleanup. A copy error is ignored. |
| ToolFacts.ToolDoCreateBranches | squashtool/main.go:264-279 | The creator runs exactly when `prepWrite` failed. After a successful `prepWrite`, nothing is created and the result is the cleanup's. |
| ToolFacts.ToolDoCreateSkipsSymlink | squashtool/main.go:266-269 | Concrete case: in an empty writable directory the tool creates no symlink and reports success. The library creates the link. |
| ToolFacts.DoCreateCreates | extract.go:386-401 | The library's `doCreate`, on success after a successful `prepWrite`, leaves a node of the right kind at the path. |
| ToolFacts.CreateMakes | extract.go:227-268 | A successful creator leaves a node of its kind at the path. |
| ToolFacts.WhiteOutFlagInverted | squashtool/main.go:87-93 | With `WhiteOuts` set, the tool skips whiteouts that the library applies. Without it, the tool applies those the library skips. |
| ToolFacts.ToolWhiteOutHandling | squashtool/main.go:87-93 | A whiteout is skipped with `WhiteOuts` and applied without it. |
| ToolFacts.ToolFinishCalls | squashtool/main.go:134-152 | A chown only with `Owners`. A chmod of the recorded mode only with `Perms`, and only after a successful chown. |
| ToolFacts.ToolDirKeepsRecordedPerms | squashtool/main.go:144-150 | A directory lacking owner read and write is chmod'ed to its recorded, unwritable mode, without the library's added read and write. The mode lands on the node the path leads to. |
| ToolFacts.ToolVisitErrorPassedThrough | squashtool/main.go:82-85 | A walk error is returned as is, with nothing done. |
| ToolFacts.ToolRunIsWalk | squashtool/main.go:76-79 | The tool's `Extract` is the walk alone: no operation selection and no cleanups. |
| ToolOps.Chmod | squashtool/main.go:360-366 | The filesystem and error are those of `ToolChmod`, so a symbolic link at the path is followed. |
| ToolOps.Chown | squashtool/main.go:343-358 | The filesystem and error are those of `ToolChown`. |
| ToolOps.Mknod | squashtool/main.go:368-400 | The filesystem and error are those of `ToolMknod`. |
| ToolOps.RunCleanup | squashtool/main.go:298-300 | Runs a cleanup as `ToolRunCleanup` says. |
| ToolOps.PrepWrite | squashtool/main.go:283-337 | The filesystem, cleanup and error are those of `ToolPrepWrite`. |
| ToolOps.GrantWrite | squashtool/main.go:296-311 | The filesystem, cleanup and error are those of `ToolGrantWrite`. |
| ToolOps.ClearTarget | squashtool/main.go:313-336 | The filesystem and error are those of `ClearTarget`. |
| ToolOps.Create | squashtool/main.go:164-205 | Runs the creator as `ToolCreate` says. |
| ToolOps.DoCreate | squashtool/main.go:264-279 | The filesystem and error are those of `ToolDoCreate`. |
| Tool.ToolExtractor.constructor | squashtool/main.go:63-73 | The options, archive and target are stored. |
| Tool.ToolExtractor.ExtractRegular | squashtool/main.go:207-236 | The filesystem and error are those of `ToolExtractRegular`. |
| Tool.ToolExtractor.ExtractDir | squashtool/main.go:242-253 | The filesystem and error are those of `ExtractDir`. |
| Tool.ToolExtractor.ApplyWhiteOut | squashtool/main.go:255-261 | The filesystem and error are those of `ApplyWhiteOut`. |
| Tool.ToolExtractor.Dispatch | squashtool/main.go:95-128 | The type dispatch equals `ToolMaterialise`. |
| Tool.ToolExtractor.Finish | squashtool/main.go:134-152 | The filesystem and error are those of `ToolFinish`. |
| Tool.ToolExtractor.Visit | squashtool/main.go:81-153 | The filesystem and error are those of the visitor `ToolEntry`. |
| Tool.ToolExtractor.Walk | squash.go:101-137 | The recursive walk leaves the filesystem and result of `WalkAt` with the tool's visitor. |
| Tool.ToolExtractor.Extract | squashtool/main.go:76-79 | The filesystem and result are those of `ToolRun`. |
| Findings.FirstCleanupErrorFound | extract.go:122-129 | The first cleanup error is nil exactly when no cleanup fails. Otherwise it is the error of a failing cleanup preceded only by successful ones. |
| Findings.RunIntendedReportsCleanups | extract.go:122-135 | The corrected `Extract` does everything the written one does. After a walk without error, it returns nil exactly when every cleanup succeeds. |
| Findings.RunDropsCleanupError | extract.go:125-127 | As written, a failing cleanup after a clean walk still yields nil, where the corrected `Extract` reports it. |

## Left out

- The archive library's C calls (opening the image, the directory and data readers, the id table) are not modelled. Their answers are parameters: the archive map, `unlistable`, `rlen`, `copyOk`, `openCode` and the directory-reader steps.
- The emulation library's symbol loading (libcfsops.go) is reduced to `Env.libcFound`. Its operations are the system calls, with `mknod` tagged as issued through the library.
- Logging and the `fmt.Printf` in `Extract` are not modelled; they have no effect on results.
- The command-line wiring (`listMain`, `extractMain`, `testMain`, `main`, `printWalker`, `runCmd`) is not modelled: it is argument parsing and output.
- `SquashFs.Stat` and `File.Stat` (squash.go:66-72, 548-560) are not modelled: the walker and the extractors use only `Lstat`.
- `File.Readdir`, `Close`, `Fd`, `Name`, `Sync` and `Lstat` are not modelled, nor `FileInfo.String`, `ModTime` and `Sys`. They are accessors or not implemented.
- The root `Lstat` failure branch of `SquashFs.Walk` (squash.go:89-91) is not modelled: `getFileInfo` has no failing path here, so the branch cannot be taken.
- Listing errors are abstracted to one error value; the numeric reader codes in the messages are not kept.
- `Open` returns a half-initialised `File` along with `ErrNotExist`. The model returns only the error.
- `File.Read` reads from the archive's shared data reader, not its own copy. The bytes read are abstracted away and only the position bookkeeping is kept.
- `io.Copy` is reduced to the bytes written. Closing the written file, and closing the listener that `net.Listen` opens for a socket, are not modelled.
- The process umask, and the target filesystem's following of symlinks in `os.Stat`, are not modelled. Nodes keep only the 0777 permission bits, so setuid, setgid and sticky bits are not modelled.
- Error messages are abstracted to error constructors carrying the path.
- SquashFile.File.Read: no buffer is modelled. So the panic on an empty buffer (`&b[0]`, squash.go:333-334, reached whenever the position is before the end) is not captured, and the count the reader returns is not bounded by the buffer's length.
- Write access ignores supplementary groups, ACLs and the effective/real id distinction of access(2): only the owner, the primary group and others are told apart.
- Symbolic links among the intermediate components of a path are not followed by any call on the target filesystem: not by create, mkdir, open, remove, `RemoveAll`, `Lstat`, chmod or chown. For example, `os.Mkdir("out/lib/sub")` through a link `out/lib` fails with "does not exist" in the model; the system would create the directory below the link's target.
- ExtractSpec.OpsChown: a link's target is resolved lexically from the link's own directory, and `..` drops a component without looking at the filesystem. The same holds for `ExtractSpec.OpsChmod` and `ToolSpec.ToolChmod`.
- ExtractSpec.SelectOps: only the three built-in `FsOps` implementations are modelled (`OpsKind`). A caller can preset any implementation in the public `Ops` field (extract.go:34), but custom implementations are not modelled.
- `int64` overflow in `Seek` is not modelled: positions and sizes are unbounded integers.

## Findings

| source | as written | input that shows it | evidently intended | confidence | as-written member | corrected member |
|---|---|---|---|---|---|---|
| squashtool/main.go:267 | `doCreate` calls the creator only when `prepWrite` returned an error | a symlink `a` extracted into an empty writable directory: `prepWrite` succeeds, nothing is created, and the result is nil | create when `prepWrite` succeeded, as in extract.go:389 | high, not executed | ToolFacts.ToolDoCreateSkipsSymlink | ToolFacts.DoCreateCreates |
| squashtool/main.go:88 | a whiteout is skipped when `WhiteOuts` is set and applied when it is not | any whiteout entry, with the option set or not | apply whiteouts exactly when asked, as the option's help text (squashtool/main.go:589-593) and extract.go:145 say | high, not executed | ToolFacts.WhiteOutFlagInverted | ExtractFacts.WhiteOutHandling |
| extract.go:125 | the cleanup error is recorded only when one is already recorded, so it stays nil | a walk without error after which one restore chmod fails: `Extract` returns nil | report the first cleanup error when the walk succeeded | high, not executed | Findings.RunDropsCleanupError | Findings.RunIntendedReportsCleanups |
