# dotman core in Dafny

dotman manages dotfiles. It copies a file or directory from the user's home into
`<dotmanDir>/data/<path relative to home>`, verifies the copy, replaces the original by
a symlink to the copy, and stages the copy with git. Every operation writes a journal
entry. The entry is a JSON file in the partition `current`, `completed` or `failed` of
`<dotmanDir>/journal`, and it holds a step list. Each step goes `pending → running →
completed | failed`.

This project models that core as pure functions and small methods over immutable data:

- `mockfs.dfy` models the map-backed file system of internal/fs/mock_fs.go. The journal
  and the commands are modelled against it.
- `billy.dfy` models the `billyFile` cursor (write, read, seek, truncate, close) and
  `Rename` of internal/fs/billy_fs.go.
- `entries.dfy`, `codec.dfy` and `journal.dfy` model the journal's data and its
  `JournalManager` (internal/journal/journal.go). `journal_props.dfy` proves a
  well-formedness invariant of the journal directory that the manager keeps.
- `lifecycle.dfy` and `lifecycle_props.dfy` model the step and entry calls that take
  their journal from the context, and the step protocol they follow.
- `copy_verify.dfy` and `add_cmd.dfy` model the `add` command (cmd/add.go). This covers
  each phase, what it records in the journal, and the copy and verification helpers.
- `journal_cmd.dfy` models the `journal` listing command (cmd/journal.go).
- `status_cmd.dfy` models the `status` command's tree and drawing (cmd/status.go).
- `paths.dfy` and `strorder.dfy` hold Go's `strings`/`path/filepath` helpers and the
  byte-wise string order that the above rely on.
- `wrappers.dfy` holds `Option` and `Result`.

These stand in for the outside world:

- The clock is a `now: nat` argument.
- git is an oracle argument: `GitOutcome` for `add`, and the status list for `status`.
- The configuration is the `dotmanDir` argument.

A Go error return becomes a `Result`, or an `err: Option<...>` beside the new state. A
step handle (`*Step`) is the step's index in the entry.

## Model

| member | source | states |
|---|---|---|
| MockFs.NewMockFileSystem | internal/fs/mock_fs.go:21-30 | The new file system holds exactly the given files; its home directory is the default one. |
| MockFs.MkdirAll | internal/fs/mock_fs.go:45-51 | Exactly one key, `path`, becomes an empty directory with the given permission. No parent is created and every other key is unchanged. |
| MockFs.WriteFile | internal/fs/mock_fs.go:54-60 | Reading `name` back gives the data written, with its mode. Every other name reads as before and the key set grows by `name` only. |
| MockFs.ReadFile | internal/fs/mock_fs.go:63-68 | Succeeds exactly for a present key and returns its data; a missing key is `ErrNotExist`. |
| MockFs.Remove | internal/fs/mock_fs.go:71-74 | Exactly the key is deleted; other keys keep their records. Removing an absent name changes nothing and is not an error. |
| MockFs.RemoveAll | internal/fs/mock_fs.go:77-85 | As written: a key survives iff it is neither `path` nor an immediate child of `path`. Survivors keep their records. |
| MockFs.RemoveTree | internal/fs/mock_fs.go:76-85 | Corrected: a key survives iff it is not at or below `path` at any depth. Survivors keep their records. |
| MockFs.RemoveAllKeepsGrandchildren | internal/fs/mock_fs.go:77-85 | "d/x/y" survives `RemoveAll("d")` but not `RemoveTree("d")`. |
| MockFs.Symlink | internal/fs/mock_fs.go:88-95 | Succeeds iff `oldname` exists; a missing one is `ErrNotExist`. `newname` then holds the very record of `oldname`, and nothing else changes. |
| MockFs.Rel | internal/fs/mock_fs.go:109-123 | Succeeds iff the target lies lexically within the base, with `filepath.Rel`'s own result, which never climbs out with "..". An error from `filepath.Rel` is passed on; an escaping result is `ErrInvalid`. |
| MockFs.RelContainment | internal/fs/mock_fs.go:109-123 | `filepath.Rel` gives a result that does not escape exactly when the target is within the base. |
| MockFs.HomeRelative | internal/fs/mock_fs.go:98-123 | The home directory is the configured one and `Abs` returns its argument, so resolving a path against the home succeeds exactly when the path lies within it, with `filepath.Rel`'s result. |
| MockFs.Stat | internal/fs/mock_fs.go:139-147 | Succeeds iff the key exists, reporting its name, its size as the data length, and its mode; otherwise `ErrNotExist`. |
| MockFs.Open | internal/fs/mock_fs.go:150-161 | Succeeds iff the key exists; the handle holds its data and mode at offset 0. |
| MockFs.FileStat | internal/fs/mock_fs.go:173-181 | A handle's info reports its name, data length and mode. |
| MockFs.Read | internal/fs/mock_fs.go:184-191 | EOF iff the offset has reached the end. Otherwise it returns min(buffer, remaining) bytes from the offset and advances the offset by that count. |
| MockFs.ListedNames | internal/fs/mock_fs.go:210-256 | Names are strictly increasing immediate children. With n > 0 they are the n least children; with n <= 0 they are all of them. |
| MockFs.ReadDir | internal/fs/mock_fs.go:210-256 | Succeeds iff the handle is a directory; otherwise `ErrInvalid`. The entries are the sorted, cut listing, each with its child's mode. |
| Billy.WrapInt64 | internal/fs/billy_fs.go:244-263 | The result is an int64, equal to the input when that is in range, and congruent to it modulo 2^64. |
| Billy.OpenFile | internal/fs/billy_fs.go:37-69 | Fails iff there is no `O_CREATE` and the file is missing. With `O_CREATE` the buffer starts empty and the parent exists; without it the buffer is the file's contents and the file system is unchanged. No key other than the parent directory is added or changed. |
| Billy.Write | internal/fs/billy_fs.go:177-200 | A read-only handle is `ErrPermission` and nothing changes. Otherwise `p` is appended whatever the offset, and the offset advances with int64 wrap-around. The file then reads as buffer + `p` with the handle's mode, and only the file and its parent directory are added or changed. |
| Billy.Read | internal/fs/billy_fs.go:203-221 | A write-only handle is refused. A never-created empty file and an offset at or past the end give EOF. A negative offset that gets past those tests panics. Otherwise the bytes at the offset come back and the offset advances; a failed read leaves the handle unchanged. |
| Billy.ReadAt | internal/fs/billy_fs.go:224-241 | Same as `Read` but from `off`, leaving the handle unchanged; a negative `off` past the EOF tests panics. |
| Billy.SeekWriteWrapsThenReadPanics | internal/fs/billy_fs.go:177-263 | Seeking to the largest int64 and writing one byte wraps the offset to the smallest int64, and the next read panics. |
| Billy.Seek | internal/fs/billy_fs.go:244-263 | The target is measured from the start, the offset or the end, and wrapped to `int64`. An unknown `whence` or a negative wrapped target is `ErrInvalid` and leaves the handle unchanged. Otherwise the offset becomes the wrapped target, which is the plain sum when nothing overflows. |
| Billy.Truncate | internal/fs/billy_fs.go:288-306 | A negative size is `ErrInvalid`. Otherwise the buffer becomes exactly `size` bytes, cut or zero-padded, and is written back with the handle's mode; the offset is unchanged and no other key changes. |
| Billy.Close | internal/fs/billy_fs.go:266-273 | A writable handle's buffer is written back with the handle's mode and no other key changes; a read-only close changes nothing. |
| Billy.Rename | internal/fs/billy_fs.go:77-96 | A missing source is `ErrNotExist`. Otherwise the source is gone and a different destination reads as the source did, with mode 0644. The key set gains exactly the destination and its parent and loses the source. The parent, when it is neither name, is an empty directory with mode 0755. Every other key is unchanged. |
| Billy.CreateWriteOpenRead | internal/fs/billy_fs.go:27-69 | What a created handle writes, a later `Open` of the same name reads back. |
| Billy.RenameOntoItselfLosesFile | internal/fs/billy_fs.go:77-96 | Renaming a file onto its own name deletes it, because the old name is removed after the write. |
| Entries.EntryStateFromName | internal/journal/journal.go:44-51 | Looking up a name finds the state with that name, and every state's name is found. |
| Entries.OperationTypeFromName | internal/journal/journal.go:35-42 | Looking up a name finds the operation with that name, and every operation's name is found. |
| Codec.RoundTrip | internal/journal/journal.go:382-404 | Decoding what `saveEntry` writes gives back the same entry. |
| Codec.EncodeInjective | internal/journal/journal.go:382-390 | Distinct entries are written as distinct bytes. |
| Journal.GenerateOperationID | internal/journal/journal.go:406-409 | The id is the operation name, a dash, and digits whose value is the timestamp. |
| Journal.GeneratedIdsDistinct | internal/journal/journal.go:406-409 | Ids generated for one operation at different instants differ. |
| Journal.Initialize | internal/journal/journal.go:260-276 | The journal directory and its three partitions are directories afterwards; no other key is added or changed. |
| Journal.SaveEntry | internal/journal/journal.go:382-390 | The entry's state file then reads back as the entry, with mode 0644; only that key is added or changed. |
| Journal.ReadEntry | internal/journal/journal.go:392-404 | A missing file and undecodable contents are distinct errors; success is exactly a decodable file. |
| Journal.CreateEntry | internal/journal/journal.go:279-296 | The new entry has the generated id, the time, operation, source and target, state `current` and no steps. It is readable at its `current` path; nothing else changes. |
| Journal.MoveEntry | internal/journal/journal.go:304-321 | The entry takes the new state and the old file is gone. A different new path then reads the moved entry; the key set changes by those two paths only. |
| Journal.GetEntry | internal/journal/journal.go:324-334 | Looks in `current`, then `completed`, then `failed`. `EntryNotFound` comes exactly when no partition has the id's file. |
| Journal.ReadJsonEntries | internal/journal/journal.go:365-374 | Succeeds iff every `.json` non-directory of the listing reads; it reports at most one entry per listing item. |
| Journal.ListPartition | internal/journal/journal.go:348-363 | A missing directory contributes nothing; a non-directory is a read-dir error. |
| Journal.ConcatEach | internal/journal/journal.go:348-377 | Listing the states one after another succeeds iff each state's listing does. |
| Journal.ListEntriesVisits | internal/journal/journal.go:337-378 | `ListEntries` succeeds iff every partition it visits lists: all three for "", else the named one alone, whose listing is then the result. |
| JournalProps.InitializePreserves | internal/journal/journal.go:260-276 | `Initialize` keeps the journal well formed and creates all partitions. |
| JournalProps.SavePreserves | internal/journal/journal.go:382-390 | Saving keeps the journal well formed (every `.json` file in a partition holds the entry of that state named after its id) and stores the entry. |
| JournalProps.ListPartitionWellFormed | internal/journal/journal.go:337-378 | In a well-formed journal, listing an existing partition succeeds and reports exactly the entries stored there, each once. |
| JournalProps.ListAllIsConcatenation | internal/journal/journal.go:341-345 | Listing with "" is `current`, then `completed`, then `failed`, and fails iff one of them does. |
| JournalProps.ListMissingPartition | internal/journal/journal.go:352-356 | A state whose directory is missing lists nothing. |
| JournalProps.MovePreserves | internal/journal/journal.go:304-321 | Moving to another state keeps the journal well formed and initialized, stores the moved entry, and deletes the old file. |
| JournalProps.MoveToTerminal | internal/journal/journal.go:304-321 | After moving a `current` entry to a terminal state, `current` no longer lists its id. The target partition lists the moved entry, as the only entry with that id, and all its ids are distinct. |
| JournalProps.MoveToSameStateLosesEntry | internal/journal/journal.go:304-321 | Moving an entry to its own state deletes its only file: `GetEntry` then fails. |
| JournalProps.GetAfterMove | internal/journal/journal.go:324-334 | After moving a `current` entry to a terminal state, `GetEntry` finds the moved entry. |
| Lifecycle.GetJournalManager | internal/journal/journal.go:84-90 | Succeeds iff the context has a manager; otherwise the "not found" error. |
| Lifecycle.GetJournalEntry | internal/journal/journal.go:93-99 | Succeeds iff the context has an entry; otherwise the "not found" error. |
| Lifecycle.Lookup | internal/journal/journal.go:125-132 | The entry is looked up first, then the manager; the first missing one decides the error. |
| Lifecycle.AddStep | internal/journal/journal.go:102-121 | Appends exactly one pending step with the given type, description, source, target and start time. Earlier steps and fields are unchanged, the entry is saved, and the handle is the new index. It fails iff there is no manager. |
| Lifecycle.AddStepToCurrentEntry | internal/journal/journal.go:224-230 | With no entry in the context it fails; otherwise it is `AddStep` on the context's entry. |
| Lifecycle.StartStep | internal/journal/journal.go:124-136 | Only the step's status changes, to running, and the entry is saved. It fails iff a lookup does. |
| Lifecycle.CompleteStep | internal/journal/journal.go:139-153 | Only that step changes: completed, with details and end time. The entry is saved. |
| Lifecycle.FailStep | internal/journal/journal.go:156-170 | Only that step changes: failed, with the error text and end time. The entry is saved. |
| Lifecycle.FailEntry | internal/journal/journal.go:173-201 | With no steps it fails with nothing written. Otherwise only the last step fails, and the entry is saved and moved to `failed`. |
| Lifecycle.CompleteEntry | internal/journal/journal.go:204-221 | The entry is saved and moved to `completed`; it fails iff a lookup does. |
| Lifecycle.SaveThenMove | internal/journal/journal.go:195-200 | The entry gets the target state and its old file is gone. A different target path reads the entry back. |
| LifecycleProps.ProtocolAtMostOneRunning | internal/journal/journal.go:102-170 | Between steps, or inside the last one, at most one step is running: the last. |
| LifecycleProps.AddStepEnters | internal/journal/journal.go:102-121 | Adding a step between steps enters a step whose new last step is pending. |
| LifecycleProps.StartLastStays | internal/journal/journal.go:124-136 | Starting the last step of an entry inside a step keeps it inside that step. |
| LifecycleProps.CompleteLastSettles | internal/journal/journal.go:139-153 | Completing the last step leaves no step unsettled. |
| LifecycleProps.FailEntrySettles | internal/journal/journal.go:173-201 | Failing the entry inside a step leaves no step unsettled. |
| LifecycleProps.FailEntryEndsFailed | internal/journal/journal.go:173-201 | A current entry with steps ends failed, stored in `failed`, gone from `current`, with the journal still well formed. |
| LifecycleProps.CompleteEntryEndsCompleted | internal/journal/journal.go:204-221 | A current entry ends completed, stored in `completed`, gone from `current`, with the journal still well formed. |
| CopyVerify.CopyFile | cmd/add.go:359-377 | A missing source fails, and so does an empty one: its single read hits EOF. Otherwise the target holds the source's bytes and mode. |
| CopyVerify.VerifyFileCopy | cmd/add.go:379-424 | Succeeds iff both files exist with equal, non-empty contents. A size mismatch and the first differing byte are reported as such. |
| CopyVerify.CopyThenVerifyFile | cmd/add.go:359-424 | A successful file copy passes the file check. |
| CopyVerify.CopyDir | cmd/add.go:426-461 | Only adds keys, always including `dst`. A missing source is `ErrNotExist` and a non-directory source is `ErrInvalid`. |
| CopyVerify.CopyEntries | cmd/add.go:444-458 | The copy loop only adds keys; with no entries it does nothing. |
| CopyVerify.VerifyDirCopy | cmd/add.go:463-517 | A missing source or destination directory is reported as such; success means both are directories. |
| CopyVerify.VerifyPair | cmd/add.go:491-513 | A pair passes only with equal names and the same kind. A passing file pair has passed the byte-for-byte file check. A passing directory pair has passed the recursive directory check, one level deeper. |
| CopyVerify.VerifyEntries | cmd/add.go:490-514 | When the loop succeeds, the two listings agree name by name and kind by kind. |
| CopyVerify.VerifyEntriesAllPairs | cmd/add.go:490-514 | The entry loop succeeds iff every pair has the same name, the same kind, and checks out recursively or byte for byte. |
| CopyVerify.VerifiedDirsHaveSameChildren | cmd/add.go:463-517 | A verified directory copy has exactly the source's child names, each of the same kind. |
| AddCmd.Initialize | cmd/add.go:71-119 | Succeeds iff the path is within the home directory. Otherwise there is no journal context and the error is a relative-path or outside-home one. On success a `current` add entry with the path as source, its home-relative path as target and no steps is stored in the journal under `<dotmanDir>/journal`. |
| AddCmd.Begin | cmd/add.go:122-131 | Adding then starting a step appends one running step and writes only the entry's file. It fails iff the context lacks manager or entry. |
| AddCmd.Finish | cmd/add.go:143-147 | Completing the running step records it completed with its details and saves the entry. |
| AddCmd.Abort | cmd/add.go:135-141 | Failing the entry fails its last step and moves it to `failed`; with no steps it is the "no steps" error. |
| AddCmd.EndStep | cmd/add.go:133-147 | A step's outcome extends the log by exactly its own settled step. The error is the work's error, or none. |
| AddCmd.StatSource | cmd/add.go:134 | Succeeds iff the path exists; a missing path is `ErrNotExist`. |
| AddCmd.LinkWork | cmd/add.go:282-296 | Succeeds iff the target survives the removal. Then the path holds the target's record. With the removal taken as the intended recursive one, nothing else at or below the path remains. |
| AddCmd.VerifySource | cmd/add.go:121-150 | Logs one verify step. It succeeds when the source exists and fails with `ErrNotExist` when it does not; a journal lookup failure is reported as such. |
| AddCmd.CopyAndVerifyFile | cmd/add.go:215-265 | Logs a copy step and, if that succeeded, a verify step; any error is a copy or verify error. |
| AddCmd.FileCopyAppendsTwo | cmd/add.go:215-265 | A fully successful file copy appends exactly two completed steps, copy then verify, and keeps the entry's state. |
| AddCmd.CopyAndVerifyDirectory | cmd/add.go:163-213 | Logs a copy step and, if that succeeded, a verify step; any error is a directory copy or verify error. |
| AddCmd.CopyAndVerify | cmd/add.go:152-161 | With the source gone or no entry, the ignored errors make it dereference nil. Otherwise it logs the copy plan for the source's kind, with matching error kinds. |
| AddCmd.CreateSymlink | cmd/add.go:267-304 | Logs one symlink step; with no entry it dereferences nil. It succeeds when the copy exists outside the removed tree, and any error is the symlink's `ErrNotExist`. |
| AddCmd.GitAdd | cmd/add.go:306-353 | Logs one git step and succeeds iff git does. |
| AddCmd.Complete | cmd/add.go:355-357 | The entry becomes `completed` with its steps unchanged. |
| AddCmd.StartedOnlyRunning | cmd/add.go:47-69 | Inside any step of `add`, the entry has exactly one running step, the last. |
| AddCmd.AppendsQuiescent | cmd/add.go:47-69 | Between the phases of `add` no step is running. |
| AddCmd.Run | cmd/add.go:47-69 | A path outside home fails with no journal context. Otherwise the entry is an add entry for the path and its relative target. Its steps follow the plan verify → copy (→ verify) → symlink → git for a file or a directory source. On success they are the whole plan, all completed; on failure they are a prefix of it whose last step failed and the rest completed. Its state is completed iff the run succeeded, no step is left running, and a failure is never a journal or nil-dereference error. |
| JournalCmd.Validate | cmd/journal.go:24-46 | No error iff every state filter names a state and every operation filter names an operation. The first bad state filter wins over any operation error, and the error names a filter that was given. |
| JournalCmd.ValidSetsAreTheNames | cmd/journal.go:26-43 | The accepted filter values are exactly the names of the journal's states and operations. |
| JournalCmd.ListByState | cmd/journal.go:57-75 | With no state filter it is the whole listing. Otherwise it is each filter's listing in filter order, failing iff one does, with the first failing state named. |
| JournalCmd.NoFilterIsEveryState | cmd/journal.go:59-66 | Listing without a filter equals filtering by current, completed and failed in that order. |
| JournalCmd.ConcatenatedHasEach | cmd/journal.go:68-74 | Every entry listed for a filtered state is in the combined listing. |
| JournalCmd.FilterByOperation | cmd/journal.go:77-89 | No operation filter keeps everything. Otherwise it keeps exactly the matching entries in order, each once. |
| JournalCmd.KeptCounts | cmd/journal.go:80-86 | Each occurrence of a matching entry is kept exactly once, however many filters name its operation; a non-matching one is dropped. |
| JournalCmd.KeptAppend | cmd/journal.go:80-86 | Filtering distributes over concatenation, so the listing order is kept. |
| JournalCmd.DisplayOrder | cmd/journal.go:108-110 | Entries are shown last-listed first: the reverse of the list. |
| JournalCmd.ReversedTwice | cmd/journal.go:108-110 | Reversing is its own inverse, so nothing is lost or reordered beyond the reversal. |
| JournalCmd.EmptyMessage | cmd/journal.go:91-103 | Always starts with "No journal entries found", and is exactly that iff there are no filters. With state filters, " in states: " and the states joined by ", " follow. With operation filters, the message then ends with " with operations: " and the operations joined; without them it ends after the states. Every filter given appears in the message. |
| JournalCmd.JoinCommaHasEach | cmd/journal.go:96-99 | Every name joined by `strings.Join(xs, ", ")` appears in the joined text. |
| JournalCmd.ShowJournal | cmd/journal.go:24-110 | An invalid filter is its error. It succeeds iff validation and listing do. On success it shows the selected entries reversed, or the empty message when none is selected. |
| StatusCmd.InsertFinds | cmd/status.go:58-72 | After inserting a path, its file status is found at that path. |
| StatusCmd.InsertKeepsOthers | cmd/status.go:58-72 | Inserting a path changes nothing at any path that diverges from it. |
| StatusCmd.InsertPanicsIff | cmd/status.go:66-70 | The directory type assertion panics iff a proper prefix of the path already holds a file. |
| StatusCmd.InsertAddsOnlyItsFile | cmd/status.go:58-72 | The only file an insertion adds is its own. |
| StatusCmd.Insert | cmd/status.go:58-72 | A successful insertion adds at most the path's first component at the top level and leaves the other top-level entries as they were. |
| StatusCmd.BuildTree | cmd/status.go:50-73 | Only `data/` paths count, with the prefix stripped. The tree is empty iff there is no data path, and every file in it is a data path's status. If no data path's components prefix another's, it never panics and every data path's status is at its components. |
| StatusCmd.Symbol | cmd/status.go:115-134 | Untracked in both columns gives "??", and only then. Otherwise a staging A/M/D/R letter shows first; otherwise a worktree M/D/A letter shows second; every other combination is two blanks. |
| StatusCmd.PrintTreeAsWritten | cmd/status.go:86-147 | As written: at least one line per item, the first one drawing the first item under the given prefix. |
| StatusCmd.PrintTree | cmd/status.go:86-147 | Corrected: at least one line per item, the first one drawing the first item under the given prefix. |
| StatusCmd.SameLineCount | cmd/status.go:86-147 | The as-written and corrected drawings print the same number of lines; only their guide columns differ. |
| StatusCmd.PrintTreeDrawsRows | cmd/status.go:86-147 | Corrected drawing: each line shows a bar in guide column d iff its ancestor at depth d has a later sibling, then the corner for a last item and a tee otherwise. |
| StatusCmd.AsWrittenDropsGuide | cmd/status.go:97-102 | For a tree {a/x, b}, the as-written drawing prints a's child with four blanks where the tree has a bar. |
| StatusCmd.Output | cmd/status.go:75-82 | The header comes first, then "Working directory clean" exactly for an empty tree. Otherwise the corrected drawing follows, a bar marking each ancestor with later siblings. |
| StatusCmd.OutputAsWritten | cmd/status.go:75-82 | What the command prints as written: the same header and clean message, otherwise `printTree` as written, with as many lines as `Output`. |

How the properties fit together for `add`:

- `AddCmd.Begin` states the entry inside a step as the log plus one running step.
- `AddCmd.StartedOnlyRunning` shows that such an entry has exactly one running step.
- `AddCmd.Run` ends with every step settled.

So the step protocol of internal/journal/journal.go keeps at most one step running
throughout `add`.

## Left out

- Configuration loading is left out. `dotmanDir` and the home directory are given: the
  home directory is the mock file system's.
- Printing and `os.Exit` are left out. Commands return what they would print.
- git is modelled as an oracle: `GitOutcome` for `add`, and the status list for `status`.
  go-git's behaviour is not part of this model.
- Time is one `now` argument per call. Within one `add` run every step shares it, and no
  claim is made about ordering by time.
- `encoding/json` is replaced by a byte codec with a proved round trip. JSON's textual
  form, indentation and `omitempty` are not modelled.
- `JournalEntry.Checksum` is carried but never set, as in the source.
- The mock's `WriteFile`, `MkdirAll`, `Remove` and `RemoveAll` never fail, so the error
  returns of `saveEntry`, `MoveEntry` and the symlink step's removal cannot happen in the
  model.
- The copy helpers read a file with one `Read` of its size. The mock returns EOF for an
  empty file, so copying or verifying an empty file fails. The model keeps this as
  written.
- AddCmd.CopyAndVerify: `copyAndVerify` ignores the `Stat` and context errors and
  dereferences nil. The model reports that as `NilDereference` instead of a crash.
- AddCmd.Run: the recorded copy plan is stated for the source's kind (file or
  directory) as a disjunction over both. The run's `fuel` bounds the recursion depth of
  the directory copy and check; a deeper tree fails the check.
- `verifyDirCopy` and `copyDir` recurse over a map-backed tree whose keys need not nest
  finitely. The `fuel` argument bounds that depth.
- The commit, push, init and remote commands are not part of this model, nor are the
  operation names they use beyond add, remove and link.
- Aliasing is not modelled. The mock's `Symlink` makes both names share one `*MapFile`
  (internal/fs/mock_fs.go:91). A billy handle's buffer is the file system's own slice
  (internal/fs/billy_fs.go:51), grown by `append` (line 191) and cut by reslicing
  (line 302). So two handles on one file can overwrite each other's bytes through spare
  capacity. The model has value semantics: each handle and each key holds its own bytes.
- Billy.Read: a panic is an outcome (`Panicked`), not a crash that unwinds the caller.
- Billy.ReadAt: as for `Billy.Read`.
- AddCmd.LinkWork: the removal is the corrected `MockFs.RemoveTree`, which matches
  `os.RemoveAll` of the real file system (internal/fs/os_fs.go:48-50). It is not the
  mock's `RemoveAll`, which leaves grandchildren of the path in place (see Findings).
  With the mock as written, keys two or more levels below the path would survive.
- StatusCmd.Output: states the corrected drawing. What the program prints as written is
  `StatusCmd.OutputAsWritten`, which differs in the guide columns below a directory that
  is not the last of its siblings (see Findings).
- The `billy` adapter's remaining methods (`TempFile`, `Lock`, `Chroot`, `Readlink`,
  ...) are thin forwards or constants and are not modelled.
- `printTree`'s key order is Go's map iteration order, which is not fixed. The drawing
  is stated for any order that lists the tree (`StatusCmd.Lists`), not for a particular
  one.
- StatusCmd.BuildTree: the tree for paths whose components prefix one another depends
  on the iteration order; only the panic and the origin of every file are stated for
  them.
- JournalCmd.ShowJournal: the message texts of the listing errors wrap the journal's
  own errors; the model keeps the error values, not their text.

## Findings

| source | as written | input that shows it | evidently intended | confidence | as-written member | corrected member |
|---|---|---|---|---|---|---|
| internal/fs/mock_fs.go:77-85 | `RemoveAll` deletes `path` and the keys whose parent directory is exactly `path` | keys "d", "d/x", "d/x/y"; `RemoveAll("d")` leaves "d/x/y" | remove everything at or below `path`, as its comment and `os.RemoveAll` do | high (not executed) | MockFs.RemoveAll, MockFs.RemoveAllKeepsGrandchildren | MockFs.RemoveTree (used by AddCmd.LinkWork) |
| cmd/status.go:97-102 | the children's prefix is extended according to `isLast`, i.e. whether the directory's parent was last | tree {a: {x}, b} visited a, b: the line for x is "    └── ?? x" | extend according to `isLastItem`: "│   └── ?? x", a bar while the directory has later siblings | high (not executed) | StatusCmd.PrintTreeAsWritten, StatusCmd.AsWrittenDropsGuide | StatusCmd.PrintTree, StatusCmd.PrintTreeDrawsRows (used by StatusCmd.Output) |
