/** The `add` command of cmd/add.go: the journal protocol it follows while moving a file
    or directory into the dotman repository and leaving a symlink in its place.

    `run` goes through six phases and stops at the first error: initialize, verify the
    source, copy and verify the copy, create the symlink, stage the copy in git, and
    complete the entry. Every phase except the first and last records its work as
    journal steps: each step is added, started, and then completed, or the whole entry
    fails, before the next step is added.

    The state the source keeps in `addOperation` and its context is the record `AddOp`;
    each phase is a method that returns the state after it and the error that ends the
    run, if any. The clock is the parameter `now`, and git is the outcome `GitOutcome`.
    The recursion bound of the directory walks is `fuel`. */
module AddCmd {
  import opened Wrappers
  import opened Paths
  import opened MockFs
  import opened Entries
  import opened Journal
  import opened Lifecycle
  import opened CopyVerify
  import opened LifecycleProps

  /** The operation's path, its dotman directory (from the configuration), the journal
      context and the filesystem, which holds both the user's files and the journal. */
  datatype AddOp = AddOp(path: string, dotmanDir: string, ctx: OpContext, fs: MockFileSystem)

  /** What opening the repository, getting its worktree and adding the path report. */
  datatype GitOutcome = GitOk | OpenFailed(msg: string) | WorktreeFailed(msg: string) | StageFailed(msg: string)

  /** The errors `run` returns, one per message of cmd/add.go. */
  datatype AddError =
    | RelPathFailed(relCause: IoError)        // "error getting relative path"
    | OutsideHome                             // "path must be within user's home directory"
    | JournalFailed(journalCause: JournalError) // an error of the journal helpers, returned as it is
    | SourceMissing(statCause: IoError)       // "source path does not exist"
    | CopyFileFailed(copyCause: CopyError)    // "error copying file"
    | CopyDirFailed(copyCause: CopyError)     // "error copying directory"
    | VerifyFileFailed(verifyCause: VerifyError) // "error verifying file copy"
    | VerifyDirFailed(verifyCause: VerifyError)  // "error verifying directory copy"
    | SymlinkFailed(linkCause: IoError)       // "error creating symlink"
    | GitFailed(git: GitOutcome)              // "error opening repository", "error getting worktree", "error adding file to git"
    | NilDereference                          // the source dereferences a nil entry or file info here

  /** The state after a phase, and the error that ends the run, if any. */
  datatype Phase = Phase(op: AddOp, err: Option<AddError>)

  // ---- error texts, as `err.Error()` stores them in a failed step ----

  function IoText(e: IoError): string {
    match e
    case ErrNotExist => "file does not exist"
    case ErrInvalid => "invalid argument"
    case ErrPermission => "permission denied"
    case EOF => "EOF"
    case RelFailed(CannotMakeRelative(b, t)) => "Rel: can't make " + t + " relative to " + b
  }

  function CopyText(e: CopyError): string {
    match e
    case CopyIo(c) => IoText(c)
    case CopyTooDeep => "directory nesting exceeds the depth bound"
  }

  function VerifyText(e: VerifyError): string {
    match e
    case ReadSourceFailed(c) => "error reading source file: " + IoText(c)
    case ReadDestFailed(c) => "error reading destination file: " + IoText(c)
    case SizesDiffer(a, b) =>
      "file sizes differ: source=" + Decimal(a) + " bytes, destination=" + Decimal(b) + " bytes"
    case ReadSourceContentFailed(c) => "error reading source file content: " + IoText(c)
    case ReadDestContentFailed(c) => "error reading destination file content: " + IoText(c)
    case ContentsDiffer(i) => "file contents differ at byte " + Decimal(i)
    case ReadSourceDirFailed(c) => "error reading source directory: " + IoText(c)
    case ReadDestDirFailed(c) => "error reading destination directory: " + IoText(c)
    case ReadSourceEntriesFailed(c) => "error reading source directory entries: " + IoText(c)
    case ReadDestEntriesFailed(c) => "error reading destination directory entries: " + IoText(c)
    case CountsDiffer(a, b) =>
      "directory contents differ: source has " + Decimal(a) + " entries, destination has " + Decimal(b) + " entries"
    case NamesDiffer(a, b) => "directory entries differ: source has " + a + ", destination has " + b
    case DirOnlyInSource(n) => "entry type mismatch: " + n + " is a directory in source but not in destination"
    case DirOnlyInDest(n) => "entry type mismatch: " + n + " is a file in source but a directory in destination"
    case FileFailed(n, inner) => "error verifying file " + n + ": " + VerifyText(inner)
    case VerifyTooDeep => "directory nesting exceeds the depth bound"
  }

  // ---- the plan of steps ----


  /** What a recorded step is: its type, description, source and target. */
  datatype Planned = Planned(stepType: StepType, description: string, source: string, target: string)

  function VerifyPlan(path: string): Planned {
    Planned(TypeVerify, "Verify source path exists", path, "")
  }

  /** The copy step and the check of the copy, for a directory or a file. */
  function CopyPlan(path: string, target: string, isDir: bool): seq<Planned> {
    if isDir then
      [Planned(TypeCopy, "Copy directory contents", path, target), Planned(TypeVerify, "Verify directory copy", path, target)]
    else
      [Planned(TypeCopy, "Copy file contents", path, target), Planned(TypeVerify, "Verify file copy", path, target)]
  }

  function SymlinkPlan(path: string, target: string): Planned {
    Planned(TypeSymlink, "Create symlink", path, target)
  }

  function GitPlan(path: string): Planned {
    Planned(TypeGit, "Add file to git", path, "")
  }

  /** Every step a run records, in order. */
  function AddPlan(path: string, target: string, isDir: bool): seq<Planned> {
    [VerifyPlan(path)] + CopyPlan(path, target, isDir) + [SymlinkPlan(path, target), GitPlan(path)]
  }

  /** The plan is the `verify` step followed by the rest. */
  lemma AddPlanSplits(path: string, target: string, isDir: bool)
    ensures AddPlan(path, target, isDir)
            == [VerifyPlan(path)] + (CopyPlan(path, target, isDir) + [SymlinkPlan(path, target), GitPlan(path)])
  {
  }

  predicate Records(s: Step, pl: Planned) {
    s.stepType == pl.stepType && s.description == pl.description && s.source == pl.source && s.target == pl.target
  }

  /** `steps` follow `plan` from its start. Every step but the last has completed. When
      `ok`, the whole plan was recorded and completed; otherwise the last step failed. */
  predicate Logged(steps: seq<Step>, plan: seq<Planned>, ok: bool) {
    && |steps| <= |plan|
    && (forall i :: 0 <= i < |steps| ==> Records(steps[i], plan[i]))
    && (forall i :: 0 <= i < |steps| - 1 ==> steps[i].status == StepCompleted)
    && (ok ==> |steps| == |plan| && (|steps| > 0 ==> steps[|steps| - 1].status == StepCompleted))
    && (!ok ==> |steps| > 0 && steps[|steps| - 1].status == StepFailed)
  }

  /** `e2` is `e` with steps following `pls` appended. When the steps did not all
      complete, the entry has moved to `failed`. Nothing else about the entry changed. */
  predicate Appends(e: Entry, e2: Entry, pls: seq<Planned>, ok: bool) {
    && |e.steps| <= |e2.steps|
    && e2 == e.(state := if ok then e.state else StateFailed, steps := e.steps + e2.steps[|e.steps|..])
    && Logged(e2.steps[|e.steps|..], pls, ok)
  }

  // ---- context ----

  predicate Full(ctx: OpContext) {
    ctx.entry.Some? && ctx.manager.Some?
  }

  /** A phase keeps the operation's path, dotman directory and manager, and its entry. */
  predicate Continues(op: AddOp, op2: AddOp) {
    && op2.path == op.path && op2.dotmanDir == op.dotmanDir
    && op2.ctx.manager == op.ctx.manager && op2.ctx.entry.Some?
  }

  /** The context and filesystem after a lifecycle call on the context's entry. */
  function Apply(op: AddOp, o: Outcome): AddOp {
    op.(ctx := op.ctx.(entry := Some(o.entry)), fs := o.fs)
  }

  /** Where the copy goes: `filepath.Join(DotmanDir, "data", entry.Target)`. */
  function TargetPath(op: AddOp): string
    requires op.ctx.entry.Some?
  {
    Join([op.dotmanDir, "data", op.ctx.entry.value.target])
  }

  function JournalOf(dotmanDir: string): Manager {
    Manager(Join([dotmanDir, "journal"]))
  }

  /** The file that holds the context's entry. */
  function EntryFile(op: AddOp): string
    requires Full(op.ctx)
  {
    EntryPath(op.ctx.manager.value, op.ctx.entry.value.state.Name(), op.ctx.entry.value.id)
  }

  // ---- one recorded step, as an entry ----

  /** The step `AddStep` appends for `pl` at `now`, once `StartStep` made it running. */
  function Started(pl: Planned, now: nat): Step {
    Step(pl.stepType, StepRunning, "", pl.description, pl.source, pl.target, "", now, 0)
  }

  /** A running step once it ended: `completed` with `note` as its details, or `failed`
      with `note` as its error. */
  function Ended(s: Step, now: nat, ok: bool, note: string): Step {
    if ok then s.(status := StepCompleted, details := note, endTime := now)
    else s.(status := StepFailed, error := note, endTime := now)
  }

  /** The entry after a step following `pl` was added and started at `now` and then
      ended; a step that failed fails the entry too. */
  function Recorded(e: Entry, pl: Planned, now: nat, ok: bool, note: string): Entry {
    var e1 := e.(steps := e.steps + [Started(pl, now)]);
    e1.(state := if ok then e1.state else StateFailed,
        steps := e1.steps[|e.steps| := Ended(e1.steps[|e.steps|], now, ok, note)])
  }

  /** One recorded step appends one step following its plan; it is the only step that
      ran, and it is over. */
  lemma RecordedAppends(e: Entry, pl: Planned, now: nat, ok: bool, note: string)
    ensures Appends(e, Recorded(e, pl, now, ok, note), [pl], ok)
    ensures |Recorded(e, pl, now, ok, note).steps| == |e.steps| + 1
    ensures Settled(Recorded(e, pl, now, ok, note).steps[|e.steps|])
  {
    var e2 := Recorded(e, pl, now, ok, note);
    assert e2.steps == e.steps + [Ended(Started(pl, now), now, ok, note)];
    assert e2.steps[|e.steps|..] == [Ended(Started(pl, now), now, ok, note)];
  }

  // ---- composing logs ----

  /** A completed log of one plan followed by a log of another is a log of both. */
  lemma LoggedConcat(s1: seq<Step>, s2: seq<Step>, a: seq<Planned>, b: seq<Planned>, ok: bool)
    requires Logged(s1, a, true) && Logged(s2, b, ok)
    ensures Logged(s1 + s2, a + b, ok)
  {
    var s := s1 + s2;
    forall i | 0 <= i < |s|
      ensures Records(s[i], (a + b)[i])
    {
      if i >= |s1| {
        assert s[i] == s2[i - |s1|];
      }
    }
    forall i | 0 <= i < |s| - 1
      ensures s[i].status == StepCompleted
    {
      if i >= |s1| {
        assert s[i] == s2[i - |s1|];
      }
    }
    if |s2| > 0 {
      assert s[|s| - 1] == s2[|s2| - 1];
    }
  }

  /** A log that fails part-way through a plan's first part is a failed log of the
      whole plan. */
  lemma FailedLogWidens(steps: seq<Step>, a: seq<Planned>, b: seq<Planned>)
    requires Logged(steps, a, false)
    ensures Logged(steps, a + b, false)
  {
    forall i | 0 <= i < |steps|
      ensures Records(steps[i], (a + b)[i])
    {
      assert (a + b)[i] == a[i];
    }
  }

  /** Steps that all completed, followed by steps that follow the next part of the plan,
      follow both parts of the plan. */
  lemma AppendsChain(e0: Entry, e1: Entry, e2: Entry, a: seq<Planned>, b: seq<Planned>, ok: bool)
    requires Appends(e0, e1, a, true) && Appends(e1, e2, b, ok)
    ensures Appends(e0, e2, a + b, ok)
  {
    var s1, s2 := e1.steps[|e0.steps|..], e2.steps[|e1.steps|..];
    assert e2.steps == e0.steps + (s1 + s2);
    assert e2.steps[|e0.steps|..] == s1 + s2;
    LoggedConcat(s1, s2, a, b, ok);
  }

  /** An entry that failed part-way through the first part of a plan failed part-way
      through the whole plan. */
  lemma AppendsWidens(e0: Entry, e1: Entry, a: seq<Planned>, b: seq<Planned>)
    requires Appends(e0, e1, a, false)
    ensures Appends(e0, e1, a + b, false)
  {
    FailedLogWidens(e1.steps[|e0.steps|..], a, b);
  }

  /** A log of a plan starting from an entry with no steps is the entry's whole step list. */
  lemma AppendsFromEmpty(e0: Entry, e: Entry, pls: seq<Planned>, ok: bool)
    requires e0.steps == [] && Appends(e0, e, pls, ok)
    ensures Logged(e.steps, pls, ok)
  {
    assert e.steps[|e0.steps|..] == e.steps;
  }

  /** A successful copy phase for a file appends exactly two completed steps, `copy` then
      `verify`. */
  lemma FileCopyAppendsTwo(e: Entry, e2: Entry, path: string, target: string)
    requires Appends(e, e2, CopyPlan(path, target, false), true)
    ensures |e2.steps| == |e.steps| + 2 && e2.state == e.state
    ensures e2.steps[|e.steps|].stepType == TypeCopy && e2.steps[|e.steps|].status == StepCompleted
    ensures e2.steps[|e.steps| + 1].stepType == TypeVerify && e2.steps[|e.steps| + 1].status == StepCompleted
  {
    var s := e2.steps[|e.steps|..];
    assert e2.steps[|e.steps|] == s[0] && e2.steps[|e.steps| + 1] == s[1];
  }

  // ---- the protocol: at most one running step ----

  /** Adding and starting a step on an entry between steps enters that step: only the new
      step runs. */
  lemma StartedOnlyRunning(e: Entry, pl: Planned, now: nat)
    requires Quiescent(e)
    ensures var e1 := e.(steps := e.steps + [Started(pl, now)]);
      && InStep(e1) && AtMostOneRunning(e1) && Running(e1, |e.steps|)
  {
    var e1 := e.(steps := e.steps + [Started(pl, now)]);
    forall j | 0 <= j < |e1.steps| - 1
      ensures Settled(e1.steps[j])
    {
      assert e1.steps[j] == e.steps[j];
    }
    ProtocolAtMostOneRunning(e1);
  }

  /** Ending the step leaves the entry between steps again. */
  lemma RecordedQuiescent(e: Entry, pl: Planned, now: nat, ok: bool, note: string)
    requires Quiescent(e)
    ensures Quiescent(Recorded(e, pl, now, ok, note))
  {
    var e2 := Recorded(e, pl, now, ok, note);
    RecordedAppends(e, pl, now, ok, note);
    forall j | 0 <= j < |e2.steps|
      ensures Settled(e2.steps[j])
    {
      if j < |e.steps| {
        assert e2.steps[j] == e.steps[j];
      }
    }
  }

  /** Appending a completed log or a failed one to an entry between steps leaves it
      between steps. */
  lemma AppendsQuiescent(e: Entry, e2: Entry, pls: seq<Planned>, ok: bool)
    requires Quiescent(e) && Appends(e, e2, pls, ok)
    ensures Quiescent(e2)
  {
    var s := e2.steps[|e.steps|..];
    forall j | 0 <= j < |e2.steps|
      ensures Settled(e2.steps[j])
    {
      if j < |e.steps| {
        assert e2.steps[j] == e.steps[j];
      } else {
        assert e2.steps[j] == s[j - |e.steps|];
      }
    }
  }

  // ---- one recorded step, as calls ----

  /** `AddStepToCurrentEntry`: the new step is pending, and the entry was saved. */
  method AddPlanned(op: AddOp, pl: Planned, now: nat) returns (r: Result<(AddOp, nat), AddError>)
    ensures !Full(op.ctx) ==> r == Err(JournalFailed(LookupError(op.ctx)))
    ensures Full(op.ctx) ==> r.Ok?
    ensures r.Ok? ==>
      var (op1, h) := r.value;
      var e := op.ctx.entry.value;
      && Full(op.ctx) && Continues(op, op1)
      && h == |e.steps|
      && op1.ctx.entry.value == e.(steps := e.steps + [Started(pl, now).(status := StepPending)])
      && op1.fs.files.Keys == op.fs.files.Keys + {EntryFile(op)}
      && forall k :: k in op.fs.files && k != EntryFile(op) ==> op1.fs.files[k] == op.fs.files[k]
  {
    match AddStepToCurrentEntry(op.ctx, op.fs, pl.stepType, pl.description, pl.source, pl.target, now) {
      case Err(e) =>
        r := Err(JournalFailed(e));
      case Ok((o, h)) =>
        assert o.entry.steps == op.ctx.entry.value.steps + [o.entry.steps[h]];
        r := Ok((Apply(op, o), h));
    }
  }

  /** `StartStep` on the last step, which was pending. */
  method StartLast(op: AddOp, h: nat) returns (r: Result<AddOp, AddError>)
    requires Full(op.ctx) && h + 1 == |op.ctx.entry.value.steps|
    ensures r.Ok?
    ensures var e := op.ctx.entry.value;
      && Continues(op, r.value)
      && r.value.ctx.entry.value == e.(steps := e.steps[..h] + [e.steps[h].(status := StepRunning)])
      && r.value.fs.files.Keys == op.fs.files.Keys + {EntryFile(op)}
      && forall k :: k in op.fs.files && k != EntryFile(op) ==> r.value.fs.files[k] == op.fs.files[k]
  {
    match StartStep(op.ctx, op.fs, h) {
      case Err(e) =>
        r := Err(JournalFailed(e));
      case Ok(o) =>
        var e := op.ctx.entry.value;
        assert o.entry.steps == e.steps[..h] + [o.entry.steps[h]];
        r := Ok(Apply(op, o));
    }
  }

  /** `AddStepToCurrentEntry`, then `StartStep`: the new step is running, and the entry
      was saved to its file. */
  method Begin(op: AddOp, pl: Planned, now: nat) returns (r: Result<(AddOp, nat), AddError>)
    ensures !Full(op.ctx) ==> r == Err(JournalFailed(LookupError(op.ctx)))
    ensures Full(op.ctx) ==> r.Ok?
    ensures r.Ok? ==>
      var (op1, h) := r.value;
      var e := op.ctx.entry.value;
      && Full(op.ctx) && Continues(op, op1)
      && h == |e.steps|
      && op1.ctx.entry.value == e.(steps := e.steps + [Started(pl, now)])
      && op1.fs.files.Keys == op.fs.files.Keys + {EntryFile(op)}
      && forall k :: k in op.fs.files && k != EntryFile(op) ==> op1.fs.files[k] == op.fs.files[k]
  {
    var added := AddPlanned(op, pl, now);
    if added.Err? {
      return Err(added.error);
    }
    var (op1, h) := added.value;
    var e := op.ctx.entry.value;
    assert op1.ctx.entry.value.steps[..h] == e.steps;
    var started := StartLast(op1, h);
    r := Ok((started.value, h));
  }

  /** The work of a step has been done: what it did to the filesystem, and the step's
      details or its error. */
  datatype Action =
    | Done(fs: MockFileSystem, details: string)
    | Failed(fs: MockFileSystem, err: AddError, text: string)

  /** The text a step's work leaves: the details of work that succeeded, the error's
      text otherwise. */
  function Note(a: Action): string {
    if a.Done? then a.details else a.text
  }

  /** `CompleteStep` on step `h` with the work's details, over the filesystem `fs` the
      work left. */
  method Finish(op: AddOp, h: nat, fs: MockFileSystem, details: string, now: nat) returns (p: Phase)
    requires op.ctx.entry.Some? ==> h < |op.ctx.entry.value.steps|
    ensures !Full(op.ctx) ==> p.err == Some(JournalFailed(LookupError(op.ctx)))
    ensures Full(op.ctx) ==>
      var e := op.ctx.entry.value;
      && Continues(op, p.op) && p.err.None?
      && p.op.ctx.entry.value == e.(steps := e.steps[h := Ended(e.steps[h], now, true, details)])
      && fs.files.Keys <= p.op.fs.files.Keys
  {
    match CompleteStep(op.ctx, fs, h, details, now) {
      case Err(e) =>
        p := Phase(op.(fs := fs), Some(JournalFailed(e)));
      case Ok(o) =>
        assert o.entry.steps == op.ctx.entry.value.steps[h := o.entry.steps[h]];
        p := Phase(Apply(op, o), None);
    }
  }

  /** `FailEntry` with the text of the work's error, over the filesystem `fs` the work
      left; the phase then reports `err`. */
  method Abort(op: AddOp, fs: MockFileSystem, err: AddError, text: string, now: nat) returns (p: Phase)
    ensures !Full(op.ctx) ==> p.err == Some(JournalFailed(LookupError(op.ctx)))
    ensures Full(op.ctx) && op.ctx.entry.value.steps == [] ==> p.err == Some(JournalFailed(NoSteps))
    ensures Full(op.ctx) && op.ctx.entry.value.steps != [] ==>
      var e := op.ctx.entry.value;
      var h := |e.steps| - 1;
      && Continues(op, p.op) && p.err == Some(err)
      && p.op.ctx.entry.value == e.(state := StateFailed, steps := e.steps[h := Ended(e.steps[h], now, false, text)])
  {
    match FailEntry(op.ctx, fs, text, now) {
      case Err(e) =>
        p := Phase(op.(fs := fs), Some(JournalFailed(e)));
      case Ok(o) =>
        var h := |op.ctx.entry.value.steps| - 1;
        assert o.entry.steps == op.ctx.entry.value.steps[h := o.entry.steps[h]];
        p := Phase(Apply(op, o), Some(err));
    }
  }

  /** The end of a step: `Finish` after work that succeeded, `Abort` after work that
      failed. */
  method Settle(op: AddOp, h: nat, a: Action, now: nat) returns (p: Phase)
    requires op.ctx.entry.Some? ==> h < |op.ctx.entry.value.steps|
    ensures !Full(op.ctx) ==> p.err == Some(JournalFailed(LookupError(op.ctx)))
    ensures Full(op.ctx) && h + 1 == |op.ctx.entry.value.steps| ==>
      var e := op.ctx.entry.value;
      && Continues(op, p.op)
      && p.op.ctx.entry.value
         == e.(state := if a.Done? then e.state else StateFailed, steps := e.steps[h := Ended(e.steps[h], now, a.Done?, Note(a))])
      && p.err == (if a.Done? then None else Some(a.err))
      && (a.Done? ==> a.fs.files.Keys <= p.op.fs.files.Keys)
  {
    match a {
      case Done(fs, details) =>
        p := Finish(op, h, fs, details, now);
      case Failed(fs, err, text) =>
        p := Abort(op, fs, err, text, now);
    }
  }

  /** `Settle` after `Begin`: the entry appends the one step, recorded as planned. */
  method EndStep(op: AddOp, op1: AddOp, h: nat, pl: Planned, a: Action, now: nat) returns (p: Phase)
    requires Full(op.ctx) && Continues(op, op1) && h == |op.ctx.entry.value.steps|
    requires op1.ctx.entry.value == op.ctx.entry.value.(steps := op.ctx.entry.value.steps + [Started(pl, now)])
    ensures Continues(op, p.op)
    ensures p.op.ctx.entry.value == Recorded(op.ctx.entry.value, pl, now, a.Done?, Note(a))
    ensures Appends(op.ctx.entry.value, p.op.ctx.entry.value, [pl], a.Done?)
    ensures p.err == (if a.Done? then None else Some(a.err))
    ensures a.Done? ==> a.fs.files.Keys <= p.op.fs.files.Keys
  {
    p := Settle(op1, h, a, now);
    RecordedAppends(op.ctx.entry.value, pl, now, a.Done?, Note(a));
  }

  // ---- the work of each step ----

  /** `verifySource`'s `Stat`. */
  function StatSource(fs: MockFileSystem, path: string): (a: Action)
    ensures a.fs == fs
    ensures a.Done? <==> path in fs.files
    ensures a.Failed? ==> a.err == SourceMissing(ErrNotExist)
  {
    match Stat(fs, path)
    case Err(e) => Failed(fs, SourceMissing(e), IoText(e))
    case Ok(info) => Done(fs, "Path exists and is a " + (if info.mode.dir then "directory" else "file"))
  }

  /** `copyFile`. */
  function CopyFileWork(fs: MockFileSystem, path: string, target: string): (a: Action)
    ensures a.Done? <==> path in fs.files && fs.files[path].data != []
    ensures a.Done? ==> a.fs == WriteFile(fs, target, fs.files[path].data, fs.files[path].mode)
    ensures a.Failed? ==> a.fs == fs && a.err.CopyFileFailed?
  {
    match CopyFile(fs, path, target)
    case Err(e) => Failed(fs, CopyFileFailed(e), CopyText(e))
    case Ok(fs2) => Done(fs2, "Successfully copied file contents")
  }

  /** `verifyFileCopy`. */
  function VerifyFileWork(fs: MockFileSystem, path: string, target: string): (a: Action)
    ensures a.fs == fs
    ensures a.Done? <==> path in fs.files && target in fs.files && fs.files[path].data == fs.files[target].data
                         && fs.files[path].data != []
    ensures a.Failed? ==> a.err.VerifyFileFailed?
  {
    match VerifyFileCopy(fs, path, target)
    case Err(e) => Failed(fs, VerifyFileFailed(e), VerifyText(e))
    case Ok(_) => Done(fs, "Successfully verified file contents match")
  }

  /** `copyDir`; what it wrote before an error stays written. */
  function CopyDirWork(fs: MockFileSystem, path: string, target: string, fuel: nat): (a: Action)
    ensures fs.files.Keys + {target} <= a.fs.files.Keys
    ensures path !in fs.files && path != target ==> a.Failed?
    ensures a.Failed? ==> a.err.CopyDirFailed?
  {
    var c := CopyDir(fs, path, target, fuel);
    if c.err.Some? then Failed(c.fs, CopyDirFailed(c.err.value), CopyText(c.err.value))
    else Done(c.fs, "Successfully copied all directory contents")
  }

  /** `verifyDirCopy`. */
  function VerifyDirWork(fs: MockFileSystem, path: string, target: string, fuel: nat): (a: Action)
    ensures a.fs == fs
    ensures a.Done? ==> path in fs.files && target in fs.files && fs.files[path].mode.dir && fs.files[target].mode.dir
                        && Children(fs, DirPrefix(path)) == Children(fs, DirPrefix(target))
    ensures a.Failed? ==> a.err.VerifyDirFailed?
  {
    match VerifyDirCopy(fs, path, target, fuel)
    case Err(e) => Failed(fs, VerifyDirFailed(e), VerifyText(e))
    case Ok(_) =>
      VerifiedDirsHaveSameChildren(fs, path, target, fuel);
      Done(fs, "Successfully verified all directory contents match")
  }

  /** `createSymlink`'s `RemoveAll` of the original, then `Symlink` from the copy. The
      whole tree below the path is removed (see `MockFs.RemoveTree`). */
  function LinkWork(fs: MockFileSystem, path: string, target: string): (a: Action)
    ensures a.Done? <==> target in RemoveTree(fs, path).files
    ensures a.Done? ==>
              && target in fs.files && path in a.fs.files && a.fs.files[path] == fs.files[target]
              && forall k :: k in a.fs.files && k != path ==> k in fs.files && !AtOrBelow(k, path)
    ensures a.Failed? ==> a.err == SymlinkFailed(ErrNotExist)
  {
    var fs2 := RemoveTree(fs, path);
    match Symlink(fs2, target, path)
    case Err(e) => Failed(fs2, SymlinkFailed(e), IoText(e))
    case Ok(fs3) => Done(fs3, "Successfully created symlink")
  }

  /** `gitAdd`'s calls into the repository, whose outcome is given. */
  function GitWork(fs: MockFileSystem, git: GitOutcome): (a: Action)
    ensures a.fs == fs
    ensures a.Done? <==> git.GitOk?
    ensures a.Failed? ==> a.err == GitFailed(git)
  {
    if git.GitOk? then Done(fs, "Successfully added file to git") else Failed(fs, GitFailed(git), git.msg)
  }

  // ---- the phases of `run` ----

  /** `initialize`: the path must lie within the home directory; only then is the
      journal initialized and an `add` entry created, in `current` and with no steps,
      whose target is the path relative to the home directory. */
  method Initialize(path: string, dotmanDir: string, fs: MockFileSystem, now: nat) returns (p: Phase)
    ensures p.err.None? <==> Within(fs.homeDir, path)
    ensures p.err.Some? ==> p.op == AddOp(path, dotmanDir, OpContext(None, None), fs)
    ensures p.err.Some? ==> p.err.value.RelPathFailed? || p.err.value.OutsideHome?
    ensures p.err.None? ==>
      && p.op.path == path && p.op.dotmanDir == dotmanDir
      && p.op.ctx.manager == Some(JournalOf(dotmanDir)) && p.op.ctx.entry.Some?
      && var e := p.op.ctx.entry.value;
      && e.operation == OpAdd && e.source == path && e.target == MockFs.Rel(fs, fs.homeDir, path).value
      && e.state == StateCurrent && e.steps == [] && e.timestamp == now
      && ReadEntry(p.op.fs, EntryPath(JournalOf(dotmanDir), "current", e.id)) == Ok(e)
  {
    var none := AddOp(path, dotmanDir, OpContext(None, None), fs);
    var home := UserHomeDir(fs);
    var abs := Abs(fs, path);
    match MockFs.Rel(fs, home, abs)
    case Err(e) =>
      p := Phase(none, Some(RelPathFailed(e)));
    case Ok(rel) =>
      if Escapes(rel) {
        p := Phase(none, Some(OutsideHome));
      } else {
        var m := JournalOf(dotmanDir);
        var (e, fs2) := CreateEntry(m, Journal.Initialize(m, fs), OpAdd, path, rel, now);
        p := Phase(AddOp(path, dotmanDir, OpContext(Some(m), Some(e)), fs2), None);
      }
  }

  /** `verifySource`: one `verify` step, which fails the entry when the path is missing. */
  method VerifySource(op: AddOp, now: nat) returns (p: Phase)
    ensures !Full(op.ctx) ==> p == Phase(op, Some(JournalFailed(LookupError(op.ctx))))
    ensures Full(op.ctx) ==>
      && Continues(op, p.op)
      && Appends(op.ctx.entry.value, p.op.ctx.entry.value, [VerifyPlan(op.path)], p.err.None?)
    ensures Full(op.ctx) && op.path in op.fs.files ==> p.err.None?
    ensures Full(op.ctx) && op.path !in op.fs.files && op.path != EntryFile(op) ==> p.err.Some?
    ensures Full(op.ctx) && p.err.Some? ==> p.err == Some(SourceMissing(ErrNotExist))
    ensures Full(op.ctx) && p.err.None? ==> op.path in p.op.fs.files
  {
    var pl := VerifyPlan(op.path);
    var b := Begin(op, pl, now);
    if b.Err? {
      return Phase(op, Some(b.error));
    }
    var (op1, h) := b.value;
    var a := StatSource(op1.fs, op.path);
    p := EndStep(op, op1, h, pl, a, now);
  }

  /** The `copy` step of `copyAndVerifyFile`. */
  method CopyFileStep(op: AddOp, target: string, now: nat) returns (p: Phase)
    ensures !Full(op.ctx) ==> p == Phase(op, Some(JournalFailed(LookupError(op.ctx))))
    ensures Full(op.ctx) ==>
      && Continues(op, p.op)
      && Appends(op.ctx.entry.value, p.op.ctx.entry.value, [CopyPlan(op.path, target, false)[0]], p.err.None?)
    ensures Full(op.ctx) && p.err.Some? ==> p.err.value.CopyFileFailed?
    ensures Full(op.ctx) && op.path in op.fs.files && op.path != EntryFile(op) && op.fs.files[op.path].data != [] ==>
              p.err.None?
  {
    var pl := CopyPlan(op.path, target, false)[0];
    var b := Begin(op, pl, now);
    if b.Err? {
      return Phase(op, Some(b.error));
    }
    var (op1, h) := b.value;
    var a := CopyFileWork(op1.fs, op.path, target);
    p := EndStep(op, op1, h, pl, a, now);
  }

  /** The `verify` step of `copyAndVerifyFile`. */
  method VerifyFileStep(op: AddOp, target: string, now: nat) returns (p: Phase)
    ensures !Full(op.ctx) ==> p == Phase(op, Some(JournalFailed(LookupError(op.ctx))))
    ensures Full(op.ctx) ==>
      && Continues(op, p.op)
      && Appends(op.ctx.entry.value, p.op.ctx.entry.value, [CopyPlan(op.path, target, false)[1]], p.err.None?)
    ensures Full(op.ctx) && p.err.Some? ==> p.err.value.VerifyFileFailed?
  {
    var pl := CopyPlan(op.path, target, false)[1];
    var b := Begin(op, pl, now);
    if b.Err? {
      return Phase(op, Some(b.error));
    }
    var (op1, h) := b.value;
    var a := VerifyFileWork(op1.fs, op.path, target);
    p := EndStep(op, op1, h, pl, a, now);
  }

  /** The `copy` step of `copyAndVerifyDirectory`. */
  method CopyDirStep(op: AddOp, target: string, now: nat, fuel: nat) returns (p: Phase)
    ensures !Full(op.ctx) ==> p == Phase(op, Some(JournalFailed(LookupError(op.ctx))))
    ensures Full(op.ctx) ==>
      && Continues(op, p.op)
      && Appends(op.ctx.entry.value, p.op.ctx.entry.value, [CopyPlan(op.path, target, true)[0]], p.err.None?)
    ensures Full(op.ctx) && p.err.Some? ==> p.err.value.CopyDirFailed?
  {
    var pl := CopyPlan(op.path, target, true)[0];
    var b := Begin(op, pl, now);
    if b.Err? {
      return Phase(op, Some(b.error));
    }
    var (op1, h) := b.value;
    var a := CopyDirWork(op1.fs, op.path, target, fuel);
    p := EndStep(op, op1, h, pl, a, now);
  }

  /** The `verify` step of `copyAndVerifyDirectory`. */
  method VerifyDirStep(op: AddOp, target: string, now: nat, fuel: nat) returns (p: Phase)
    ensures !Full(op.ctx) ==> p == Phase(op, Some(JournalFailed(LookupError(op.ctx))))
    ensures Full(op.ctx) ==>
      && Continues(op, p.op)
      && Appends(op.ctx.entry.value, p.op.ctx.entry.value, [CopyPlan(op.path, target, true)[1]], p.err.None?)
    ensures Full(op.ctx) && p.err.Some? ==> p.err.value.VerifyDirFailed?
  {
    var pl := CopyPlan(op.path, target, true)[1];
    var b := Begin(op, pl, now);
    if b.Err? {
      return Phase(op, Some(b.error));
    }
    var (op1, h) := b.value;
    var a := VerifyDirWork(op1.fs, op.path, target, fuel);
    p := EndStep(op, op1, h, pl, a, now);
  }

  /** Two steps of a plan of two, the second only after the first completed, append a
      log of the pair. */
  lemma PairAppends(e: Entry, e1: Entry, e2: Entry, pls: seq<Planned>, ok1: bool, ok2: bool)
    requires |pls| == 2 && Appends(e, e1, [pls[0]], ok1)
    requires ok1 ==> Appends(e1, e2, [pls[1]], ok2)
    ensures ok1 ==> Appends(e, e2, pls, ok2)
    ensures !ok1 ==> Appends(e, e1, pls, false)
  {
    assert [pls[0]] + [pls[1]] == pls;
    if ok1 {
      AppendsChain(e, e1, e2, [pls[0]], [pls[1]], ok2);
    } else {
      AppendsWidens(e, e1, [pls[0]], [pls[1]]);
    }
  }

  /** `copyAndVerifyFile`: a `copy` step, then a `verify` step comparing the copy. */
  method CopyAndVerifyFile(op: AddOp, target: string, now: nat) returns (p: Phase)
    ensures !Full(op.ctx) ==> p == Phase(op, Some(JournalFailed(LookupError(op.ctx))))
    ensures Full(op.ctx) ==>
      && Continues(op, p.op)
      && Appends(op.ctx.entry.value, p.op.ctx.entry.value, CopyPlan(op.path, target, false), p.err.None?)
    ensures Full(op.ctx) && p.err.Some? ==> p.err.value.CopyFileFailed? || p.err.value.VerifyFileFailed?
  {
    p := CopyFileStep(op, target, now);
    if p.err.Some? {
      if Full(op.ctx) {
        PairAppends(op.ctx.entry.value, p.op.ctx.entry.value, p.op.ctx.entry.value, CopyPlan(op.path, target, false), false, false);
      }
      return;
    }
    var p2 := VerifyFileStep(p.op, target, now);
    PairAppends(op.ctx.entry.value, p.op.ctx.entry.value, p2.op.ctx.entry.value, CopyPlan(op.path, target, false), true, p2.err.None?);
    p := p2;
  }

  /** `copyAndVerifyDirectory`: the same two steps for a directory tree. */
  method CopyAndVerifyDirectory(op: AddOp, target: string, now: nat, fuel: nat) returns (p: Phase)
    ensures !Full(op.ctx) ==> p == Phase(op, Some(JournalFailed(LookupError(op.ctx))))
    ensures Full(op.ctx) ==>
      && Continues(op, p.op)
      && Appends(op.ctx.entry.value, p.op.ctx.entry.value, CopyPlan(op.path, target, true), p.err.None?)
    ensures Full(op.ctx) && p.err.Some? ==> p.err.value.CopyDirFailed? || p.err.value.VerifyDirFailed?
  {
    p := CopyDirStep(op, target, now, fuel);
    if p.err.Some? {
      if Full(op.ctx) {
        PairAppends(op.ctx.entry.value, p.op.ctx.entry.value, p.op.ctx.entry.value, CopyPlan(op.path, target, true), false, false);
      }
      return;
    }
    var p2 := VerifyDirStep(p.op, target, now, fuel);
    PairAppends(op.ctx.entry.value, p.op.ctx.entry.value, p2.op.ctx.entry.value, CopyPlan(op.path, target, true), true, p2.err.None?);
    p := p2;
  }

  /** `copyAndVerify`: the copy goes to `data/<entry target>` below the dotman directory,
      and `Stat` chooses between a directory and a file. The source dereferences the
      file information and the entry without checking them; either missing is
      `NilDereference`. */
  method CopyAndVerify(op: AddOp, now: nat, fuel: nat) returns (p: Phase)
    ensures op.path !in op.fs.files || op.ctx.entry.None? ==> p == Phase(op, Some(NilDereference))
    ensures Full(op.ctx) && op.path in op.fs.files ==>
      && Continues(op, p.op)
      && Appends(op.ctx.entry.value, p.op.ctx.entry.value,
                 CopyPlan(op.path, TargetPath(op), op.fs.files[op.path].mode.dir), p.err.None?)
    ensures Full(op.ctx) && op.path in op.fs.files && p.err.Some? ==>
      || p.err.value.CopyFileFailed? || p.err.value.VerifyFileFailed?
      || p.err.value.CopyDirFailed? || p.err.value.VerifyDirFailed?
  {
    match Stat(op.fs, op.path) {
      case Err(_) =>
        p := Phase(op, Some(NilDereference));
      case Ok(info) =>
        if op.ctx.entry.None? {
          p := Phase(op, Some(NilDereference));
        } else if info.mode.dir {
          p := CopyAndVerifyDirectory(op, TargetPath(op), now, fuel);
        } else {
          p := CopyAndVerifyFile(op, TargetPath(op), now);
        }
    }
  }

  /** `createSymlink`: one `symlink` step that removes the original and links its path
      to the copy. It fails when the copy is not there once the original is gone. */
  method CreateSymlink(op: AddOp, now: nat) returns (p: Phase)
    ensures op.ctx.entry.None? ==> p == Phase(op, Some(NilDereference))
    ensures Full(op.ctx) ==>
      && Continues(op, p.op)
      && Appends(op.ctx.entry.value, p.op.ctx.entry.value, [SymlinkPlan(op.path, TargetPath(op))], p.err.None?)
    ensures Full(op.ctx) && TargetPath(op) in op.fs.files && !AtOrBelow(TargetPath(op), op.path) ==> p.err.None?
    ensures Full(op.ctx) && p.err.Some? ==> p.err == Some(SymlinkFailed(ErrNotExist))
    ensures Full(op.ctx) && p.err.None? ==> op.path in p.op.fs.files
  {
    if op.ctx.entry.None? {
      return Phase(op, Some(NilDereference));
    }
    var pl := SymlinkPlan(op.path, TargetPath(op));
    var b := Begin(op, pl, now);
    if b.Err? {
      return Phase(op, Some(b.error));
    }
    var (op1, h) := b.value;
    var a := LinkWork(op1.fs, op.path, TargetPath(op));
    p := EndStep(op, op1, h, pl, a, now);
  }

  /** `gitAdd`: one `git` step whose outcome is the repository's. */
  method GitAdd(op: AddOp, git: GitOutcome, now: nat) returns (p: Phase)
    ensures !Full(op.ctx) ==> p == Phase(op, Some(JournalFailed(LookupError(op.ctx))))
    ensures Full(op.ctx) ==>
      && Continues(op, p.op)
      && Appends(op.ctx.entry.value, p.op.ctx.entry.value, [GitPlan(op.path)], p.err.None?)
      && (p.err.None? <==> git.GitOk?)
      && (p.err.Some? ==> p.err == Some(GitFailed(git)))
  {
    var pl := GitPlan(op.path);
    var b := Begin(op, pl, now);
    if b.Err? {
      return Phase(op, Some(b.error));
    }
    var (op1, h) := b.value;
    var a := GitWork(op1.fs, git);
    p := EndStep(op, op1, h, pl, a, now);
  }

  /** `complete`: `CompleteEntry` moves the entry to `completed`. */
  method Complete(op: AddOp) returns (p: Phase)
    ensures !Full(op.ctx) ==> p == Phase(op, Some(JournalFailed(LookupError(op.ctx))))
    ensures Full(op.ctx) ==>
      && Continues(op, p.op) && p.err.None?
      && p.op.ctx.entry.value == op.ctx.entry.value.(state := StateCompleted)
  {
    match CompleteEntry(op.ctx, op.fs) {
      case Err(e) =>
        p := Phase(op, Some(JournalFailed(e)));
      case Ok(o) =>
        p := Phase(Apply(op, o), None);
    }
  }

  /** `createSymlink`, then `gitAdd` if the link was made. */
  method LinkAndStage(op: AddOp, git: GitOutcome, now: nat) returns (p: Phase)
    ensures Full(op.ctx) ==>
      && Continues(op, p.op)
      && Appends(op.ctx.entry.value, p.op.ctx.entry.value, [SymlinkPlan(op.path, TargetPath(op)), GitPlan(op.path)], p.err.None?)
      && (p.err.Some? ==> p.err.value.SymlinkFailed? || p.err.value.GitFailed?)
  {
    p := CreateSymlink(op, now);
    if !Full(op.ctx) {
      return;
    }
    var pls := [SymlinkPlan(op.path, TargetPath(op)), GitPlan(op.path)];
    if p.err.Some? {
      PairAppends(op.ctx.entry.value, p.op.ctx.entry.value, p.op.ctx.entry.value, pls, false, false);
      return;
    }
    var p2 := GitAdd(p.op, git, now);
    PairAppends(op.ctx.entry.value, p.op.ctx.entry.value, p2.op.ctx.entry.value, pls, true, p2.err.None?);
    p := p2;
  }

  /** `copyAndVerify`, `createSymlink` and `gitAdd` on a source that exists; `isDir` is
      the kind `copyAndVerify` found it to be. */
  method CopyLinkAndStage(op: AddOp, git: GitOutcome, now: nat, fuel: nat) returns (p: Phase, isDir: bool)
    ensures isDir == (op.path in op.fs.files && op.fs.files[op.path].mode.dir)
    ensures Full(op.ctx) && op.path in op.fs.files ==>
      var target := TargetPath(op);
      && Continues(op, p.op)
      && Appends(op.ctx.entry.value, p.op.ctx.entry.value,
                 CopyPlan(op.path, target, isDir) + [SymlinkPlan(op.path, target), GitPlan(op.path)], p.err.None?)
      && (p.err.Some? ==> !p.err.value.JournalFailed? && !p.err.value.NilDereference?)
  {
    isDir := op.path in op.fs.files && op.fs.files[op.path].mode.dir;
    p := CopyAndVerify(op, now, fuel);
    if !(Full(op.ctx) && op.path in op.fs.files) {
      return;
    }
    var target := TargetPath(op);
    var c := CopyPlan(op.path, target, isDir);
    var rest := [SymlinkPlan(op.path, target), GitPlan(op.path)];
    if p.err.Some? {
      AppendsWidens(op.ctx.entry.value, p.op.ctx.entry.value, c, rest);
      return;
    }
    var p2 := LinkAndStage(p.op, git, now);
    AppendsChain(op.ctx.entry.value, p.op.ctx.entry.value, p2.op.ctx.entry.value, c, rest, p2.err.None?);
    p := p2;
  }

  /** The four phases that record steps, `verifySource` to `gitAdd`. */
  method RecordSteps(op: AddOp, git: GitOutcome, now: nat, fuel: nat) returns (p: Phase, isDir: bool)
    ensures !Full(op.ctx) ==> p == Phase(op, Some(JournalFailed(LookupError(op.ctx))))
    ensures Full(op.ctx) ==>
      && Continues(op, p.op)
      && Appends(op.ctx.entry.value, p.op.ctx.entry.value, AddPlan(op.path, TargetPath(op), isDir), p.err.None?)
      && (p.err.Some? ==> !p.err.value.JournalFailed? && !p.err.value.NilDereference?)
  {
    p := VerifySource(op, now);
    if !Full(op.ctx) {
      return p, false;
    }
    var target := TargetPath(op);
    var v := [VerifyPlan(op.path)];
    if p.err.Some? {
      AppendsWidens(op.ctx.entry.value, p.op.ctx.entry.value, v, CopyPlan(op.path, target, false) + [SymlinkPlan(op.path, target), GitPlan(op.path)]);
      AddPlanSplits(op.path, target, false);
      return p, false;
    }
    var p2;
    p2, isDir := CopyLinkAndStage(p.op, git, now, fuel);
    var tail := CopyPlan(op.path, target, isDir) + [SymlinkPlan(op.path, target), GitPlan(op.path)];
    AppendsChain(op.ctx.entry.value, p.op.ctx.entry.value, p2.op.ctx.entry.value, v, tail, p2.err.None?);
    AddPlanSplits(op.path, target, isDir);
    p := p2;
  }

  /** `run`: the phases in order, stopping at the first error. A path outside the home
      directory ends the run before anything is written. Otherwise the run leaves an
      `add` entry whose steps follow the plan for the kind of the source: all of it,
      completed, and the entry `completed` when the run succeeded; a prefix whose last
      step failed, and the entry `failed`, when it did not. Between steps no step is
      running, and no error of the journal helpers and no nil dereference can occur. */
  method Run(path: string, dotmanDir: string, fs: MockFileSystem, now: nat, git: GitOutcome, fuel: nat)
    returns (p: Phase)
    ensures !Within(fs.homeDir, path) ==> p.err.Some? && p.op == AddOp(path, dotmanDir, OpContext(None, None), fs)
    ensures Within(fs.homeDir, path) ==>
      && p.op.ctx.entry.Some?
      && var e := p.op.ctx.entry.value;
      && var target := Join([dotmanDir, "data", e.target]);
      && e.operation == OpAdd && e.source == path && e.target == MockFs.Rel(fs, fs.homeDir, path).value
      && e.state == (if p.err.None? then StateCompleted else StateFailed)
      && (Logged(e.steps, AddPlan(path, target, true), p.err.None?) || Logged(e.steps, AddPlan(path, target, false), p.err.None?))
      && Quiescent(e)
    ensures Within(fs.homeDir, path) && p.err.Some? ==> !p.err.value.JournalFailed? && !p.err.value.NilDereference?
  {
    p := Initialize(path, dotmanDir, fs, now);
    if p.err.Some? {
      return;
    }
    var e0 := p.op.ctx.entry.value;
    var p2, isDir := RecordSteps(p.op, git, now, fuel);
    var e := p2.op.ctx.entry.value;
    AppendsFromEmpty(e0, e, AddPlan(path, TargetPath(p.op), isDir), p2.err.None?);
    AppendsQuiescent(e0, e, AddPlan(path, TargetPath(p.op), isDir), p2.err.None?);
    if p2.err.Some? {
      return p2;
    }
    p := Complete(p2.op);
  }
}
