/** The step and entry lifecycle of internal/journal/journal.go: the helpers a command
    calls, through its context, to record each step of an operation and to end the
    operation. The context is an explicit record; a step handle is the index of the step
    in the entry's step list; the entry the source mutates in place is returned, with the
    filesystem, as the `Outcome` of each call. */
module Lifecycle {
  import opened Wrappers
  import opened Paths
  import opened MockFs
  import opened Entries
  import opened Journal

  /** What a command's context carries: the journal manager and the entry of the running
      operation. Either may be missing. */
  datatype OpContext = OpContext(manager: Option<Manager>, entry: Option<Entry>)

  /** The entry and the filesystem after a lifecycle call. */
  datatype Outcome = Outcome(entry: Entry, fs: MockFileSystem)

  /** `GetJournalManager`. */
  function GetJournalManager(ctx: OpContext): (r: Result<Manager, JournalError>)
    ensures r.Ok? <==> ctx.manager.Some?
    ensures r.Ok? ==> r.value == ctx.manager.value
    ensures r.Err? ==> r.error == ManagerNotFound
  {
    if ctx.manager.Some? then Ok(ctx.manager.value) else Err(ManagerNotFound)
  }

  /** `GetJournalEntry`. */
  function GetJournalEntry(ctx: OpContext): (r: Result<Entry, JournalError>)
    ensures r.Ok? <==> ctx.entry.Some?
    ensures r.Ok? ==> r.value == ctx.entry.value
    ensures r.Err? ==> r.error == EntryNotInContext
  {
    if ctx.entry.Some? then Ok(ctx.entry.value) else Err(EntryNotInContext)
  }

  /** The lookups that open `StartStep`, `CompleteStep`, `FailStep`, `FailEntry` and
      `CompleteEntry`: the entry first, then the manager. */
  function Lookup(ctx: OpContext): (r: Result<(Entry, Manager), JournalError>)
    ensures ctx.entry.None? ==> r == Err(EntryNotInContext)
    ensures ctx.entry.Some? && ctx.manager.None? ==> r == Err(ManagerNotFound)
    ensures ctx.entry.Some? && ctx.manager.Some? ==> r == Ok((ctx.entry.value, ctx.manager.value))
  {
    var e :- GetJournalEntry(ctx);
    var m :- GetJournalManager(ctx);
    Ok((e, m))
  }

  /** The error `Lookup` reports when it fails. */
  function LookupError(ctx: OpContext): JournalError {
    if ctx.entry.None? then EntryNotInContext else ManagerNotFound
  }

  /** A step is over once it completed or failed. */
  predicate Settled(s: Step) {
    s.status == StepCompleted || s.status == StepFailed
  }

  /** `e2` is `e` with step `h` replaced by `s` and nothing else changed. */
  predicate ReplacesStep(e: Entry, e2: Entry, h: nat, s: Step) {
    && h < |e.steps| && |e2.steps| == |e.steps|
    && e2.steps[h] == s
    && (forall j :: 0 <= j < |e.steps| && j != h ==> e2.steps[j] == e.steps[j])
    && e2.(steps := e.steps) == e
  }

  /** `e2` was saved by `UpdateEntry`: it is read back from its state's file, and no
      other file changed. */
  predicate Saved(m: Manager, fs: MockFileSystem, e2: Entry, fs2: MockFileSystem) {
    var k := EntryPath(m, e2.state.Name(), e2.id);
    && ReadEntry(fs2, k) == Ok(e2)
    && fs2.files.Keys == fs.files.Keys + {k}
    && (forall p :: p in fs.files && p != k ==> fs2.files[p] == fs.files[p])
    && fs2 == SaveEntry(m, fs, e2)
  }

  /** `JournalEntry.AddStep`: append a pending step to `e`, started at `now`, and save `e`.
      The handle is the new step's index. */
  function AddStep(ctx: OpContext, fs: MockFileSystem, e: Entry, stepType: StepType, description: string,
                   source: string, target: string, now: nat): (r: Result<(Outcome, nat), JournalError>)
    ensures r.Ok? <==> ctx.manager.Some?
    ensures r.Err? ==> r.error == ManagerNotFound
    ensures r.Ok? ==> var (o, h) := r.value;
      && h == |e.steps| && |o.entry.steps| == h + 1
      && o.entry.steps[..h] == e.steps
      && o.entry.steps[h] == Step(stepType, StepPending, "", description, source, target, "", now, 0)
      && o.entry.(steps := e.steps) == e
      && Saved(ctx.manager.value, fs, o.entry, o.fs)
  {
    var m :- GetJournalManager(ctx);
    var step := Step(stepType, StepPending, "", description, source, target, "", now, 0);
    var e2 := e.(steps := e.steps + [step]);
    assert e2.steps[..|e.steps|] == e.steps;
    Ok((Outcome(e2, SaveEntry(m, fs, e2)), |e.steps|))
  }

  /** `AddStepToCurrentEntry`: `AddStep` on the entry of the context. */
  function AddStepToCurrentEntry(ctx: OpContext, fs: MockFileSystem, stepType: StepType, description: string,
                                 source: string, target: string, now: nat): (r: Result<(Outcome, nat), JournalError>)
    ensures ctx.entry.None? ==> r == Err(EntryNotInContext)
    ensures ctx.entry.Some? ==> r == AddStep(ctx, fs, ctx.entry.value, stepType, description, source, target, now)
  {
    var e :- GetJournalEntry(ctx);
    AddStep(ctx, fs, e, stepType, description, source, target, now)
  }

  /** The common tail of the three step updates: replace step `h` of the context's entry
      by `s` and save the entry. */
  function UpdateStep(m: Manager, fs: MockFileSystem, e: Entry, h: nat, s: Step): (o: Outcome)
    requires h < |e.steps|
    ensures ReplacesStep(e, o.entry, h, s)
    ensures Saved(m, fs, o.entry, o.fs)
  {
    var e2 := e.(steps := e.steps[h := s]);
    Outcome(e2, SaveEntry(m, fs, e2))
  }

  /** `StartStep`: the step becomes `running`. */
  function StartStep(ctx: OpContext, fs: MockFileSystem, h: nat): (r: Result<Outcome, JournalError>)
    requires ctx.entry.Some? ==> h < |ctx.entry.value.steps|
    ensures r.Err? ==> r.error == LookupError(ctx)
    ensures r.Ok? <==> ctx.entry.Some? && ctx.manager.Some?
    ensures r.Ok? ==> var e := ctx.entry.value;
      && ReplacesStep(e, r.value.entry, h, e.steps[h].(status := StepRunning))
      && Saved(ctx.manager.value, fs, r.value.entry, r.value.fs)
  {
    var (e, m) :- Lookup(ctx);
    Ok(UpdateStep(m, fs, e, h, e.steps[h].(status := StepRunning)))
  }

  /** `CompleteStep`: the step becomes `completed`, with its details and end time. */
  function CompleteStep(ctx: OpContext, fs: MockFileSystem, h: nat, details: string, now: nat): (r: Result<Outcome, JournalError>)
    requires ctx.entry.Some? ==> h < |ctx.entry.value.steps|
    ensures r.Err? ==> r.error == LookupError(ctx)
    ensures r.Ok? <==> ctx.entry.Some? && ctx.manager.Some?
    ensures r.Ok? ==> var e := ctx.entry.value;
      && ReplacesStep(e, r.value.entry, h, e.steps[h].(status := StepCompleted, details := details, endTime := now))
      && Saved(ctx.manager.value, fs, r.value.entry, r.value.fs)
  {
    var (e, m) :- Lookup(ctx);
    Ok(UpdateStep(m, fs, e, h, e.steps[h].(status := StepCompleted, details := details, endTime := now)))
  }

  /** `FailStep`: the step becomes `failed`, with the error's text and its end time. */
  function FailStep(ctx: OpContext, fs: MockFileSystem, h: nat, errText: string, now: nat): (r: Result<Outcome, JournalError>)
    requires ctx.entry.Some? ==> h < |ctx.entry.value.steps|
    ensures r.Err? ==> r.error == LookupError(ctx)
    ensures r.Ok? <==> ctx.entry.Some? && ctx.manager.Some?
    ensures r.Ok? ==> var e := ctx.entry.value;
      && ReplacesStep(e, r.value.entry, h, e.steps[h].(status := StepFailed, error := errText, endTime := now))
      && Saved(ctx.manager.value, fs, r.value.entry, r.value.fs)
  {
    var (e, m) :- Lookup(ctx);
    Ok(UpdateStep(m, fs, e, h, e.steps[h].(status := StepFailed, error := errText, endTime := now)))
  }

  /** The tail of `FailEntry` and `CompleteEntry`: `UpdateEntry`, then `MoveEntry`. */
  function SaveThenMove(m: Manager, fs: MockFileSystem, e: Entry, target: EntryState): (o: Outcome)
    ensures o.entry == e.(state := target)
    ensures o.fs == MoveEntry(m, SaveEntry(m, fs, e), e, target).1
    ensures EntryPath(m, e.state.Name(), e.id) !in o.fs.files
    ensures EntryPath(m, target.Name(), e.id) != EntryPath(m, e.state.Name(), e.id) ==>
              ReadEntry(o.fs, EntryPath(m, target.Name(), e.id)) == Ok(o.entry)
  {
    var (moved, fs2) := MoveEntry(m, SaveEntry(m, fs, e), e, target);
    Outcome(moved, fs2)
  }

  /** `FailEntry`: an entry without steps is an error and nothing is written; otherwise
      only the last step fails, the entry is saved and then moved to `failed`. */
  function FailEntry(ctx: OpContext, fs: MockFileSystem, errText: string, now: nat): (r: Result<Outcome, JournalError>)
    ensures ctx.entry.Some? && ctx.manager.Some? && ctx.entry.value.steps == [] ==> r == Err(NoSteps)
    ensures r.Err? && r.error != NoSteps ==> r.error == LookupError(ctx)
    ensures r.Ok? <==> ctx.entry.Some? && ctx.manager.Some? && ctx.entry.value.steps != []
    ensures r.Ok? ==>
      var e := ctx.entry.value;
      var m := ctx.manager.value;
      var last := |e.steps| - 1;
      var failed := e.steps[last].(status := StepFailed, error := errText, endTime := now);
      && ReplacesStep(e.(state := StateFailed), r.value.entry, last, failed)
      && r.value == SaveThenMove(m, fs, e.(steps := e.steps[last := failed]), StateFailed)
  {
    var (e, m) :- Lookup(ctx);
    if e.steps == [] then Err(NoSteps)
    else
      var last := |e.steps| - 1;
      var failed := e.steps[last].(status := StepFailed, error := errText, endTime := now);
      Ok(SaveThenMove(m, fs, e.(steps := e.steps[last := failed]), StateFailed))
  }

  /** `CompleteEntry`: save the entry, then move it to `completed`. */
  function CompleteEntry(ctx: OpContext, fs: MockFileSystem): (r: Result<Outcome, JournalError>)
    ensures r.Err? ==> r.error == LookupError(ctx)
    ensures r.Ok? <==> ctx.entry.Some? && ctx.manager.Some?
    ensures r.Ok? ==> r.value == SaveThenMove(ctx.manager.value, fs, ctx.entry.value, StateCompleted)
  {
    var (e, m) :- Lookup(ctx);
    Ok(SaveThenMove(m, fs, e, StateCompleted))
  }
}
