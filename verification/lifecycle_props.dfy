/** Properties of the step lifecycle across calls: the protocol every recorded step
    follows (added, started, then completed or failed before the next is added) keeps
    at most one step running, and the lifecycle calls keep the journal well formed,
    ending an operation in the partition its outcome names. */
module LifecycleProps {
  import opened Wrappers
  import opened Paths
  import opened MockFs
  import opened Entries
  import opened Journal
  import opened JournalProps
  import opened Lifecycle

  // ---- the step protocol ----

  predicate Running(e: Entry, i: int) {
    0 <= i < |e.steps| && e.steps[i].status == StepRunning
  }

  /** No two steps of the entry are running. */
  predicate AtMostOneRunning(e: Entry) {
    forall i, j :: 0 <= i < |e.steps| && 0 <= j < |e.steps| && Running(e, i) && Running(e, j) ==> i == j
  }

  /** Between steps: every step has completed or failed. */
  predicate Quiescent(e: Entry) {
    forall j :: 0 <= j < |e.steps| ==> Settled(e.steps[j])
  }

  /** Inside a step: there is a step, and all steps before the last are over. */
  predicate InStep(e: Entry) {
    |e.steps| > 0 && forall j :: 0 <= j < |e.steps| - 1 ==> Settled(e.steps[j])
  }

  /** Both protocol states allow at most one running step, the last. */
  lemma ProtocolAtMostOneRunning(e: Entry)
    requires Quiescent(e) || InStep(e)
    ensures AtMostOneRunning(e)
    ensures forall i :: Running(e, i) ==> i == |e.steps| - 1
  {
    forall i | Running(e, i)
      ensures i == |e.steps| - 1
    {
      assert !Settled(e.steps[i]);
    }
  }

  /** Adding a step to a quiescent entry enters that step, with the new step pending. */
  lemma AddStepEnters(ctx: OpContext, fs: MockFileSystem, e: Entry, stepType: StepType, description: string,
                      source: string, target: string, now: nat)
    requires Quiescent(e)
    requires AddStep(ctx, fs, e, stepType, description, source, target, now).Ok?
    ensures var (o, h) := AddStep(ctx, fs, e, stepType, description, source, target, now).value;
      && InStep(o.entry) && h == |o.entry.steps| - 1 && o.entry.steps[h].status == StepPending
  {
    var (o, h) := AddStep(ctx, fs, e, stepType, description, source, target, now).value;
    forall j | 0 <= j < |o.entry.steps| - 1
      ensures Settled(o.entry.steps[j])
    {
      assert o.entry.steps[j] == o.entry.steps[..h][j] == e.steps[j];
    }
  }

  /** Starting the last step stays inside it. */
  lemma StartLastStays(ctx: OpContext, fs: MockFileSystem)
    requires ctx.entry.Some? && InStep(ctx.entry.value)
    requires StartStep(ctx, fs, |ctx.entry.value.steps| - 1).Ok?
    ensures InStep(StartStep(ctx, fs, |ctx.entry.value.steps| - 1).value.entry)
  {
  }

  /** Completing the last step leaves the entry quiescent. */
  lemma CompleteLastSettles(ctx: OpContext, fs: MockFileSystem, details: string, now: nat)
    requires ctx.entry.Some? && InStep(ctx.entry.value)
    requires CompleteStep(ctx, fs, |ctx.entry.value.steps| - 1, details, now).Ok?
    ensures Quiescent(CompleteStep(ctx, fs, |ctx.entry.value.steps| - 1, details, now).value.entry)
  {
    var e := ctx.entry.value;
    var e2 := CompleteStep(ctx, fs, |e.steps| - 1, details, now).value.entry;
    forall j | 0 <= j < |e2.steps|
      ensures Settled(e2.steps[j])
    {
      if j < |e.steps| - 1 {
        assert e2.steps[j] == e.steps[j];
      }
    }
  }

  /** Failing the entry inside a step leaves it quiescent. */
  lemma FailEntrySettles(ctx: OpContext, fs: MockFileSystem, errText: string, now: nat)
    requires ctx.entry.Some? && InStep(ctx.entry.value)
    requires FailEntry(ctx, fs, errText, now).Ok?
    ensures Quiescent(FailEntry(ctx, fs, errText, now).value.entry)
  {
    var e := ctx.entry.value;
    var e2 := FailEntry(ctx, fs, errText, now).value.entry;
    forall j | 0 <= j < |e2.steps|
      ensures Settled(e2.steps[j])
    {
      if j < |e.steps| - 1 {
        assert e2.steps[j] == e.steps[j];
      }
    }
  }

  // ---- the journal invariant ----

  /** Every step call (`AddStep`, `StartStep`, `CompleteStep`, `FailStep`) saves its entry
      with `UpdateEntry`; that keeps the journal well formed and stores the entry. */
  lemma SavedPreserves(m: Manager, fs: MockFileSystem, e: Entry, fs2: MockFileSystem)
    requires WellFormed(m, fs) && NoSep(e.id)
    requires Saved(m, fs, e, fs2)
    ensures WellFormed(m, fs2) && StoredEntry(m, fs2, e)
    ensures Initialized(m, fs) ==> Initialized(m, fs2)
  {
    SavePreserves(m, fs, e);
  }

  /** Ending an operation: saving the entry and moving it out of `current` into the
      terminal partition `target` keeps the journal well formed; the entry is then listed
      under `target` and no longer under `current`. */
  lemma SaveThenMoveToTerminal(m: Manager, fs: MockFileSystem, e: Entry, target: EntryState, o: Outcome)
    requires WellFormed(m, fs) && Initialized(m, fs)
    requires e.state == StateCurrent && target.Terminal() && NoSep(e.id)
    requires o == SaveThenMove(m, fs, e, target)
    ensures o.entry == e.(state := target)
    ensures && WellFormed(m, o.fs) && Initialized(m, o.fs)
      && StoredEntry(m, o.fs, o.entry)
      && EntryPath(m, "current", e.id) !in o.fs.files
      && ListEntries(m, o.fs, "current").Ok?
      && (forall x :: x in ListEntries(m, o.fs, "current").value ==> x.id != e.id)
      && ListEntries(m, o.fs, target.Name()).Ok?
      && o.entry in ListEntries(m, o.fs, target.Name()).value
  {
    SavePreserves(m, fs, e);
    MoveToTerminal(m, SaveEntry(m, fs, e), e, target);
  }

  /** `FailEntry` on a current entry with steps ends it stored in the `failed` partition
      and gone from `current`. */
  lemma FailEntryEndsFailed(ctx: OpContext, fs: MockFileSystem, errText: string, now: nat)
    requires ctx.manager.Some? && ctx.entry.Some?
    requires WellFormed(ctx.manager.value, fs) && Initialized(ctx.manager.value, fs)
    requires ctx.entry.value.state == StateCurrent && NoSep(ctx.entry.value.id) && ctx.entry.value.steps != []
    ensures FailEntry(ctx, fs, errText, now).Ok?
    ensures var m := ctx.manager.value;
      var o := FailEntry(ctx, fs, errText, now).value;
      && o.entry.state == StateFailed
      && WellFormed(m, o.fs) && Initialized(m, o.fs)
      && StoredEntry(m, o.fs, o.entry)
      && EntryPath(m, "current", o.entry.id) !in o.fs.files
  {
    var m := ctx.manager.value;
    var e := ctx.entry.value;
    var last := |e.steps| - 1;
    var failed := e.steps[last].(status := StepFailed, error := errText, endTime := now);
    var e1 := e.(steps := e.steps[last := failed]);
    SaveThenMoveToTerminal(m, fs, e1, StateFailed, FailEntry(ctx, fs, errText, now).value);
  }

  /** `CompleteEntry` on a current entry ends it stored in the `completed` partition and
      gone from `current`. */
  lemma CompleteEntryEndsCompleted(ctx: OpContext, fs: MockFileSystem)
    requires ctx.manager.Some? && ctx.entry.Some?
    requires WellFormed(ctx.manager.value, fs) && Initialized(ctx.manager.value, fs)
    requires ctx.entry.value.state == StateCurrent && NoSep(ctx.entry.value.id)
    ensures CompleteEntry(ctx, fs).Ok?
    ensures var m := ctx.manager.value;
      var o := CompleteEntry(ctx, fs).value;
      && o.entry == ctx.entry.value.(state := StateCompleted)
      && WellFormed(m, o.fs) && Initialized(m, o.fs)
      && StoredEntry(m, o.fs, o.entry)
      && EntryPath(m, "current", o.entry.id) !in o.fs.files
  {
    SaveThenMoveToTerminal(ctx.manager.value, fs, ctx.entry.value, StateCompleted, CompleteEntry(ctx, fs).value);
  }
}
