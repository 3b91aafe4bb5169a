/** The `journal` command of cmd/journal.go: it validates its `--state` and
    `--operation` filters, lists the journal's entries for the states asked for (all of
    them when none is), keeps those of the operations asked for, and shows them newest
    last-listed first, or a message naming the filters when none is left.

    The configuration is left out: the journal lives below the dotman directory that is
    given. Printing is left out: what the command shows is the list of entries in the
    order it prints them, or the message it prints. */
module JournalCmd {
  import opened Wrappers
  import opened Paths
  import opened MockFs
  import opened Entries
  import opened Journal

  /** The errors of the command, one per message of cmd/journal.go. */
  datatype CmdError =
    | InvalidState(state: string)                      // "invalid state '<s>'. Valid states are: ..."
    | InvalidOperation(operation: string)              // "invalid operation '<o>'. Valid operations are: ..."
    | ListFailed(cause: JournalError)                  // "error listing journal entries: ..."
    | ListStateFailed(failedState: string, stateCause: JournalError) // "... for state '<s>': ..."

  /** What the command shows: the entries, in the order it prints them, or a message. */
  datatype Shown = Listing(entries: seq<Entry>) | Message(text: string)

  const ValidStates: set<string> := {"current", "completed", "failed"}
  const ValidOperations: set<string> := {"add", "remove", "link"}

  /** The closed sets are the names of the journal's entry states and operation types. */
  lemma ValidSetsAreTheNames(s: string)
    ensures s in ValidStates <==> EntryStateFromName(s).Some?
    ensures s in ValidOperations <==> OperationTypeFromName(s).Some?
  {
  }

  // ---- PreRunE ----

  /** The index of the first of `xs` outside `valid`, if any. */
  function FirstOutside(xs: seq<string>, valid: set<string>): (r: Option<nat>)
    ensures r.None? <==> forall i :: 0 <= i < |xs| ==> xs[i] in valid
    ensures r.Some? ==> r.value < |xs| && xs[r.value] !in valid
                        && forall j :: 0 <= j < r.value ==> xs[j] in valid
    decreases |xs|
  {
    if xs == [] then None
    else if xs[0] !in valid then Some(0)
    else match FirstOutside(xs[1..], valid)
      case None => None
      case Some(k) => Some(k + 1)
  }

  /** `PreRunE`: the first state filter that names no state is an error; then the first
      operation filter that names no operation. */
  function Validate(stateFilters: seq<string>, operationFilters: seq<string>): (r: Option<CmdError>)
    ensures r.None? <==> (forall i :: 0 <= i < |stateFilters| ==> stateFilters[i] in ValidStates)
                         && (forall i :: 0 <= i < |operationFilters| ==> operationFilters[i] in ValidOperations)
    ensures r.Some? && r.value.InvalidState? ==>
              exists i :: 0 <= i < |stateFilters| && stateFilters[i] == r.value.state && r.value.state !in ValidStates
    ensures r.Some? && r.value.InvalidOperation? ==>
              (forall i :: 0 <= i < |stateFilters| ==> stateFilters[i] in ValidStates)
              && exists i :: 0 <= i < |operationFilters| && operationFilters[i] == r.value.operation
                             && r.value.operation !in ValidOperations
    ensures r.Some? ==> r.value.InvalidState? || r.value.InvalidOperation?
  {
    match FirstOutside(stateFilters, ValidStates)
    case Some(i) => Some(InvalidState(stateFilters[i]))
    case None =>
      match FirstOutside(operationFilters, ValidOperations)
      case Some(i) => Some(InvalidOperation(operationFilters[i]))
      case None => None
  }

  // ---- listing by state ----

  /** How the command lists one state's entries: the journal manager's `ListEntries`.
      The listing steps below take it as a parameter. */
  function Lister(m: Manager, fs: MockFileSystem): string -> Result<seq<Entry>, JournalError> {
    s => ListEntries(m, fs, s)
  }

  /** The listings of `states` one after the other, when each succeeds. */
  function Concatenated(list: string -> Result<seq<Entry>, JournalError>, states: seq<string>): seq<Entry>
    requires forall i :: 0 <= i < |states| ==> list(states[i]).Ok?
    decreases |states|
  {
    if states == [] then []
    else list(states[0]).value + Concatenated(list, states[1..])
  }

  /** Every entry listed for one of the states is in their concatenation. */
  lemma {:induction false} ConcatenatedHasEach(list: string -> Result<seq<Entry>, JournalError>, states: seq<string>, i: nat, x: Entry)
    requires forall j :: 0 <= j < |states| ==> list(states[j]).Ok?
    requires i < |states| && x in list(states[i]).value
    ensures x in Concatenated(list, states)
    decreases |states|
  {
    if i > 0 {
      ConcatenatedHasEach(list, states[1..], i - 1, x);
    }
  }

  /** `ConcatEach` over one lister agrees with `Concatenated` over another that lists
      the same entries for each state. */
  lemma {:induction false} ConcatEachAgrees(states: seq<string>, each: string -> Result<seq<Entry>, JournalError>,
                                            list: string -> Result<seq<Entry>, JournalError>)
    requires forall i :: 0 <= i < |states| ==> (list(states[i]).Ok? <==> each(states[i]).Ok?)
    requires forall i :: 0 <= i < |states| && list(states[i]).Ok? ==> list(states[i]).value == each(states[i]).value
    ensures ConcatEach(states, each).Ok? <==> forall i :: 0 <= i < |states| ==> list(states[i]).Ok?
    ensures ConcatEach(states, each).Ok? ==> ConcatEach(states, each).value == Concatenated(list, states)
    decreases |states|
  {
    if states != [] {
      ConcatEachAgrees(states[1..], each, list);
    }
  }

  /** A named state's listing is its partition's listing. */
  lemma OneStateIsItsPartition(m: Manager, fs: MockFileSystem, s: string)
    requires s != ""
    ensures ListEntries(m, fs, s).Ok? <==> PartitionLister(m, fs)(s).Ok?
    ensures ListEntries(m, fs, s).Ok? ==> ListEntries(m, fs, s).value == PartitionLister(m, fs)(s).value
  {
    assert ListedStates(s) == [s] && [s][1..] == [];
  }

  /** The three partitions' listings by name agree with their listings by directory. */
  lemma PartitionsAgree(m: Manager, fs: MockFileSystem)
    ensures forall i :: 0 <= i < |SubDirs| ==> (Lister(m, fs)(SubDirs[i]).Ok? <==> PartitionLister(m, fs)(SubDirs[i]).Ok?)
    ensures forall i :: 0 <= i < |SubDirs| && Lister(m, fs)(SubDirs[i]).Ok? ==>
              Lister(m, fs)(SubDirs[i]).value == PartitionLister(m, fs)(SubDirs[i]).value
  {
    forall i | 0 <= i < |SubDirs|
      ensures Lister(m, fs)(SubDirs[i]).Ok? <==> PartitionLister(m, fs)(SubDirs[i]).Ok?
      ensures Lister(m, fs)(SubDirs[i]).Ok? ==> Lister(m, fs)(SubDirs[i]).value == PartitionLister(m, fs)(SubDirs[i]).value
    {
      OneStateIsItsPartition(m, fs, SubDirs[i]);
    }
  }

  /** Listing without a state filter lists the three partitions in the order current,
      completed, failed: the same as filtering by all three states in that order. */
  lemma NoFilterIsEveryState(m: Manager, fs: MockFileSystem)
    ensures ListEntries(m, fs, "").Ok? <==> forall i :: 0 <= i < |SubDirs| ==> Lister(m, fs)(SubDirs[i]).Ok?
    ensures ListEntries(m, fs, "").Ok? ==> ListEntries(m, fs, "").value == Concatenated(Lister(m, fs), SubDirs)
  {
    PartitionsAgree(m, fs);
    ConcatEachAgrees(SubDirs, PartitionLister(m, fs), Lister(m, fs));
  }

  /** The RunE listing: with no state filter, everything listed for ""; otherwise each
      filter's listing in turn, appended, the first failure stopping the listing. */
  method ListByState(list: string -> Result<seq<Entry>, JournalError>, stateFilters: seq<string>)
    returns (r: Result<seq<Entry>, CmdError>)
    ensures stateFilters == [] ==>
              (r.Ok? <==> list("").Ok?)
              && (r.Ok? ==> r.value == list("").value)
              && (r.Err? ==> r.error == ListFailed(list("").error))
    ensures stateFilters != [] ==>
              (r.Ok? <==> forall i :: 0 <= i < |stateFilters| ==> list(stateFilters[i]).Ok?)
    ensures stateFilters != [] && r.Ok? ==> r.value == Concatenated(list, stateFilters)
    ensures stateFilters != [] && r.Err? ==>
              exists k :: 0 <= k < |stateFilters|
                && (forall j :: 0 <= j < k ==> list(stateFilters[j]).Ok?)
                && list(stateFilters[k]).Err?
                && r.error == ListStateFailed(stateFilters[k], list(stateFilters[k]).error)
  {
    if stateFilters == [] {
      var all := list("");
      if all.Err? {
        return Err(ListFailed(all.error));
      }
      return Ok(all.value);
    }
    var acc: seq<Entry> := [];
    var i := 0;
    while i < |stateFilters|
      invariant 0 <= i <= |stateFilters|
      invariant forall j :: 0 <= j < i ==> list(stateFilters[j]).Ok?
      invariant (forall j :: i <= j < |stateFilters| ==> list(stateFilters[j]).Ok?) ==>
                  acc + Concatenated(list, stateFilters[i..]) == Concatenated(list, stateFilters)
    {
      var listed := list(stateFilters[i]);
      if listed.Err? {
        return Err(ListStateFailed(stateFilters[i], listed.error));
      }
      assert stateFilters[i..][1..] == stateFilters[i + 1..];
      acc := acc + listed.value;
      i := i + 1;
    }
    assert stateFilters[i..] == [];
    r := Ok(acc);
  }

  // ---- the operation filter ----

  predicate Matches(e: Entry, operationFilters: seq<string>) {
    e.operation.Name() in operationFilters
  }

  /** The entries of `es` whose operation one of the filters names, in their order. */
  function Kept(es: seq<Entry>, operationFilters: seq<string>): seq<Entry>
    decreases |es|
  {
    if es == [] then []
    else (if Matches(es[0], operationFilters) then [es[0]] else []) + Kept(es[1..], operationFilters)
  }

  /** Filtering splits over appended lists, so it keeps the listing's order. */
  lemma {:induction false} KeptAppend(a: seq<Entry>, b: seq<Entry>, operationFilters: seq<string>)
    ensures Kept(a + b, operationFilters) == Kept(a, operationFilters) + Kept(b, operationFilters)
    decreases |a|
  {
    if a == [] {
      assert a + b == b;
    } else {
      assert (a + b)[0] == a[0] && (a + b)[1..] == a[1..] + b;
      KeptAppend(a[1..], b, operationFilters);
    }
  }

  /** Each occurrence of an entry that matches is kept exactly once, however many
      filters name its operation; an entry that does not match is dropped. */
  lemma {:induction false} KeptCounts(es: seq<Entry>, operationFilters: seq<string>, x: Entry)
    ensures multiset(Kept(es, operationFilters))[x] == if Matches(x, operationFilters) then multiset(es)[x] else 0
    decreases |es|
  {
    if es != [] {
      KeptCounts(es[1..], operationFilters, x);
      assert es == [es[0]] + es[1..];
    }
  }

  /** The RunE operation filter: with filters, each entry is appended once, at the first
      filter that names its operation; without, all entries stay. */
  method FilterByOperation(es: seq<Entry>, operationFilters: seq<string>) returns (r: seq<Entry>)
    ensures operationFilters == [] ==> r == es
    ensures operationFilters != [] ==> r == Kept(es, operationFilters)
  {
    if operationFilters == [] {
      return es;
    }
    r := [];
    var i := 0;
    while i < |es|
      invariant 0 <= i <= |es|
      invariant r + Kept(es[i..], operationFilters) == Kept(es, operationFilters)
    {
      var j := 0;
      while j < |operationFilters|
        invariant 0 <= j <= |operationFilters|
        invariant forall k :: 0 <= k < j ==> operationFilters[k] != es[i].operation.Name()
      {
        if es[i].operation.Name() == operationFilters[j] {
          r := r + [es[i]];
          break;
        }
        j := j + 1;
      }
      assert es[i..] == [es[i]] + es[i + 1..];
      i := i + 1;
    }
    assert es[i..] == [];
  }

  // ---- output ----

  /** `s` backwards. */
  function Reversed<T>(s: seq<T>): (r: seq<T>)
    ensures |r| == |s|
    ensures forall i :: 0 <= i < |s| ==> r[i] == s[|s| - 1 - i]
    decreases |s|
  {
    if s == [] then [] else Reversed(s[1..]) + [s[0]]
  }

  /** Reversing twice gives the list back. */
  lemma ReversedTwice<T>(s: seq<T>)
    ensures Reversed(Reversed(s)) == s
  {
  }

  /** The printing loop, from the last entry down to the first. */
  method DisplayOrder(es: seq<Entry>) returns (shown: seq<Entry>)
    ensures shown == Reversed(es)
  {
    shown := [];
    var i := |es|;
    while i > 0
      invariant 0 <= i <= |es|
      invariant |shown| == |es| - i
      invariant forall k :: 0 <= k < |shown| ==> shown[k] == es[|es| - 1 - k]
    {
      i := i - 1;
      shown := shown + [es[i]];
    }
  }

  const NoEntries: string := "No journal entries found"

  /** `strings.Join(xs, ", ")`. */
  function JoinComma(xs: seq<string>): string
    decreases |xs|
  {
    if xs == [] then "" else if |xs| == 1 then xs[0] else xs[0] + ", " + JoinComma(xs[1..])
  }

  /** `w` appears in `s` at position `k`. */
  predicate At(w: string, s: string, k: int) {
    0 <= k && k + |w| <= |s| && s[k..k + |w|] == w
  }

  /** `w` appears in `s` at some position. */
  ghost predicate Occurs(w: string, s: string) {
    exists k :: At(w, s, k)
  }

  lemma OccursInAppend(w: string, a: string, b: string)
    ensures Occurs(w, a) ==> Occurs(w, a + b)
    ensures Occurs(w, b) ==> Occurs(w, a + b)
  {
    if Occurs(w, a) {
      var k :| At(w, a, k);
      assert (a + b)[k..k + |w|] == a[k..k + |w|];
      assert At(w, a + b, k);
    }
    if Occurs(w, b) {
      var k :| At(w, b, k);
      assert (a + b)[|a| + k..|a| + k + |w|] == b[k..k + |w|];
      assert At(w, a + b, |a| + k);
    }
  }

  /** Every joined name appears in the joined text. */
  lemma {:induction false} JoinCommaHasEach(xs: seq<string>, i: nat)
    requires i < |xs|
    ensures Occurs(xs[i], JoinComma(xs))
    decreases |xs|
  {
    if |xs| == 1 {
      assert JoinComma(xs)[0..|xs[0]|] == xs[0];
      assert At(xs[0], JoinComma(xs), 0);
    } else if i == 0 {
      assert JoinComma(xs) == xs[0] + (", " + JoinComma(xs[1..]));
      assert JoinComma(xs)[0..|xs[0]|] == xs[0];
      assert At(xs[0], JoinComma(xs), 0);
    } else {
      JoinCommaHasEach(xs[1..], i - 1);
      OccursInAppend(xs[i], xs[0] + ", ", JoinComma(xs[1..]));
      assert JoinComma(xs) == (xs[0] + ", ") + JoinComma(xs[1..]);
    }
  }

  lemma MessageNamesState(stateFilters: seq<string>, operationFilters: seq<string>, i: nat)
    requires i < |stateFilters|
    ensures Occurs(stateFilters[i], MessageText(stateFilters, operationFilters))
  {
    NamedBeforeSuffix(stateFilters, i, NoEntries + InStates, OpsPart(operationFilters));
    Assoc(NoEntries, InStates, JoinComma(stateFilters));
  }

  lemma MessageNamesOperation(stateFilters: seq<string>, operationFilters: seq<string>, i: nat)
    requires i < |operationFilters|
    ensures Occurs(operationFilters[i], MessageText(stateFilters, operationFilters))
  {
    var head := NoEntries + StatesPart(stateFilters);
    NamedBeforeSuffix(operationFilters, i, head + WithOps, "");
    Assoc(head, WithOps, JoinComma(operationFilters));
    assert head + WithOps + JoinComma(operationFilters) + "" == head + WithOps + JoinComma(operationFilters);
  }

  /** A joined name stays visible whatever text surrounds the joined list. */
  lemma NamedBeforeSuffix(xs: seq<string>, i: nat, head: string, tail: string)
    requires i < |xs|
    ensures Occurs(xs[i], head + JoinComma(xs) + tail)
  {
    JoinCommaHasEach(xs, i);
    OccursInAppend(xs[i], head, JoinComma(xs));
    OccursInAppend(xs[i], head + JoinComma(xs), tail);
  }

  lemma Assoc(a: string, b: string, c: string)
    ensures a + (b + c) == a + b + c
  {
  }

  const InStates: string := " in states: "
  const WithOps: string := " with operations: "

  /** The suffix naming the state filters, when there are any. */
  function StatesPart(stateFilters: seq<string>): string {
    if stateFilters != [] then InStates + JoinComma(stateFilters) else ""
  }

  /** The suffix naming the operation filters, when there are any. */
  function OpsPart(operationFilters: seq<string>): string {
    if operationFilters != [] then WithOps + JoinComma(operationFilters) else ""
  }

  /** The message text, put together. */
  function MessageText(stateFilters: seq<string>, operationFilters: seq<string>): string {
    NoEntries + StatesPart(stateFilters) + OpsPart(operationFilters)
  }

  predicate StartsWith(s: string, p: string) {
    |p| <= |s| && s[..|p|] == p
  }

  predicate EndsWith(s: string, p: string) {
    |p| <= |s| && s[|s| - |p|..] == p
  }

  /** How a text of three parts begins, continues and ends. */
  lemma Layout(a: string, b: string, c: string)
    ensures StartsWith(a + b + c, a)
    ensures StartsWith((a + b + c)[|a|..], b)
    ensures EndsWith(a + b + c, c)
    ensures StartsWith(a + b + c, a + b)
  {
    assert (a + b + c)[..|a|] == a;
    assert (a + b + c)[|a|..][..|b|] == b;
    assert (a + b + c)[|a + b + c| - |c|..] == c;
    assert (a + b + c)[..|a + b|] == a + b;
  }

  /** The message for an empty result: a suffix naming the states, then one naming the
      operations, each only when there are such filters. */
  function EmptyMessage(stateFilters: seq<string>, operationFilters: seq<string>): (r: string)
    ensures StartsWith(r, NoEntries)
    ensures r == NoEntries <==> stateFilters == [] && operationFilters == []
    ensures stateFilters != [] ==> StartsWith(r, NoEntries + InStates)
    ensures stateFilters == [] && operationFilters != [] ==> StartsWith(r, NoEntries + WithOps)
    ensures stateFilters != [] ==> StartsWith(r[|NoEntries|..], InStates + JoinComma(stateFilters))
    ensures stateFilters != [] && operationFilters == [] ==> r == NoEntries + InStates + JoinComma(stateFilters)
    ensures operationFilters != [] ==> EndsWith(r, WithOps + JoinComma(operationFilters))
    ensures forall i :: 0 <= i < |stateFilters| ==> Occurs(stateFilters[i], r)
    ensures forall i :: 0 <= i < |operationFilters| ==> Occurs(operationFilters[i], r)
  {
    MessageShape(stateFilters, operationFilters);
    MessageNamesFilters(stateFilters, operationFilters);
    MessageText(stateFilters, operationFilters)
  }

  lemma MessageShape(stateFilters: seq<string>, operationFilters: seq<string>)
    ensures var r := MessageText(stateFilters, operationFilters);
      && StartsWith(r, NoEntries)
      && (r == NoEntries <==> stateFilters == [] && operationFilters == [])
      && (stateFilters != [] ==> StartsWith(r, NoEntries + InStates))
      && (stateFilters == [] && operationFilters != [] ==> StartsWith(r, NoEntries + WithOps))
      && (stateFilters != [] ==> StartsWith(r[|NoEntries|..], InStates + JoinComma(stateFilters)))
      && (stateFilters != [] && operationFilters == [] ==> r == NoEntries + InStates + JoinComma(stateFilters))
      && (operationFilters != [] ==> EndsWith(r, WithOps + JoinComma(operationFilters)))
  {
    var s, o := StatesPart(stateFilters), OpsPart(operationFilters);
    var r := NoEntries + s + o;
    Layout(NoEntries, s, o);
    if stateFilters != [] {
      Assoc(NoEntries, InStates, JoinComma(stateFilters));
      Layout(NoEntries + InStates, JoinComma(stateFilters), o);
      if operationFilters == [] {
        assert r == NoEntries + s;
      }
    } else if operationFilters != [] {
      assert r == NoEntries + o;
      Layout(NoEntries, WithOps, JoinComma(operationFilters));
      Assoc(NoEntries, WithOps, JoinComma(operationFilters));
    }
    assert |NoEntries + s + o| == |NoEntries| + |s| + |o|;
  }

  lemma MessageNamesFilters(stateFilters: seq<string>, operationFilters: seq<string>)
    ensures forall i :: 0 <= i < |stateFilters| ==> Occurs(stateFilters[i], MessageText(stateFilters, operationFilters))
    ensures forall i :: 0 <= i < |operationFilters| ==> Occurs(operationFilters[i], MessageText(stateFilters, operationFilters))
  {
    forall i | 0 <= i < |stateFilters|
      ensures Occurs(stateFilters[i], MessageText(stateFilters, operationFilters))
    {
      MessageNamesState(stateFilters, operationFilters, i);
    }
    forall i | 0 <= i < |operationFilters|
      ensures Occurs(operationFilters[i], MessageText(stateFilters, operationFilters))
    {
      MessageNamesOperation(stateFilters, operationFilters, i);
    }
  }

  /** Whether every listing the state filters ask for succeeds. */
  predicate ListsOk(list: string -> Result<seq<Entry>, JournalError>, stateFilters: seq<string>) {
    if stateFilters == [] then list("").Ok?
    else forall i :: 0 <= i < |stateFilters| ==> list(stateFilters[i]).Ok?
  }

  /** The entries the filters select, in listing order: all the states' entries, or the
      filtered states' in filter order; then those of the filtered operations. */
  function Selected(list: string -> Result<seq<Entry>, JournalError>, stateFilters: seq<string>,
                    operationFilters: seq<string>): seq<Entry>
    requires ListsOk(list, stateFilters)
  {
    var listed := if stateFilters == [] then list("").value else Concatenated(list, stateFilters);
    if operationFilters == [] then listed else Kept(listed, operationFilters)
  }

  /** The journal of the dotman directory `dotmanDir`. */
  function JournalManager(dotmanDir: string): Manager {
    Manager(Join([dotmanDir, "journal"]))
  }

  /** The command: `PreRunE`, then `RunE` on the journal below `dotmanDir`. It fails on
      an invalid filter or a failed listing; otherwise it shows the selected entries
      last-listed first, or, when none is selected, the message naming the filters. */
  method ShowJournal(dotmanDir: string, fs: MockFileSystem, stateFilters: seq<string>, operationFilters: seq<string>)
    returns (r: Result<Shown, CmdError>)
    ensures Validate(stateFilters, operationFilters).Some? ==> r == Err(Validate(stateFilters, operationFilters).value)
    ensures r.Ok? <==> Validate(stateFilters, operationFilters).None?
                       && ListsOk(Lister(JournalManager(dotmanDir), fs), stateFilters)
    ensures r.Err? && Validate(stateFilters, operationFilters).None? ==>
              r.error.ListFailed? || r.error.ListStateFailed?
    ensures r.Ok? ==>
              var selected := Selected(Lister(JournalManager(dotmanDir), fs), stateFilters, operationFilters);
              r.value == if selected == [] then Message(EmptyMessage(stateFilters, operationFilters))
                         else Listing(Reversed(selected))
  {
    var invalid := Validate(stateFilters, operationFilters);
    if invalid.Some? {
      return Err(invalid.value);
    }
    var list := Lister(JournalManager(dotmanDir), fs);
    var listed := ListByState(list, stateFilters);
    if listed.Err? {
      return Err(listed.error);
    }
    var kept := FilterByOperation(listed.value, operationFilters);
    if kept == [] {
      return Ok(Message(EmptyMessage(stateFilters, operationFilters)));
    }
    var shown := DisplayOrder(kept);
    r := Ok(Listing(shown));
  }
}
