/** Properties of the journal that relate several operations: a well-formedness
    invariant of the journal directory (every `.json` file of a partition holds the
    entry whose path it is), its preservation by the writing operations, and what
    `ListEntries` and `GetEntry` then report, in particular after `MoveEntry`. */
module JournalProps {
  import opened Wrappers
  import opened Paths
  import StrOrder
  import opened MockFs
  import opened Entries
  import opened Codec
  import opened Journal

  // ---- path shapes ----

  /** Two paths with last elements `n` and `n2` are equal only when their parents and
      last elements are. */
  lemma LastElementSplit(a: string, n: string, b: string, n2: string)
    requires NoSep(n) && NoSep(n2)
    requires a + [Sep] + n == b + [Sep] + n2
    ensures a == b && n == n2
  {
    var s := a + [Sep] + n;
    var t := b + [Sep] + n2;
    assert s[|a|] == Sep && t[|b|] == Sep;
    if |a| == |b| {
      assert a == s[..|a|] == b;
      assert n == s[|a| + 1..] == n2;
    }
  }

  lemma StateNameIsName(st: EntryState)
    ensures IsName(st.Name())
  {
  }

  /** The file name of an entry with a separator-free id is a plain name. */
  lemma JsonNameIsName(id: string)
    requires NoSep(id)
    ensures IsName(id + ".json") && NoSep(id + ".json")
    ensures HasSuffix(id + ".json", ".json")
  {
    var n := id + ".json";
    assert n[|n| - 5..] == ".json";
  }

  /** A directory listing name whose extension is `.json` is a plain name. */
  lemma JsonChildIsName(c: string)
    requires c != "" && NoSep(c) && Ext(c) == ".json"
    ensures IsName(c)
  {
    assert Ext(".") == ".";
    assert Ext("..") == ".";
  }

  /** With a clean journal directory, a partition has the literal shape `<dir>/<state>`. */
  lemma PartitionShape(m: Manager, st: EntryState)
    requires CleanDir(m.journalDir)
    ensures PartitionDir(m, st.Name()) == m.journalDir + [Sep] + st.Name()
  {
    StateNameIsName(st);
    JoinDirName(m.journalDir, st.Name());
  }

  /** With a clean journal directory, partitions and entry files have the literal
      shapes `<dir>/<state>` and `<dir>/<state>/<id>.json`. */
  lemma PathShapes(m: Manager, st: EntryState, id: string)
    requires CleanDir(m.journalDir) && NoSep(id)
    ensures PartitionDir(m, st.Name()) == m.journalDir + [Sep] + st.Name()
    ensures CleanDir(PartitionDir(m, st.Name()))
    ensures DirPrefix(PartitionDir(m, st.Name())) == PartitionDir(m, st.Name()) + [Sep]
    ensures EntryPath(m, st.Name(), id) == PartitionDir(m, st.Name()) + [Sep] + (id + ".json")
  {
    StateNameIsName(st);
    JsonNameIsName(id);
    JoinDirName(m.journalDir, st.Name());
    JoinDirNameName(m.journalDir, st.Name(), id + ".json");
    var p := PartitionDir(m, st.Name());
    assert p[|p| - 1] != Sep;
  }

  lemma PartitionInjective(m: Manager, s1: EntryState, s2: EntryState)
    requires CleanDir(m.journalDir)
    requires PartitionDir(m, s1.Name()) == PartitionDir(m, s2.Name())
    ensures s1 == s2
  {
    PartitionShape(m, s1);
    PartitionShape(m, s2);
    LastElementSplit(m.journalDir, s1.Name(), m.journalDir, s2.Name());
  }

  /** An entry file is never the journal directory or a partition directory. */
  lemma EntryPathNotDir(m: Manager, st: EntryState, id: string)
    requires CleanDir(m.journalDir) && NoSep(id)
    ensures EntryPath(m, st.Name(), id) != m.journalDir
    ensures forall s: EntryState :: EntryPath(m, st.Name(), id) != PartitionDir(m, s.Name())
  {
    PathShapes(m, st, id);
    forall s: EntryState
      ensures EntryPath(m, st.Name(), id) != PartitionDir(m, s.Name())
    {
      EntryPathNotPartition(m, st, s, id);
    }
  }

  lemma EntryPathNotPartition(m: Manager, st: EntryState, s: EntryState, id: string)
    requires CleanDir(m.journalDir) && NoSep(id)
    ensures EntryPath(m, st.Name(), id) != PartitionDir(m, s.Name())
  {
    PathShapes(m, st, id);
    PathShapes(m, s, id);
    JsonNameIsName(id);
    if EntryPath(m, st.Name(), id) == PartitionDir(m, s.Name()) {
      LastElementSplit(PartitionDir(m, st.Name()), id + ".json", m.journalDir, s.Name());
    }
  }

  // ---- the invariant ----

  /** `name` is listed in partition `st` as a non-directory `.json` file. */
  predicate JsonChild(m: Manager, fs: MockFileSystem, st: EntryState, name: string) {
    var p := PartitionDir(m, st.Name()) + [Sep];
    IsChild(fs, p, name) && !fs.files[p + name].mode.dir && Ext(name) == ".json"
  }

  /** The entry a partition file holds belongs there: it decodes, its state is the
      partition's and its id is the file name without `.json`. */
  predicate HoldsOwnEntry(m: Manager, fs: MockFileSystem, st: EntryState, name: string)
    requires JsonChild(m, fs, st, name)
  {
    var d := Decode(fs.files[PartitionDir(m, st.Name()) + [Sep] + name].data);
    d.Some? && d.value.state == st && d.value.id + ".json" == name
  }

  ghost predicate WellFormed(m: Manager, fs: MockFileSystem) {
    && CleanDir(m.journalDir)
    && forall st, name :: JsonChild(m, fs, st, name) ==> HoldsOwnEntry(m, fs, st, name)
  }

  /** All three partition directories exist as directories. */
  ghost predicate Initialized(m: Manager, fs: MockFileSystem) {
    forall st: EntryState :: PartitionDir(m, st.Name()) in fs.files && fs.files[PartitionDir(m, st.Name())].mode.dir
  }

  /** `e` is stored, decodably, at the path of its own state and id. */
  predicate StoredEntry(m: Manager, fs: MockFileSystem, e: Entry) {
    var k := EntryPath(m, e.state.Name(), e.id);
    k in fs.files && !fs.files[k].mode.dir && Decode(fs.files[k].data) == Some(e)
  }

  /** A partition file lies below the journal directory. */
  lemma PartitionFileBelowJournal(m: Manager, st: EntryState, name: string)
    requires CleanDir(m.journalDir)
    ensures HasPrefix(PartitionDir(m, st.Name()) + [Sep] + name, m.journalDir + [Sep])
  {
    PathShapes(m, st, "");
  }

  /** A journal directory with nothing below it is well formed. */
  lemma EmptyJournalWellFormed(m: Manager, fs: MockFileSystem)
    requires CleanDir(m.journalDir)
    requires forall k :: k in fs.files ==> !HasPrefix(k, m.journalDir + [Sep])
    ensures WellFormed(m, fs)
  {
    forall st, name
      ensures !JsonChild(m, fs, st, name)
    {
      PartitionFileBelowJournal(m, st, name);
    }
  }

  /** `Initialize` creates the partitions and, adding only directories, keeps the
      journal well formed. */
  lemma InitializePreserves(m: Manager, fs: MockFileSystem)
    requires WellFormed(m, fs)
    ensures WellFormed(m, Initialize(m, fs)) && Initialized(m, Initialize(m, fs))
  {
    var r := Initialize(m, fs);
    forall st: EntryState
      ensures PartitionDir(m, st.Name()) in r.files && r.files[PartitionDir(m, st.Name())].mode.dir
    {
      InitializeCreatesPartition(m, fs, st);
    }
    forall st, name | JsonChild(m, r, st, name)
      ensures HoldsOwnEntry(m, r, st, name)
    {
      InitializeKeepsFile(m, fs, st, name);
    }
  }

  lemma InitializeCreatesPartition(m: Manager, fs: MockFileSystem, st: EntryState)
    ensures var r := Initialize(m, fs);
            PartitionDir(m, st.Name()) in r.files && r.files[PartitionDir(m, st.Name())].mode.dir
  {
    assert PartitionDir(m, st.Name()) in InitializedDirs(m);
  }

  /** A `.json` file of a partition after `Initialize` was there before. */
  lemma InitializeKeepsFile(m: Manager, fs: MockFileSystem, st: EntryState, name: string)
    requires JsonChild(m, Initialize(m, fs), st, name)
    ensures JsonChild(m, fs, st, name)
    ensures var k := PartitionDir(m, st.Name()) + [Sep] + name;
            Initialize(m, fs).files[k] == fs.files[k]
  {
    var k := PartitionDir(m, st.Name()) + [Sep] + name;
    assert k !in InitializedDirs(m);
  }

  lemma SavePreserves(m: Manager, fs: MockFileSystem, e: Entry)
    requires WellFormed(m, fs) && NoSep(e.id)
    ensures WellFormed(m, SaveEntry(m, fs, e))
    ensures StoredEntry(m, SaveEntry(m, fs, e), e)
    ensures Initialized(m, fs) ==> Initialized(m, SaveEntry(m, fs, e))
  {
    var r := SaveEntry(m, fs, e);
    RoundTrip(e);
    PathShapes(m, e.state, e.id);
    JsonNameIsName(e.id);
    forall st, name | JsonChild(m, r, st, name)
      ensures HoldsOwnEntry(m, r, st, name)
    {
      SaveKeepsFile(m, fs, e, st, name);
    }
    EntryPathNotDir(m, e.state, e.id);
  }

  /** After saving `e`, a partition file is either `e`'s own file or was there before. */
  lemma SaveKeepsFile(m: Manager, fs: MockFileSystem, e: Entry, st: EntryState, name: string)
    requires WellFormed(m, fs) && NoSep(e.id)
    requires JsonChild(m, SaveEntry(m, fs, e), st, name)
    ensures HoldsOwnEntry(m, SaveEntry(m, fs, e), st, name)
  {
    var key := EntryPath(m, e.state.Name(), e.id);
    var k := PartitionDir(m, st.Name()) + [Sep] + name;
    RoundTrip(e);
    PathShapes(m, e.state, e.id);
    PathShapes(m, st, e.id);
    JsonNameIsName(e.id);
    if k == key {
      LastElementSplit(PartitionDir(m, st.Name()), name, PartitionDir(m, e.state.Name()), e.id + ".json");
      PartitionInjective(m, st, e.state);
    } else {
      assert JsonChild(m, fs, st, name);
    }
  }

  lemma RemovePreserves(m: Manager, fs: MockFileSystem, k: string)
    requires WellFormed(m, fs)
    ensures WellFormed(m, Remove(fs, k))
  {
    var r := Remove(fs, k);
    forall st, name | JsonChild(m, r, st, name)
      ensures HoldsOwnEntry(m, r, st, name)
    {
      assert JsonChild(m, fs, st, name);
    }
  }

  // ---- listing a partition ----

  /** Every readable `.json` file of a listing contributes its entry. */
  lemma {:induction false} ReadJsonEntriesComplete(fs: MockFileSystem, dir: string, des: seq<DirEntry>, i: nat)
    requires ReadJsonEntries(fs, dir, des).Ok?
    requires i < |des| && IsJsonFile(des[i])
    ensures ReadEntry(fs, Join([dir, des[i].name])).Ok?
    ensures ReadEntry(fs, Join([dir, des[i].name])).value in ReadJsonEntries(fs, dir, des).value
    decreases |des|
  {
    if i > 0 {
      if IsJsonFile(des[0]) {
        ReadJsonEntriesComplete(fs, dir, des[1..], i - 1);
      } else {
        ReadJsonEntriesComplete(fs, dir, des[1..], i - 1);
      }
    }
  }

  /** The `.json` file that an entry of the listing came from. */
  lemma {:induction false} SourceOf(fs: MockFileSystem, dir: string, des: seq<DirEntry>, e: Entry) returns (i: nat)
    requires ReadJsonEntries(fs, dir, des).Ok? && e in ReadJsonEntries(fs, dir, des).value
    ensures i < |des| && IsJsonFile(des[i]) && ReadEntry(fs, Join([dir, des[i].name])) == Ok(e)
    decreases |des|
  {
    if IsJsonFile(des[0]) && ReadEntry(fs, Join([dir, des[0].name])) == Ok(e) {
      i := 0;
    } else {
      var k := SourceOf(fs, dir, des[1..], e);
      i := k + 1;
    }
  }

  /** No two entries of a listing share a name. */
  predicate DistinctNames(des: seq<DirEntry>) {
    forall i, j :: 0 <= i < j < |des| ==> des[i].name != des[j].name
  }

  /** The entry read from the first file of a listing has an id that no
      later file's entry shares, when every file is named after its entry's id. */
  lemma HeadIdFresh(fs: MockFileSystem, dir: string, des: seq<DirEntry>, x: Entry)
    requires |des| > 0 && IsJsonFile(des[0]) && NamedAfterId(fs, dir, des[0])
    requires ReadJsonEntries(fs, dir, des[1..]).Ok? && x in ReadJsonEntries(fs, dir, des[1..]).value
    requires DistinctNames(des)
    requires forall i :: 0 <= i < |des| && IsJsonFile(des[i]) ==> NamedAfterId(fs, dir, des[i])
    ensures x.id != ReadEntry(fs, Join([dir, des[0].name])).value.id
  {
    var k := SourceOf(fs, dir, des[1..], x);
    assert des[1..][k] == des[k + 1];
    assert NamedAfterId(fs, dir, des[k + 1]);
    assert des[0].name != des[k + 1].name;
  }

  /** When every `.json` file of a listing of distinct names holds the entry whose id is
      its name without `.json`, the entries read have pairwise distinct ids. */
  lemma {:induction false} ReadJsonEntriesDistinct(fs: MockFileSystem, dir: string, des: seq<DirEntry>)
    requires ReadJsonEntries(fs, dir, des).Ok?
    requires DistinctNames(des)
    requires forall i :: 0 <= i < |des| && IsJsonFile(des[i]) ==> NamedAfterId(fs, dir, des[i])
    ensures DistinctIds(ReadJsonEntries(fs, dir, des).value)
    decreases |des|
  {
    if des != [] {
      var tl := des[1..];
      assert forall i :: 0 <= i < |tl| ==> tl[i] == des[i + 1];
      ReadJsonEntriesDistinct(fs, dir, tl);
      var rest := ReadJsonEntries(fs, dir, tl).value;
      if IsJsonFile(des[0]) {
        var e := ReadEntry(fs, Join([dir, des[0].name])).value;
        forall x | x in rest
          ensures x.id != e.id
        {
          HeadIdFresh(fs, dir, des, x);
        }
        ConsDistinctIds(e, rest);
      }
    }
  }

  predicate DistinctIds(es: seq<Entry>) {
    forall i, j :: 0 <= i < j < |es| ==> es[i].id != es[j].id
  }

  lemma ConsDistinctIds(e: Entry, rest: seq<Entry>)
    requires DistinctIds(rest) && forall x :: x in rest ==> x.id != e.id
    ensures DistinctIds([e] + rest)
  {
    var r := [e] + rest;
    forall i, j | 0 <= i < j < |r|
      ensures r[i].id != r[j].id
    {
      if i == 0 {
        assert r[j] in rest;
      } else {
        assert r[i] == rest[i - 1] && r[j] == rest[j - 1];
      }
    }
  }

  /** The file of a listing entry reads as an entry whose id is its name without `.json`. */
  predicate NamedAfterId(fs: MockFileSystem, dir: string, de: DirEntry) {
    var e := ReadEntry(fs, Join([dir, de.name]));
    e.Ok? && e.value.id + ".json" == de.name
  }

  /** In a well-formed journal, a `.json` file listed in a partition holds the entry of
      that partition and name. */
  lemma ListedFileHoldsEntry(m: Manager, fs: MockFileSystem, st: EntryState, de: DirEntry)
    requires WellFormed(m, fs)
    requires IsChild(fs, PartitionDir(m, st.Name()) + [Sep], de.name)
    requires de.mode == fs.files[PartitionDir(m, st.Name()) + [Sep] + de.name].mode
    requires IsJsonFile(de)
    ensures var e := ReadEntry(fs, Join([PartitionDir(m, st.Name()), de.name]));
            && e.Ok? && e.value.state == st && e.value.id + ".json" == de.name
            && NoSep(e.value.id) && StoredEntry(m, fs, e.value)
  {
    var dir := PartitionDir(m, st.Name());
    PathShapes(m, st, "");
    JsonChildIsName(de.name);
    JoinDirName(dir, de.name);
    assert JsonChild(m, fs, st, de.name);
    var e := ReadEntry(fs, Join([dir, de.name])).value;
    assert NoSep(e.id) by {
      assert forall i :: 0 <= i < |e.id| ==> e.id[i] == de.name[i];
    }
    PathShapes(m, st, e.id);
  }

  /** The listing `ListPartition` reads for an existing directory: its children in
      increasing order, hence with distinct names. */
  lemma DirListing(fs: MockFileSystem, dir: string) returns (des: seq<DirEntry>)
    requires dir in fs.files && fs.files[dir].mode.dir && DirPrefix(dir) == dir + [Sep]
    ensures ListPartition(fs, dir) == ReadJsonEntries(fs, dir, des)
    ensures Names(des) == ListedNames(fs, dir + [Sep], -1)
    ensures DistinctNames(des)
    ensures forall i :: 0 <= i < |des| ==> IsChild(fs, dir + [Sep], des[i].name)
    ensures forall i :: 0 <= i < |des| ==> des[i].mode == fs.files[dir + [Sep] + des[i].name].mode
  {
    var f := Open(fs, dir).value;
    des := ReadDir(fs, f, -1).value;
    var names := ListedNames(fs, dir + [Sep], -1);
    forall i, j | 0 <= i < j < |des|
      ensures des[i].name != des[j].name
    {
      StrOrder.SortedDistinct(names, i, j);
    }
  }

  /** The same for a partition of a well-formed journal, as `ListEntries` reads it. */
  lemma PartitionListing(m: Manager, fs: MockFileSystem, st: EntryState) returns (des: seq<DirEntry>)
    requires WellFormed(m, fs)
    requires PartitionDir(m, st.Name()) in fs.files && fs.files[PartitionDir(m, st.Name())].mode.dir
    ensures var dir := PartitionDir(m, st.Name());
      && ListEntries(m, fs, st.Name()) == ReadJsonEntries(fs, dir, des)
      && Names(des) == ListedNames(fs, dir + [Sep], -1)
      && DistinctNames(des)
      && (forall i :: 0 <= i < |des| ==> IsChild(fs, dir + [Sep], des[i].name))
      && (forall i :: 0 <= i < |des| ==> des[i].mode == fs.files[dir + [Sep] + des[i].name].mode)
  {
    PathShapes(m, st, "");
    des := DirListing(fs, PartitionDir(m, st.Name()));
    ListSingle(m, fs, st.Name());
  }

  /** Every `.json` file of a well-formed partition's listing reads, as the entry named
      after it, so listing the partition succeeds with distinct ids. */
  lemma ListPartitionOk(m: Manager, fs: MockFileSystem, st: EntryState)
    requires WellFormed(m, fs)
    requires PartitionDir(m, st.Name()) in fs.files && fs.files[PartitionDir(m, st.Name())].mode.dir
    ensures ListEntries(m, fs, st.Name()).Ok?
    ensures DistinctIds(ListEntries(m, fs, st.Name()).value)
  {
    var dir := PartitionDir(m, st.Name());
    var des := PartitionListing(m, fs, st);
    forall i | 0 <= i < |des| && IsJsonFile(des[i])
      ensures NamedAfterId(fs, dir, des[i])
    {
      ListedFileHoldsEntry(m, fs, st, des[i]);
    }
    ReadJsonEntriesDistinct(fs, dir, des);
  }

  /** Every entry a well-formed partition lists is stored in it. */
  lemma ListPartitionSound(m: Manager, fs: MockFileSystem, st: EntryState, e: Entry)
    requires WellFormed(m, fs)
    requires PartitionDir(m, st.Name()) in fs.files && fs.files[PartitionDir(m, st.Name())].mode.dir
    requires ListEntries(m, fs, st.Name()).Ok? && e in ListEntries(m, fs, st.Name()).value
    ensures e.state == st && StoredEntry(m, fs, e)
  {
    var dir := PartitionDir(m, st.Name());
    var des := PartitionListing(m, fs, st);
    var k := SourceOf(fs, dir, des, e);
    ListedFileHoldsEntry(m, fs, st, des[k]);
  }

  /** The file of an entry stored in a partition appears in its listing as a `.json` file. */
  lemma StoredFileListed(m: Manager, fs: MockFileSystem, e: Entry, des: seq<DirEntry>) returns (i: nat)
    requires CleanDir(m.journalDir) && NoSep(e.id) && StoredEntry(m, fs, e)
    requires var dir := PartitionDir(m, e.state.Name());
      && Names(des) == ListedNames(fs, dir + [Sep], -1)
      && (forall i :: 0 <= i < |des| ==> des[i].mode == fs.files[dir + [Sep] + des[i].name].mode)
    ensures i < |des| && IsJsonFile(des[i]) && des[i].name == e.id + ".json"
    ensures Join([PartitionDir(m, e.state.Name()), des[i].name]) == EntryPath(m, e.state.Name(), e.id)
  {
    var dir := PartitionDir(m, e.state.Name());
    var names := Names(des);
    var name := e.id + ".json";
    PathShapes(m, e.state, e.id);
    JsonNameIsName(e.id);
    ExtJson(name);
    assert IsChild(fs, dir + [Sep], name);
    assert name in names;
    i :| 0 <= i < |names| && names[i] == name;
    JoinDirName(dir, name);
  }

  /** Every entry stored in a well-formed partition is listed. */
  lemma ListPartitionComplete(m: Manager, fs: MockFileSystem, st: EntryState, e: Entry)
    requires WellFormed(m, fs)
    requires PartitionDir(m, st.Name()) in fs.files && fs.files[PartitionDir(m, st.Name())].mode.dir
    requires ListEntries(m, fs, st.Name()).Ok?
    requires StoredEntry(m, fs, e) && e.state == st && NoSep(e.id)
    ensures e in ListEntries(m, fs, st.Name()).value
  {
    var dir := PartitionDir(m, st.Name());
    var des := PartitionListing(m, fs, st);
    var i := StoredFileListed(m, fs, e, des);
    ReadJsonEntriesComplete(fs, dir, des, i);
  }

  /** In a well-formed journal, listing an existing partition succeeds and reports
      exactly the entries stored in it, each once. */
  lemma ListPartitionWellFormed(m: Manager, fs: MockFileSystem, st: EntryState)
    requires WellFormed(m, fs)
    requires PartitionDir(m, st.Name()) in fs.files && fs.files[PartitionDir(m, st.Name())].mode.dir
    ensures var r := ListEntries(m, fs, st.Name());
      && r.Ok?
      && (forall e :: e in r.value ==> e.state == st && StoredEntry(m, fs, e))
      && (forall e :: StoredEntry(m, fs, e) && e.state == st && NoSep(e.id) ==> e in r.value)
      && DistinctIds(r.value)
  {
    ListPartitionOk(m, fs, st);
    forall e | e in ListEntries(m, fs, st.Name()).value
      ensures e.state == st && StoredEntry(m, fs, e)
    {
      ListPartitionSound(m, fs, st, e);
    }
    forall e | StoredEntry(m, fs, e) && e.state == st && NoSep(e.id)
      ensures e in ListEntries(m, fs, st.Name()).value
    {
      ListPartitionComplete(m, fs, st, e);
    }
  }

  /** A non-empty filter lists just its own partition. */
  lemma ListSingle(m: Manager, fs: MockFileSystem, state: string)
    requires state != ""
    ensures ListEntries(m, fs, state) == ListPartition(fs, PartitionDir(m, state))
  {
    assert ListedStates(state) == [state];
    assert [state][1..] == [];
    match ListPartition(fs, PartitionDir(m, state))
    case Err(_) =>
    case Ok(v) => assert v + [] == v;
  }

  /** A partition directory that does not exist contributes nothing. */
  lemma ListMissingPartition(m: Manager, fs: MockFileSystem, state: string)
    requires state != "" && PartitionDir(m, state) !in fs.files
    ensures ListEntries(m, fs, state) == Ok([])
  {
    ListSingle(m, fs, state);
  }

  /** Listing the partitions of `a + b` lists those of `a`, then those of `b`, and fails
      with the first failure. */
  lemma {:induction false} ConcatEachAppend(a: seq<string>, b: seq<string>, list: string -> Result<seq<Entry>, JournalError>)
    ensures ConcatEach(a + b, list) == Concat(ConcatEach(a, list), ConcatEach(b, list))
    decreases |a|
  {
    if a == [] {
      assert a + b == b;
      var r := ConcatEach(b, list);
      if r.Ok? {
        assert [] + r.value == r.value;
      }
    } else {
      assert (a + b)[1..] == a[1..] + b;
      ConcatEachAppend(a[1..], b, list);
      var p := list(a[0]);
      var x := ConcatEach(a[1..], list);
      var y := ConcatEach(b, list);
      if p.Ok? && x.Ok? && y.Ok? {
        assert p.value + (x.value + y.value) == (p.value + x.value) + y.value;
      }
    }
  }

  /** Listing without a filter concatenates `current`, `completed` and `failed`, and
      fails exactly when one of them does. */
  lemma ListAllIsConcatenation(m: Manager, fs: MockFileSystem)
    ensures var all := ListEntries(m, fs, "");
      var c, d, f := ListEntries(m, fs, "current"), ListEntries(m, fs, "completed"), ListEntries(m, fs, "failed");
      && (all.Ok? <==> c.Ok? && d.Ok? && f.Ok?)
      && (all.Ok? ==> all.value == c.value + d.value + f.value)
  {
    var c := ListStates(m, fs, ["current"]);
    var d := ListStates(m, fs, ["completed"]);
    var f := ListStates(m, fs, ["failed"]);
    assert SubDirs == ["current"] + ["completed"] + ["failed"];
    var list := st => ListPartition(fs, PartitionDir(m, st));
    assert ListStates(m, fs, SubDirs) == ConcatEach(SubDirs, list);
    ConcatEachAppend(["current"] + ["completed"], ["failed"], list);
    ConcatEachAppend(["current"], ["completed"], list);
    if c.Ok? && d.Ok? && f.Ok? {
      assert c.value + d.value + f.value == (c.value + d.value) + f.value;
    }
  }

  // ---- moving entries ----

  /** Distinct states put an entry's file at distinct paths. */
  lemma EntryPathsDiffer(m: Manager, id: string, s1: EntryState, s2: EntryState)
    requires CleanDir(m.journalDir) && NoSep(id) && s1 != s2
    ensures EntryPath(m, s1.Name(), id) != EntryPath(m, s2.Name(), id)
  {
    PathShapes(m, s1, id);
    PathShapes(m, s2, id);
    JsonNameIsName(id);
    if EntryPath(m, s1.Name(), id) == EntryPath(m, s2.Name(), id) {
      LastElementSplit(PartitionDir(m, s1.Name()), id + ".json", PartitionDir(m, s2.Name()), id + ".json");
      PartitionInjective(m, s1, s2);
    }
  }

  /** Removing a file other than a partition directory keeps the journal initialized. */
  lemma RemoveKeepsInitialized(m: Manager, fs: MockFileSystem, k: string)
    requires Initialized(m, fs)
    requires forall st: EntryState :: k != PartitionDir(m, st.Name())
    ensures Initialized(m, Remove(fs, k))
  {
  }

  /** Moving an entry to another state keeps the journal well formed and initialized,
      stores the moved entry under its new state and deletes the old file. */
  lemma MovePreserves(m: Manager, fs: MockFileSystem, e: Entry, target: EntryState)
    requires WellFormed(m, fs) && Initialized(m, fs)
    requires e.state != target && NoSep(e.id)
    ensures var (moved, fs') := MoveEntry(m, fs, e, target);
      && WellFormed(m, fs') && Initialized(m, fs')
      && StoredEntry(m, fs', moved)
      && EntryPath(m, e.state.Name(), e.id) !in fs'.files
  {
    var moved := e.(state := target);
    var fs1 := SaveEntry(m, fs, moved);
    var oldPath := EntryPath(m, e.state.Name(), e.id);
    SavePreserves(m, fs, moved);
    RemovePreserves(m, fs1, oldPath);
    EntryPathNotDir(m, e.state, e.id);
    RemoveKeepsInitialized(m, fs1, oldPath);
    EntryPathsDiffer(m, e.id, target, e.state);
    assert MoveEntry(m, fs, e, target) == (moved, Remove(fs1, oldPath));
  }

  /** Moving a `current` entry to a terminal state keeps the journal well formed; the
      entry is then stored only under the new state, `ListEntries` of `current` no
      longer reports its id, and `ListEntries` of the new state reports it exactly
      once, with the new state. */
  lemma MoveToTerminal(m: Manager, fs: MockFileSystem, e: Entry, target: EntryState)
    requires WellFormed(m, fs) && Initialized(m, fs)
    requires e.state == StateCurrent && target.Terminal() && NoSep(e.id)
    ensures var (moved, fs') := MoveEntry(m, fs, e, target);
      && moved == e.(state := target)
      && WellFormed(m, fs') && Initialized(m, fs')
      && StoredEntry(m, fs', moved)
      && EntryPath(m, "current", e.id) !in fs'.files
      && ListEntries(m, fs', "current").Ok?
      && (forall x :: x in ListEntries(m, fs', "current").value ==> x.id != e.id)
      && ListEntries(m, fs', target.Name()).Ok?
      && moved in ListEntries(m, fs', target.Name()).value
      && (forall x :: x in ListEntries(m, fs', target.Name()).value && x.id == e.id ==> x == moved)
      && DistinctIds(ListEntries(m, fs', target.Name()).value)
  {
    var (moved, fs') := MoveEntry(m, fs, e, target);
    MovePreserves(m, fs, e, target);
    ListPartitionWellFormed(m, fs', StateCurrent);
    ListPartitionWellFormed(m, fs', target);
    forall x | x in ListEntries(m, fs', "current").value
      ensures x.id != e.id
    {
      assert StoredEntry(m, fs', x) && x.state == StateCurrent;
    }
    forall x | x in ListEntries(m, fs', target.Name()).value && x.id == e.id
      ensures x == moved
    {
      assert StoredEntry(m, fs', x) && x.state == target;
    }
  }

  /** Moving an entry to the state it is already in deletes its only file: afterwards
      `GetEntry` no longer finds it. */
  lemma MoveToSameStateLosesEntry(m: Manager, fs: MockFileSystem, e: Entry)
    requires forall st: EntryState :: st != e.state ==> EntryPath(m, st.Name(), e.id) !in fs.files
    ensures GetEntry(m, MoveEntry(m, fs, e, e.state).1, e.id) == Err(EntryNotFound(e.id))
  {
    var fs' := MoveEntry(m, fs, e, e.state).1;
    assert forall st: EntryState :: EntryPath(m, st.Name(), e.id) !in fs'.files;
    assert StateCurrent.Name() == "current";
    assert StateCompleted.Name() == "completed";
    assert StateFailed.Name() == "failed";
  }

  /** `GetEntry` finds an entry stored in its state's partition when no earlier
      partition holds a file for its id; in particular right after `MoveEntry`. */
  lemma GetAfterMove(m: Manager, fs: MockFileSystem, e: Entry, target: EntryState)
    requires CleanDir(m.journalDir) && NoSep(e.id)
    requires e.state == StateCurrent && target.Terminal()
    requires target == StateFailed ==> EntryPath(m, "completed", e.id) !in fs.files
    ensures GetEntry(m, MoveEntry(m, fs, e, target).1, e.id) == Ok(e.(state := target))
  {
    EntryPathsDiffer(m, e.id, target, StateCurrent);
    if target == StateFailed {
      EntryPathsDiffer(m, e.id, StateCompleted, StateFailed);
    }
  }
}
