/** `JournalManager` (internal/journal/journal.go): the journal directory holds one
    sub-directory per entry state, and an entry lives in the file
    `<journalDir>/<state>/<id>.json`. Each operation reads or rewrites whole files of
    the map-backed filesystem. */
module Journal {
  import opened Wrappers
  import opened Paths
  import opened MockFs
  import opened Entries
  import opened Codec

  datatype Manager = Manager(journalDir: string)

  /** The errors the journal reports, one per distinct message of the source. */
  datatype JournalError =
    | ManagerNotFound                                   // "journal manager not found in context"
    | EntryNotInContext                                 // "journal entry not found in context"
    | NoSteps                                           // "no steps in entry"
    | EntryNotFound(id: string)                         // "entry not found: <id>"
    | ReadFailed(cause: IoError)                        // "error reading file: ..."
    | UnmarshalFailed                                   // "error unmarshaling entry: ..."
    | ReadDirFailed(dir: string, cause: IoError)        // "error reading directory <dir>: ..."
    | EntryReadFailed(name: string, reason: JournalError) // "error reading entry <name>: ..."

  /** The sub-directory names `Initialize` creates, in its order. */
  const SubDirs: seq<string> := ["current", "completed", "failed"]

  function PartitionDir(m: Manager, state: string): string {
    Join([m.journalDir, state])
  }

  /** Where `saveEntry` writes an entry with the given state name and id. */
  function EntryPath(m: Manager, state: string, id: string): string {
    Join([m.journalDir, state, id + ".json"])
  }

  // ---- decimal rendering for operation ids ----

  predicate IsDigit(c: char) {
    '0' <= c <= '9'
  }

  predicate IsDigits(s: string) {
    s != [] && forall i :: 0 <= i < |s| ==> IsDigit(s[i])
  }

  function Decimal(n: nat): (s: string)
    ensures IsDigits(s)
    decreases n
  {
    var d := ['0' + ((n % 10) as char)];
    if n < 10 then d else Decimal(n / 10) + d
  }

  function DecimalValue(s: string): nat
    requires forall i :: 0 <= i < |s| ==> IsDigit(s[i])
    decreases |s|
  {
    if s == [] then 0
    else
      assert IsDigit(s[|s| - 1]);
      DecimalValue(s[..|s| - 1]) * 10 + (s[|s| - 1] as int - '0' as int)
  }

  lemma {:induction false} DecimalRoundTrip(n: nat)
    ensures DecimalValue(Decimal(n)) == n
    decreases n
  {
    var s := Decimal(n);
    if n >= 10 {
      DecimalRoundTrip(n / 10);
      assert s[..|s| - 1] == Decimal(n / 10);
    }
  }

  /** `generateOperationID`: the operation name, a dash, and the timestamp in decimal. */
  function GenerateOperationID(operation: string, now: nat): (id: string)
    ensures HasPrefix(id, operation + "-")
    ensures IsDigits(id[|operation| + 1..]) && DecimalValue(id[|operation| + 1..]) == now
    ensures NoSep(operation) ==> NoSep(id)
  {
    var id := operation + "-" + Decimal(now);
    assert id[|operation| + 1..] == Decimal(now);
    DecimalRoundTrip(now);
    id
  }

  /** Two ids generated for one operation at different instants differ. */
  lemma GeneratedIdsDistinct(operation: string, t1: nat, t2: nat)
    requires t1 != t2
    ensures GenerateOperationID(operation, t1) != GenerateOperationID(operation, t2)
  {
  }

  // ---- the manager ----

  /** The directories `Initialize` creates. */
  function InitializedDirs(m: Manager): set<string> {
    {m.journalDir, PartitionDir(m, "current"), PartitionDir(m, "completed"), PartitionDir(m, "failed")}
  }

  /** `Initialize`: the journal directory and its three partitions become directories;
      no other key changes. */
  function Initialize(m: Manager, fs: MockFileSystem): (r: MockFileSystem)
    ensures forall k :: k in InitializedDirs(m) ==> k in r.files && r.files[k].mode.dir
    ensures r.files.Keys == fs.files.Keys + InitializedDirs(m)
    ensures forall k :: k in fs.files && k !in InitializedDirs(m) ==> r.files[k] == fs.files[k]
    ensures r.homeDir == fs.homeDir
  {
    var fs0 := MkdirAll(fs, m.journalDir, Mode0755);
    var fs1 := MkdirAll(fs0, PartitionDir(m, "current"), Mode0755);
    var fs2 := MkdirAll(fs1, PartitionDir(m, "completed"), Mode0755);
    MkdirAll(fs2, PartitionDir(m, "failed"), Mode0755)
  }

  /** `saveEntry` (and `UpdateEntry`): write the encoded entry to its state's file. */
  function SaveEntry(m: Manager, fs: MockFileSystem, e: Entry): (r: MockFileSystem)
    ensures ReadEntry(r, EntryPath(m, e.state.Name(), e.id)) == Ok(e)
    ensures r.files[EntryPath(m, e.state.Name(), e.id)].mode == Mode0644
    ensures r.files.Keys == fs.files.Keys + {EntryPath(m, e.state.Name(), e.id)}
    ensures forall k :: k in fs.files && k != EntryPath(m, e.state.Name(), e.id) ==> r.files[k] == fs.files[k]
    ensures r.homeDir == fs.homeDir
  {
    RoundTrip(e);
    WriteFile(fs, EntryPath(m, e.state.Name(), e.id), Encode(e), Mode0644)
  }

  /** `readEntry`: a missing file and undecodable contents are distinct errors. */
  function ReadEntry(fs: MockFileSystem, path: string): (r: Result<Entry, JournalError>)
    ensures path !in fs.files <==> r == Err(ReadFailed(ErrNotExist))
    ensures path in fs.files ==> (r.Ok? <==> Decode(fs.files[path].data).Some?)
    ensures r.Ok? ==> Decode(fs.files[path].data) == Some(r.value)
  {
    match ReadFile(fs, path)
    case Err(e) => Err(ReadFailed(e))
    case Ok(data) =>
      match Decode(data)
      case None => Err(UnmarshalFailed)
      case Some(e) => Ok(e)
  }

  /** `CreateEntry`: a fresh entry in state `current` with no steps, saved at once. */
  function CreateEntry(m: Manager, fs: MockFileSystem, operation: OperationType, source: string, target: string, now: nat)
    : (r: (Entry, MockFileSystem))
    ensures var (e, fs') := r;
      && e.id == GenerateOperationID(operation.Name(), now)
      && e.timestamp == now
      && e.operation == operation && e.source == source && e.target == target
      && e.state == StateCurrent && e.steps == [] && e.checksum == ""
      && ReadEntry(fs', EntryPath(m, "current", e.id)) == Ok(e)
      && fs'.files.Keys == fs.files.Keys + {EntryPath(m, "current", e.id)}
      && forall k :: k in fs.files && k != EntryPath(m, "current", e.id) ==> fs'.files[k] == fs.files[k]
  {
    var e := Entry(GenerateOperationID(operation.Name(), now), now, operation, source, target, StateCurrent, "", []);
    (e, SaveEntry(m, fs, e))
  }

  /** `MoveEntry`: save the entry under its new state, then remove the file of its old
      state. When both states are the same, the removal deletes the file just written. */
  function MoveEntry(m: Manager, fs: MockFileSystem, e: Entry, newState: EntryState): (r: (Entry, MockFileSystem))
    ensures r.0 == e.(state := newState)
    ensures EntryPath(m, e.state.Name(), e.id) !in r.1.files
    ensures EntryPath(m, newState.Name(), e.id) != EntryPath(m, e.state.Name(), e.id) ==>
              ReadEntry(r.1, EntryPath(m, newState.Name(), e.id)) == Ok(r.0)
    ensures r.1.files.Keys == fs.files.Keys + {EntryPath(m, newState.Name(), e.id)} - {EntryPath(m, e.state.Name(), e.id)}
    ensures forall k :: k in r.1.files && k != EntryPath(m, newState.Name(), e.id) ==> r.1.files[k] == fs.files[k]
    ensures r.1.homeDir == fs.homeDir
  {
    var oldPath := EntryPath(m, e.state.Name(), e.id);
    var moved := e.(state := newState);
    var fs1 := SaveEntry(m, fs, moved);
    (moved, Remove(fs1, oldPath))
  }

  /** `GetEntry`: look in `current`, then `completed`, then `failed`. */
  function GetEntry(m: Manager, fs: MockFileSystem, id: string): (r: Result<Entry, JournalError>)
    ensures EntryPath(m, "current", id) in fs.files ==> r == ReadEntry(fs, EntryPath(m, "current", id))
    ensures EntryPath(m, "current", id) !in fs.files && EntryPath(m, "completed", id) in fs.files ==>
              r == ReadEntry(fs, EntryPath(m, "completed", id))
    ensures EntryPath(m, "current", id) !in fs.files && EntryPath(m, "completed", id) !in fs.files
            && EntryPath(m, "failed", id) in fs.files ==>
              r == ReadEntry(fs, EntryPath(m, "failed", id))
    ensures r == Err(EntryNotFound(id)) <==>
              EntryPath(m, "current", id) !in fs.files && EntryPath(m, "completed", id) !in fs.files
              && EntryPath(m, "failed", id) !in fs.files
  {
    var current := EntryPath(m, "current", id);
    var completed := EntryPath(m, "completed", id);
    var failed := EntryPath(m, "failed", id);
    if Stat(fs, current).Ok? then ReadEntry(fs, current)
    else if Stat(fs, completed).Ok? then ReadEntry(fs, completed)
    else if Stat(fs, failed).Ok? then ReadEntry(fs, failed)
    else Err(EntryNotFound(id))
  }

  predicate IsJsonFile(de: DirEntry) {
    !de.IsDir() && Ext(de.name) == ".json"
  }

  /** The entries of the `.json` files among a directory listing, in listing order;
      the first file that cannot be read stops the listing. */
  function ReadJsonEntries(fs: MockFileSystem, dir: string, des: seq<DirEntry>): (r: Result<seq<Entry>, JournalError>)
    ensures r.Ok? ==> |r.value| <= |des|
    ensures (forall i :: 0 <= i < |des| && IsJsonFile(des[i]) ==> ReadEntry(fs, Join([dir, des[i].name])).Ok?) <==> r.Ok?
    decreases |des|
  {
    if des == [] then Ok([])
    else if IsJsonFile(des[0]) then
      match ReadEntry(fs, Join([dir, des[0].name]))
      case Err(err) => Err(EntryReadFailed(des[0].name, err))
      case Ok(e) =>
        match ReadJsonEntries(fs, dir, des[1..])
        case Err(err) => Err(err)
        case Ok(rest) => Ok([e] + rest)
    else ReadJsonEntries(fs, dir, des[1..])
  }

  /** One partition of `ListEntries`: a directory that cannot be opened contributes
      nothing; one that cannot be listed is an error. */
  function ListPartition(fs: MockFileSystem, dir: string): (r: Result<seq<Entry>, JournalError>)
    ensures dir !in fs.files ==> r == Ok([])
    ensures dir in fs.files && !fs.files[dir].mode.dir ==> r == Err(ReadDirFailed(dir, ErrInvalid))
  {
    match Open(fs, dir)
    case Err(_) => Ok([])
    case Ok(f) =>
      match ReadDir(fs, f, -1)
      case Err(e) => Err(ReadDirFailed(dir, e))
      case Ok(des) => ReadJsonEntries(fs, dir, des)
  }

  /** The first error of two listings, or their concatenation. */
  function Concat(a: Result<seq<Entry>, JournalError>, b: Result<seq<Entry>, JournalError>): (r: Result<seq<Entry>, JournalError>)
    ensures r.Ok? <==> a.Ok? && b.Ok?
    ensures r.Ok? ==> r.value == a.value + b.value
    ensures a.Err? ==> r == a
  {
    if a.Err? then a else if b.Err? then b else Ok(a.value + b.value)
  }

  /** The listings of `states`, one after the other, stopping at the first failure. */
  function ConcatEach(states: seq<string>, list: string -> Result<seq<Entry>, JournalError>): (r: Result<seq<Entry>, JournalError>)
    ensures states == [] ==> r == Ok([])
    ensures r.Ok? <==> forall i :: 0 <= i < |states| ==> list(states[i]).Ok?
    decreases |states|
  {
    if states == [] then Ok([])
    else Concat(list(states[0]), ConcatEach(states[1..], list))
  }

  /** The listing of one partition, by its state's name. */
  function PartitionLister(m: Manager, fs: MockFileSystem): string -> Result<seq<Entry>, JournalError> {
    st => ListPartition(fs, PartitionDir(m, st))
  }

  /** The loop of `ListEntries` over the partitions it visits. */
  function ListStates(m: Manager, fs: MockFileSystem, states: seq<string>): (r: Result<seq<Entry>, JournalError>)
  {
    ConcatEach(states, PartitionLister(m, fs))
  }

  /** The partitions `ListEntries` visits for a filter: all three for "", else just it. */
  function ListedStates(state: string): (r: seq<string>)
    ensures state == "" ==> r == SubDirs
    ensures state != "" ==> r == [state]
  {
    if state == "" then SubDirs else [state]
  }

  /** `ListEntries`. */
  function ListEntries(m: Manager, fs: MockFileSystem, state: string): (r: Result<seq<Entry>, JournalError>)
  {
    ListStates(m, fs, ListedStates(state))
  }

  /** `ListEntries` succeeds exactly when every partition it visits lists: with "" all
      three in order, otherwise the one named, whose listing is the result. */
  lemma ListEntriesVisits(m: Manager, fs: MockFileSystem, state: string)
    ensures ListEntries(m, fs, state).Ok? <==>
              forall i :: 0 <= i < |ListedStates(state)| ==> PartitionLister(m, fs)(ListedStates(state)[i]).Ok?
    ensures state != "" ==> ListEntries(m, fs, state) == PartitionLister(m, fs)(state)
  {
    if state != "" {
      ConcatEachOne(state, PartitionLister(m, fs));
    }
  }

  /** Listing a single state is that state's listing. */
  lemma ConcatEachOne(st: string, list: string -> Result<seq<Entry>, JournalError>)
    ensures ConcatEach([st], list) == list(st)
  {
    assert [st][1..] == [];
    if list(st).Ok? {
      assert list(st).value + [] == list(st).value;
    }
  }
}
