/** The map-backed filesystem the journal and the `add` command run against in tests
    (internal/fs/mock_fs.go): every path is a key of one map, a directory is a key whose
    mode carries the directory bit, and nothing is ever implied by a parent key. */
module MockFs {
  import opened Wrappers
  import opened Paths
  import StrOrder

  type byte = b: int | 0 <= b < 256
  type Bytes = seq<byte>

  /** `fs.FileMode` reduced to what the core inspects: permission bits and `ModeDir`. */
  datatype FileMode = FileMode(perm: nat, dir: bool)

  const Mode0644: FileMode := FileMode(0x1A4, false)
  const Mode0755: FileMode := FileMode(0x1ED, false)

  /** `fstest.MapFile`: contents and mode of one key. */
  datatype MapFile = MapFile(data: Bytes, mode: FileMode)

  datatype MockFileSystem = MockFileSystem(files: map<string, MapFile>, homeDir: string)

  /** The sentinel errors of `os` and `io` that the core returns or tests for. */
  datatype IoError = ErrNotExist | ErrInvalid | ErrPermission | EOF | RelFailed(cause: PathError)

  const DefaultHome: string := "/home/test"

  function NewMockFileSystem(files: map<string, MapFile>): (m: MockFileSystem)
    ensures m.files == files && m.homeDir == DefaultHome
  {
    MockFileSystem(files, DefaultHome)
  }

  /** Creates (or replaces) exactly one key, `path`, as an empty directory. Parents are
      not created. */
  function MkdirAll(m: MockFileSystem, path: string, perm: FileMode): (r: MockFileSystem)
    ensures r.files.Keys == m.files.Keys + {path}
    ensures r.files[path].mode.dir && r.files[path].mode.perm == perm.perm && r.files[path].data == []
    ensures forall k :: k in m.files && k != path ==> r.files[k] == m.files[k]
    ensures r.homeDir == m.homeDir
  {
    m.(files := m.files[path := MapFile([], FileMode(perm.perm, true))])
  }

  function WriteFile(m: MockFileSystem, name: string, data: Bytes, perm: FileMode): (r: MockFileSystem)
    ensures ReadFile(r, name) == Ok(data)
    ensures r.files[name].mode == perm
    ensures forall k :: k != name ==> ReadFile(r, k) == ReadFile(m, k)
    ensures r.files.Keys == m.files.Keys + {name}
    ensures forall k :: k in m.files && k != name ==> r.files[k] == m.files[k]
    ensures r.homeDir == m.homeDir
  {
    m.(files := m.files[name := MapFile(data, perm)])
  }

  function ReadFile(m: MockFileSystem, name: string): (r: Result<Bytes, IoError>)
    ensures r.Ok? <==> name in m.files
    ensures r.Ok? ==> r.value == m.files[name].data
    ensures r.Err? ==> r.error == ErrNotExist
  {
    if name in m.files then Ok(m.files[name].data) else Err(ErrNotExist)
  }

  /** Deletes the key if present; removing an absent name is not an error. */
  function Remove(m: MockFileSystem, name: string): (r: MockFileSystem)
    ensures r.files.Keys == m.files.Keys - {name}
    ensures ReadFile(r, name) == Err(ErrNotExist)
    ensures forall k :: k in r.files ==> r.files[k] == m.files[k]
    ensures name !in m.files ==> r == m
    ensures r.homeDir == m.homeDir
  {
    m.(files := m.files - {name})
  }

  /** Deletes `path` and every key whose parent directory is exactly `path`. Keys two or
      more levels below `path` survive. */
  function RemoveAll(m: MockFileSystem, path: string): (r: MockFileSystem)
    ensures forall k :: k in r.files <==> k in m.files && k != path && Dir(k) != path
    ensures forall k :: k in r.files ==> r.files[k] == m.files[k]
    ensures r.homeDir == m.homeDir
  {
    m.(files := map k | k in m.files && k != path && Dir(k) != path :: m.files[k])
  }

  /** `k` names `path` itself or lies anywhere below it. */
  predicate AtOrBelow(k: string, path: string) {
    k == path || HasPrefix(k, DirPrefix(path))
  }

  /** `RemoveAll` as its comment and name describe it, and as the operating system's
      does: every key at or below `path` goes, at any depth, and nothing else. */
  function RemoveTree(m: MockFileSystem, path: string): (r: MockFileSystem)
    ensures forall k :: k in r.files <==> k in m.files && !AtOrBelow(k, path)
    ensures forall k :: k in r.files ==> r.files[k] == m.files[k]
    ensures r.homeDir == m.homeDir
  {
    m.(files := map k | k in m.files && !AtOrBelow(k, path) :: m.files[k])
  }

  /** A key two levels below the removed directory survives `RemoveAll`, which the
      corrected `RemoveTree` deletes: "d/x/y" outlives the removal of "d". */
  lemma RemoveAllKeepsGrandchildren(m: MockFileSystem)
    requires "d/x/y" in m.files
    ensures "d/x/y" in RemoveAll(m, "d").files
    ensures "d/x/y" !in RemoveTree(m, "d").files
  {
    DirOfGrandchild();
    assert DirPrefix("d") == "d/";
    assert HasPrefix("d/x/y", "d/");
  }

  lemma DirOfGrandchild()
    ensures Dir("d/x/y") == "d/x"
  {
    LastSepOfSample();
    assert "d/x/y"[..4] == "d/x/";
    CleanOfSample();
  }

  lemma LastSepOfSample()
    ensures LastSepEnd("d/x/y") == 4
  {
    assert "d/x/y"[..4] == "d/x/";
    assert LastSepEnd("d/x/") == 4;
  }

  lemma CleanOfSample()
    ensures Clean("d/x/") == "d/x"
  {
    ElementsOfSample();
    assert !Rooted("d/x/");
    assert JoinSlash(["d", "x"]) == "d/x";
  }

  lemma ElementsOfSample()
    ensures Elements("d/x/") == ["d", "x"]
  {
    SplitOfSample();
    FoldOfSample();
    assert !Rooted("d/x/");
  }

  lemma FoldOfSample()
    ensures CleanFold(false, ["d", "x", ""]) == ["d", "x"]
  {
    assert "d" != ".." && "x" != ".." && "d" != "." && "x" != ".";
    assert ["d"][..0] == [] && CleanStep(false, [], "d") == ["d"];
    assert CleanFold(false, ["d"]) == ["d"];
    assert ["d", "x"][..1] == ["d"] && CleanStep(false, ["d"], "x") == ["d", "x"];
    assert CleanFold(false, ["d", "x"]) == ["d", "x"];
    assert ["d", "x", ""][..2] == ["d", "x"] && CleanStep(false, ["d", "x"], "") == ["d", "x"];
  }

  lemma SplitOfSample()
    ensures Split("d/x/") == ["d", "x", ""]
  {
    assert Split("") == [""];
    assert "/"[1..] == "" && Split("/") == ["", ""];
    assert ['x'] + "" == "x" && ["", ""][1..] == [""];
    assert "x/"[1..] == "/" && Split("x/") == ["x", ""];
    assert "/x/"[1..] == "x/" && Split("/x/") == ["", "x", ""];
    assert ['d'] + "" == "d" && ["", "x", ""][1..] == ["x", ""];
    assert "d/x/"[1..] == "/x/";
  }

  /** The map has no links: `newname` receives the very record stored under `oldname`. */
  function Symlink(m: MockFileSystem, oldname: string, newname: string): (r: Result<MockFileSystem, IoError>)
    ensures r.Ok? <==> oldname in m.files
    ensures r.Err? ==> r.error == ErrNotExist
    ensures r.Ok? ==> ReadFile(r.value, newname) == ReadFile(m, oldname)
                      && r.value.files[newname] == m.files[oldname]
    ensures r.Ok? ==> r.value.files.Keys == m.files.Keys + {newname}
    ensures r.Ok? ==> forall k :: k in m.files && k != newname ==> r.value.files[k] == m.files[k]
  {
    if oldname in m.files then Ok(m.(files := m.files[newname := m.files[oldname]]))
    else Err(ErrNotExist)
  }

  /** `UserHomeDir` reports the configured home and never fails. */
  function UserHomeDir(m: MockFileSystem): string {
    m.homeDir
  }

  /** `Abs` is the identity on the mock and never fails. */
  function Abs(m: MockFileSystem, path: string): string {
    path
  }

  /** Resolving a path against the home directory, as the add command does: it succeeds
      exactly when the path lies within the home, with `filepath.Rel`'s result. */
  lemma HomeRelative(m: MockFileSystem, path: string)
    ensures Rel(m, UserHomeDir(m), Abs(m, path)).Ok? <==> Within(m.homeDir, path)
    ensures Rel(m, UserHomeDir(m), Abs(m, path)).Ok? ==>
              Paths.Rel(m.homeDir, path) == Ok(Rel(m, UserHomeDir(m), Abs(m, path)).value)
  {
  }

  /** `filepath.Rel`, refusing a result that climbs out of the base directory. */
  function Rel(m: MockFileSystem, basepath: string, targpath: string): (r: Result<string, IoError>)
    ensures r.Ok? ==> !Escapes(r.value)
    ensures r.Ok? <==> Within(basepath, targpath)
    ensures r.Ok? ==> Paths.Rel(basepath, targpath) == Ok(r.value)
    ensures Paths.Rel(basepath, targpath).Err? ==> r == Err(RelFailed(Paths.Rel(basepath, targpath).error))
    ensures Paths.Rel(basepath, targpath).Ok? && r.Err? ==> r.error == ErrInvalid
  {
    RelContainment(basepath, targpath);
    match Paths.Rel(basepath, targpath)
    case Err(e) => Err(RelFailed(e))
    case Ok(rel) => if Escapes(rel) then Err(ErrInvalid) else Ok(rel)
  }

  /** A relative path is refused exactly when the target is not lexically within the base. */
  lemma RelContainment(basepath: string, targpath: string)
    ensures (Paths.Rel(basepath, targpath).Ok? && !Escapes(Paths.Rel(basepath, targpath).value))
            <==> Within(basepath, targpath)
  {
    var cb, ct := Clean(basepath), Clean(targpath);
    CleanRooted(basepath);
    CleanRooted(targpath);
    if ct == cb {
      CleanInjective(basepath, targpath);
      var b, t := Elements(basepath), Elements(targpath);
      assert t[..|b|] == b;
    } else if Rooted(basepath) == Rooted(targpath) {
      if ct == "." {
        RelContainmentToDot(basepath, targpath);
      } else {
        RelContainmentElements(basepath, targpath);
      }
    }
  }

  lemma RelContainmentToDot(basepath: string, targpath: string)
    requires Clean(targpath) != Clean(basepath) && Rooted(basepath) == Rooted(targpath)
    requires Clean(targpath) == "."
    ensures (Paths.Rel(basepath, targpath).Ok? && !Escapes(Paths.Rel(basepath, targpath).value))
            <==> Within(basepath, targpath)
  {
    var b := Elements(basepath);
    CleanRooted(basepath);
    CleanRooted(targpath);
    CleanDotIff(targpath);
    CleanDotIff(basepath);
    assert b != [];
    var k := CommonPrefixLen(b, ["."]);
    assert k == 0;
    if b[0] != ".." {
      JoinSlashHead(Repeat("..", |b|) + ["."]);
    }
  }

  lemma RelContainmentElements(basepath: string, targpath: string)
    requires Clean(targpath) != Clean(basepath) && Rooted(basepath) == Rooted(targpath)
    requires Clean(targpath) != "."
    ensures (Paths.Rel(basepath, targpath).Ok? && !Escapes(Paths.Rel(basepath, targpath).value))
            <==> Within(basepath, targpath)
  {
    var b, t := Elements(basepath), Elements(targpath);
    CleanRooted(basepath);
    CleanRooted(targpath);
    if b == t {
      CleanEqualsIff(basepath, targpath);
      assert false;
    }
    RelElemsWithin(b, t);
  }

  /** The element-wise core of `filepath.Rel` for two different cleaned element lists:
      its result exists and does not climb out exactly when the base's elements lead the
      target's and the target does not continue with "..". */
  lemma RelElemsWithin(b: seq<string>, t: seq<string>)
    requires CleanElems(b) && CleanElems(t) && b != t
    ensures var k := CommonPrefixLen(b, t);
      var rel := if k < |b| && b[k] == ".." then None
                 else if k < |b| then Some(JoinSlash(Repeat("..", |b| - k) + t[k..]))
                 else Some(JoinSlash(t[k..]));
      (rel.Some? && !Escapes(rel.value)) <==> (|b| <= |t| && t[..|b|] == b && (|t| == |b| || t[|b|] != ".."))
  {
    var k := CommonPrefixLen(b, t);
    if k < |b| {
      if |b| <= |t| {
        assert t[k] != b[k] && t[..|b|][k] == t[k];
      }
      if b[k] != ".." {
        JoinSlashHead(Repeat("..", |b| - k) + t[k..]);
      }
    } else {
      assert t[..|b|] == b;
      if |t| > |b| {
        JoinSlashHead(t[k..]);
      }
    }
  }

  /** What `Stat` reports: the name it was asked for, the size and mode of the record. */
  datatype FileInfo = FileInfo(name: string, size: nat, mode: FileMode) {
    predicate IsDir() { mode.dir }
  }

  function Stat(m: MockFileSystem, name: string): (r: Result<FileInfo, IoError>)
    ensures r.Ok? <==> name in m.files
    ensures r.Err? ==> r.error == ErrNotExist
    ensures r.Ok? ==> r.value.name == name && r.value.size == |m.files[name].data|
                      && r.value.mode == m.files[name].mode
  {
    if name in m.files then Ok(FileInfo(name, |m.files[name].data|, m.files[name].mode))
    else Err(ErrNotExist)
  }

  /** An open handle: a snapshot of the record plus a read offset. */
  datatype MockFile = MockFile(name: string, data: Bytes, mode: FileMode, offset: nat)

  function Open(m: MockFileSystem, name: string): (r: Result<MockFile, IoError>)
    ensures r.Ok? <==> name in m.files
    ensures r.Err? ==> r.error == ErrNotExist
    ensures r.Ok? ==> r.value == MockFile(name, m.files[name].data, m.files[name].mode, 0)
  {
    if name in m.files then Ok(MockFile(name, m.files[name].data, m.files[name].mode, 0))
    else Err(ErrNotExist)
  }

  function FileStat(f: MockFile): (info: FileInfo)
    ensures info.name == f.name && info.size == |f.data| && info.mode == f.mode
  {
    FileInfo(f.name, |f.data|, f.mode)
  }

  function Min(a: nat, b: nat): nat {
    if a <= b then a else b
  }

  /** `mockFile.Read` into a buffer of `bufLen` bytes: the bytes copied and the advanced
      handle, or EOF once the offset has reached the end. */
  function Read(f: MockFile, bufLen: nat): (r: Result<(MockFile, Bytes), IoError>)
    ensures r.Err? <==> f.offset >= |f.data|
    ensures r.Err? ==> r.error == EOF
    ensures r.Ok? ==>
      var (g, got) := r.value;
      && |got| == Min(bufLen, |f.data| - f.offset)
      && got == f.data[f.offset..f.offset + |got|]
      && g == f.(offset := f.offset + |got|)
  {
    if f.offset >= |f.data| then Err(EOF)
    else
      var n := Min(bufLen, |f.data| - f.offset);
      Ok((f.(offset := f.offset + n), f.data[f.offset..f.offset + n]))
  }

  datatype DirEntry = DirEntry(name: string, mode: FileMode) {
    predicate IsDir() { mode.dir }
  }

  /** The prefix every key inside directory `name` starts with. */
  function DirPrefix(name: string): (d: string)
    ensures HasSuffix(d, "/")
  {
    if HasSuffix(name, "/") then name else name + "/"
  }

  /** `c` is listed by a directory whose key prefix is `d`. */
  predicate IsChild(m: MockFileSystem, d: string, c: string) {
    c != "" && NoSep(c) && d + c in m.files
  }

  function Children(m: MockFileSystem, d: string): (cs: set<string>)
    ensures forall c :: c in cs <==> IsChild(m, d, c)
  {
    var cs := set k | k in m.files && HasPrefix(k, d) && k[|d|..] != "" && NoSep(k[|d|..]) :: k[|d|..];
    forall c | IsChild(m, d, c)
      ensures c in cs
    {
      var k := d + c;
      assert HasPrefix(k, d) && k[|d|..] == c;
    }
    forall c | c in cs
      ensures IsChild(m, d, c)
    {
      var k :| k in m.files && HasPrefix(k, d) && k[|d|..] != "" && NoSep(k[|d|..]) && c == k[|d|..];
      assert k == d + c;
    }
    cs
  }

  function EntriesFor(m: MockFileSystem, d: string, names: seq<string>): (es: seq<DirEntry>)
    requires forall i :: 0 <= i < |names| ==> d + names[i] in m.files
    ensures |es| == |names|
    ensures forall i :: 0 <= i < |es| ==> es[i] == DirEntry(names[i], m.files[d + names[i]].mode)
  {
    if names == [] then []
    else [DirEntry(names[0], m.files[d + names[0]].mode)] + EntriesFor(m, d, names[1..])
  }

  function Names(es: seq<DirEntry>): (ns: seq<string>)
    ensures |ns| == |es| && forall i :: 0 <= i < |es| ==> ns[i] == es[i].name
  {
    if es == [] then [] else [es[0].name] + Names(es[1..])
  }

  /** The names `ReadDir(n)` reports for key prefix `d`: the children in increasing
      order, and only the `n` least of them when `0 < n`. */
  function ListedNames(m: MockFileSystem, d: string, n: int): (names: seq<string>)
    ensures StrOrder.StrictlySorted(names)
    ensures var total := |Children(m, d)|; |names| == (if 0 < n < total then n else total)
    ensures forall i :: 0 <= i < |names| ==> IsChild(m, d, names[i])
    ensures n <= 0 ==> forall c :: IsChild(m, d, c) ==> c in names
    ensures forall c :: IsChild(m, d, c) && c !in names ==>
              forall i :: 0 <= i < |names| ==> StrOrder.Less(names[i], c)
  {
    var all := StrOrder.SortedElements(Children(m, d));
    var names := if 0 < n < |all| then all[..n] else all;
    forall c | IsChild(m, d, c) && c !in names
      ensures forall i :: 0 <= i < |names| ==> StrOrder.Less(names[i], c)
    {
      assert c in all;
      var j :| 0 <= j < |all| && all[j] == c;
      assert j >= |names|;
    }
    names
  }

  /** `mockFile.ReadDir(n)`: the immediate children of the directory, sorted by name and
      cut to the first `n` when `n > 0`; a handle on a non-directory is invalid. */
  function ReadDir(m: MockFileSystem, f: MockFile, n: int): (r: Result<seq<DirEntry>, IoError>)
    ensures r.Ok? <==> f.mode.dir
    ensures r.Err? ==> r.error == ErrInvalid
    ensures r.Ok? ==> Names(r.value) == ListedNames(m, DirPrefix(f.name), n)
    ensures r.Ok? ==> forall i :: 0 <= i < |r.value| ==>
                        r.value[i].mode == m.files[DirPrefix(f.name) + r.value[i].name].mode
  {
    if !f.mode.dir then Err(ErrInvalid)
    else
      var d := DirPrefix(f.name);
      var names := ListedNames(m, d, n);
      var es := EntriesFor(m, d, names);
      assert Names(es) == names;
      Ok(es)
  }
}
