/** The file and directory copies of cmd/add.go and the checks that compare a copy with
    its source, over the map-backed filesystem. Reads go through `mockFile.Read`, so a
    whole-file read of an empty file reports EOF, and that error propagates. Directory
    recursion carries a depth bound `fuel`: a key named ".." lets the walk revisit a
    directory, so the recursion of the source need not end. */
module CopyVerify {
  import opened Wrappers
  import opened Paths
  import opened MockFs

  /** Why a copy failed. */
  datatype CopyError =
    | CopyIo(cause: IoError)    // the error of the filesystem call
    | CopyTooDeep               // the depth bound ran out

  /** Why a verification failed, one case per message of `verifyFileCopy` and `verifyDirCopy`. */
  datatype VerifyError =
    | ReadSourceFailed(cause: IoError)              // "error reading source file"
    | ReadDestFailed(cause: IoError)                // "error reading destination file"
    | SizesDiffer(srcSize: nat, dstSize: nat)       // "file sizes differ"
    | ReadSourceContentFailed(cause: IoError)       // "error reading source file content"
    | ReadDestContentFailed(cause: IoError)         // "error reading destination file content"
    | ContentsDiffer(at: nat)                       // "file contents differ at byte"
    | ReadSourceDirFailed(cause: IoError)           // "error reading source directory"
    | ReadDestDirFailed(cause: IoError)             // "error reading destination directory"
    | ReadSourceEntriesFailed(cause: IoError)       // "error reading source directory entries"
    | ReadDestEntriesFailed(cause: IoError)         // "error reading destination directory entries"
    | CountsDiffer(srcCount: nat, dstCount: nat)    // "directory contents differ"
    | NamesDiffer(srcName: string, dstName: string) // "directory entries differ"
    | DirOnlyInSource(name: string)                 // "is a directory in source but not in destination"
    | DirOnlyInDest(name: string)                   // "is a file in source but a directory in destination"
    | FileFailed(name: string, inner: VerifyError)  // "error verifying file"
    | VerifyTooDeep                                 // the depth bound ran out

  // ---- files ----

  /** `copyFile`: open the source, read as many bytes as its size, and write them to `dst`
      with the source's mode. */
  function CopyFile(fs: MockFileSystem, src: string, dst: string): (r: Result<MockFileSystem, CopyError>)
    ensures src !in fs.files ==> r == Err(CopyIo(ErrNotExist))
    ensures src in fs.files && fs.files[src].data == [] ==> r == Err(CopyIo(EOF))
    ensures r.Ok? <==> src in fs.files && fs.files[src].data != []
    ensures r.Ok? ==> r.value == WriteFile(fs, dst, fs.files[src].data, fs.files[src].mode)
  {
    match Open(fs, src)
    case Err(e) => Err(CopyIo(e))
    case Ok(f) =>
      var info := FileStat(f);
      match MockFs.Read(f, info.size)
      case Err(e) => Err(CopyIo(e))
      case Ok((_, data)) =>
        assert data == f.data[0..|f.data|] == f.data;
        Ok(WriteFile(fs, dst, data, info.mode))
  }

  /** The index of the first byte where two equally long sequences differ, or their
      length when they agree. */
  function FirstDiff(a: Bytes, b: Bytes): (i: nat)
    requires |a| == |b|
    ensures i <= |a| && a[..i] == b[..i]
    ensures i < |a| ==> a[i] != b[i]
    decreases |a|
  {
    if a == [] then 0
    else if a[0] != b[0] then 0
    else
      var j := FirstDiff(a[1..], b[1..]);
      assert a[..1 + j] == [a[0]] + a[1..][..j];
      assert b[..1 + j] == [b[0]] + b[1..][..j];
      1 + j
  }

  /** `verifyFileCopy`: both files open, their sizes agree, both read in full, and no
      byte differs; the first differing byte is the one reported. */
  function VerifyFileCopy(fs: MockFileSystem, src: string, dst: string): (r: Result<(), VerifyError>)
    ensures src !in fs.files ==> r == Err(ReadSourceFailed(ErrNotExist))
    ensures src in fs.files && dst !in fs.files ==> r == Err(ReadDestFailed(ErrNotExist))
    ensures src in fs.files && dst in fs.files && |fs.files[src].data| != |fs.files[dst].data| ==>
              r == Err(SizesDiffer(|fs.files[src].data|, |fs.files[dst].data|))
    ensures src in fs.files && dst in fs.files && fs.files[src].data == [] && fs.files[dst].data == [] ==>
              r == Err(ReadSourceContentFailed(EOF))
    ensures r.Ok? <==> src in fs.files && dst in fs.files && fs.files[src].data == fs.files[dst].data
                       && fs.files[src].data != []
    ensures r.Err? && r.error.ContentsDiffer? ==>
              var a, b, i := fs.files[src].data, fs.files[dst].data, r.error.at;
              && |a| == |b| && i < |a| && a[..i] == b[..i] && a[i] != b[i]
  {
    match Open(fs, src)
    case Err(e) => Err(ReadSourceFailed(e))
    case Ok(sf) =>
      match Open(fs, dst)
      case Err(e) => Err(ReadDestFailed(e))
      case Ok(df) =>
        var si, di := FileStat(sf), FileStat(df);
        if si.size != di.size then Err(SizesDiffer(si.size, di.size))
        else
          match MockFs.Read(sf, si.size)
          case Err(e) => Err(ReadSourceContentFailed(e))
          case Ok((_, a)) =>
            match MockFs.Read(df, di.size)
            case Err(e) => Err(ReadDestContentFailed(e))
            case Ok((_, b)) =>
              assert a == sf.data[0..|sf.data|] == sf.data;
              assert b == df.data[0..|df.data|] == df.data;
              var i := FirstDiff(a, b);
              if i < |a| then Err(ContentsDiffer(i))
              else
                assert a == a[..i] == b[..i] == b;
                Ok(())
  }

  /** A successful file copy passes the file check. */
  lemma CopyThenVerifyFile(fs: MockFileSystem, src: string, dst: string)
    requires CopyFile(fs, src, dst).Ok?
    ensures VerifyFileCopy(CopyFile(fs, src, dst).value, src, dst).Ok?
  {
    var fs2 := CopyFile(fs, src, dst).value;
    assert fs2.files[dst].data == fs.files[src].data;
    assert src == dst || fs2.files[src] == fs.files[src];
  }

  // ---- directories ----

  /** The filesystem after a directory copy, and the error that stopped it. What was
      written before the error stays written. */
  datatype Copied = Copied(fs: MockFileSystem, err: Option<CopyError>)

  /** `copyDir`: create `dst` as a directory, list `src` and copy each entry in turn,
      directories recursively; the first failure ends the walk. */
  function CopyDir(fs: MockFileSystem, src: string, dst: string, fuel: nat): (r: Copied)
    ensures fs.files.Keys + {dst} <= r.fs.files.Keys && r.fs.homeDir == fs.homeDir
    ensures src !in fs.files && src != dst ==> r.err == Some(CopyIo(ErrNotExist))
    ensures src in fs.files && src != dst && !fs.files[src].mode.dir ==> r.err == Some(CopyIo(ErrInvalid))
    decreases fuel, 1, 0
  {
    var fs1 := MkdirAll(fs, dst, Mode0755);
    match Open(fs1, src)
    case Err(e) => Copied(fs1, Some(CopyIo(e)))
    case Ok(dir) =>
      match ReadDir(fs1, dir, -1)
      case Err(e) => Copied(fs1, Some(CopyIo(e)))
      case Ok(entries) => CopyEntries(fs1, src, dst, entries, fuel)
  }

  /** The loop of `copyDir` over the listed entries. */
  function CopyEntries(fs: MockFileSystem, src: string, dst: string, es: seq<DirEntry>, fuel: nat): (r: Copied)
    ensures fs.files.Keys <= r.fs.files.Keys && r.fs.homeDir == fs.homeDir
    ensures es == [] ==> r == Copied(fs, None)
    decreases fuel, 0, |es|
  {
    if es == [] then Copied(fs, None)
    else
      var srcPath := Join([src, es[0].name]);
      var dstPath := Join([dst, es[0].name]);
      var c :=
        if !es[0].IsDir() then
          match CopyFile(fs, srcPath, dstPath)
          case Err(e) => Copied(fs, Some(e))
          case Ok(fs2) => Copied(fs2, None)
        else if fuel == 0 then Copied(fs, Some(CopyTooDeep))
        else CopyDir(fs, srcPath, dstPath, fuel - 1);
      if c.err.Some? then c else CopyEntries(c.fs, src, dst, es[1..], fuel)
  }

  /** `verifyDirCopy`: both directories open and list, they hold as many entries, and
      the entries agree one by one. */
  function VerifyDirCopy(fs: MockFileSystem, src: string, dst: string, fuel: nat): (r: Result<(), VerifyError>)
    ensures src !in fs.files ==> r == Err(ReadSourceDirFailed(ErrNotExist))
    ensures src in fs.files && dst !in fs.files ==> r == Err(ReadDestDirFailed(ErrNotExist))
    ensures r.Ok? ==> src in fs.files && dst in fs.files && fs.files[src].mode.dir && fs.files[dst].mode.dir
    decreases fuel, 1, 0
  {
    match Open(fs, src)
    case Err(e) => Err(ReadSourceDirFailed(e))
    case Ok(sd) =>
      match Open(fs, dst)
      case Err(e) => Err(ReadDestDirFailed(e))
      case Ok(dd) =>
        match ReadDir(fs, sd, -1)
        case Err(e) => Err(ReadSourceEntriesFailed(e))
        case Ok(se) =>
          match ReadDir(fs, dd, -1)
          case Err(e) => Err(ReadDestEntriesFailed(e))
          case Ok(de) =>
            if |se| != |de| then Err(CountsDiffer(|se|, |de|))
            else VerifyEntries(fs, src, dst, se, de, fuel)
  }

  /** The check one pair of entries must pass, directories recursively. */
  function VerifyPair(fs: MockFileSystem, src: string, dst: string, s: DirEntry, d: DirEntry, fuel: nat)
    : (r: Result<(), VerifyError>)
    ensures r.Ok? ==> s.name == d.name && s.IsDir() == d.IsDir()
    ensures r.Ok? && !s.IsDir() ==> VerifyFileCopy(fs, Join([src, s.name]), Join([dst, d.name])).Ok?
    ensures r.Ok? && s.IsDir() ==> fuel > 0 && VerifyDirCopy(fs, Join([src, s.name]), Join([dst, d.name]), fuel - 1).Ok?
    decreases fuel, 0, 0
  {
    if s.name != d.name then Err(NamesDiffer(s.name, d.name))
    else
      var srcPath := Join([src, s.name]);
      var dstPath := Join([dst, d.name]);
      if s.IsDir() then
        if !d.IsDir() then Err(DirOnlyInSource(s.name))
        else if fuel == 0 then Err(VerifyTooDeep)
        else VerifyDirCopy(fs, srcPath, dstPath, fuel - 1)
      else if d.IsDir() then Err(DirOnlyInDest(s.name))
      else
        match VerifyFileCopy(fs, srcPath, dstPath)
        case Err(e) => Err(FileFailed(s.name, e))
        case Ok(_) => Ok(())
  }

  /** The loop of `verifyDirCopy`: the first pair that fails decides the error. */
  function VerifyEntries(fs: MockFileSystem, src: string, dst: string, se: seq<DirEntry>, de: seq<DirEntry>, fuel: nat)
    : (r: Result<(), VerifyError>)
    requires |se| == |de|
    ensures r.Ok? ==> forall i :: 0 <= i < |se| ==> se[i].name == de[i].name && se[i].IsDir() == de[i].IsDir()
    decreases fuel, 0, |se|
  {
    if se == [] then Ok(())
    else
      match VerifyPair(fs, src, dst, se[0], de[0], fuel)
      case Err(e) => Err(e)
      case Ok(_) =>
        var rest := VerifyEntries(fs, src, dst, se[1..], de[1..], fuel);
        if rest.Ok? then AgreeCons(se, de); rest else rest
  }

  /** Listings agree name by name and kind by kind when their heads and tails do. */
  lemma AgreeCons(se: seq<DirEntry>, de: seq<DirEntry>)
    requires |se| == |de| > 0
    requires se[0].name == de[0].name && se[0].IsDir() == de[0].IsDir()
    requires forall i :: 0 <= i < |se| - 1 ==> se[1..][i].name == de[1..][i].name && se[1..][i].IsDir() == de[1..][i].IsDir()
    ensures forall i :: 0 <= i < |se| ==> se[i].name == de[i].name && se[i].IsDir() == de[i].IsDir()
  {
    forall i | 1 <= i < |se|
      ensures se[i].name == de[i].name && se[i].IsDir() == de[i].IsDir()
    {
      assert se[i] == se[1..][i - 1] && de[i] == de[1..][i - 1];
    }
  }

  /** The declarative reading of the entry loop: every pair passes. */
  predicate AllPairsPass(fs: MockFileSystem, src: string, dst: string, se: seq<DirEntry>, de: seq<DirEntry>, fuel: nat)
    requires |se| == |de|
  {
    forall i :: 0 <= i < |se| ==> VerifyPair(fs, src, dst, se[i], de[i], fuel).Ok?
  }

  /** The entry loop succeeds exactly when every pair passes: equal names in order,
      agreeing kinds, directories verified recursively and files byte for byte. */
  lemma {:induction false} VerifyEntriesAllPairs(fs: MockFileSystem, src: string, dst: string,
                                                 se: seq<DirEntry>, de: seq<DirEntry>, fuel: nat)
    requires |se| == |de|
    ensures VerifyEntries(fs, src, dst, se, de, fuel).Ok? <==> AllPairsPass(fs, src, dst, se, de, fuel)
    decreases |se|
  {
    if se != [] {
      VerifyEntriesAllPairs(fs, src, dst, se[1..], de[1..], fuel);
      assert VerifyEntries(fs, src, dst, se, de, fuel).Ok? <==>
               VerifyPair(fs, src, dst, se[0], de[0], fuel).Ok? && VerifyEntries(fs, src, dst, se[1..], de[1..], fuel).Ok?;
      if AllPairsPass(fs, src, dst, se, de, fuel) {
        forall i | 0 <= i < |se| - 1
          ensures VerifyPair(fs, src, dst, se[1..][i], de[1..][i], fuel).Ok?
        {
          assert se[1..][i] == se[i + 1] && de[1..][i] == de[i + 1];
        }
      }
      if VerifyEntries(fs, src, dst, se, de, fuel).Ok? {
        forall i | 0 <= i < |se|
          ensures VerifyPair(fs, src, dst, se[i], de[i], fuel).Ok?
        {
          if i > 0 {
            assert se[1..][i - 1] == se[i] && de[1..][i - 1] == de[i];
          }
        }
      }
    }
  }

  /** A verified directory copy has the same entry names as its source: the listings
      are both complete and sorted, and they agree name by name. */
  lemma VerifiedDirsHaveSameChildren(fs: MockFileSystem, src: string, dst: string, fuel: nat)
    requires VerifyDirCopy(fs, src, dst, fuel).Ok?
    ensures Children(fs, DirPrefix(src)) == Children(fs, DirPrefix(dst))
    ensures forall c :: IsChild(fs, DirPrefix(src), c) ==>
              fs.files[DirPrefix(src) + c].mode.dir == fs.files[DirPrefix(dst) + c].mode.dir
  {
    var sd := Open(fs, src).value;
    var dd := Open(fs, dst).value;
    var se := ReadDir(fs, sd, -1).value;
    var de := ReadDir(fs, dd, -1).value;
    VerifyEntriesAllPairs(fs, src, dst, se, de, fuel);
    var sn, dn := ListedNames(fs, DirPrefix(src), -1), ListedNames(fs, DirPrefix(dst), -1);
    assert Names(se) == sn && Names(de) == dn;
    forall i | 0 <= i < |se|
      ensures sn[i] == dn[i]
      ensures fs.files[DirPrefix(src) + sn[i]].mode.dir == fs.files[DirPrefix(dst) + dn[i]].mode.dir
    {
      assert VerifyPair(fs, src, dst, se[i], de[i], fuel).Ok?;
    }
    assert sn == dn;
  }
}
