/** The go-billy adapter over the project's filesystem (internal/fs/billy_fs.go), run
    against the map-backed filesystem: an open file is a byte buffer plus an offset,
    every write rewrites the whole file, and `Rename` is copy-then-delete. */
module Billy {
  import opened Wrappers
  import opened Paths
  import opened MockFs

  /** `os.O_*` open flags as on Linux. */
  const O_RDONLY: bv32 := 0x0
  const O_WRONLY: bv32 := 0x1
  const O_RDWR: bv32 := 0x2
  const O_CREATE: bv32 := 0x40
  const O_TRUNC: bv32 := 0x200

  /** `io.SeekStart`, `io.SeekCurrent`, `io.SeekEnd`. */
  const SeekStart: int := 0
  const SeekCurrent: int := 1
  const SeekEnd: int := 2

  const Int64Min: int := -0x8000_0000_0000_0000
  const Int64Max: int := 0x7FFF_FFFF_FFFF_FFFF

  predicate IsInt64(x: int) {
    Int64Min <= x <= Int64Max
  }

  /** Two's-complement wrap-around of Go's `int64` addition. */
  function WrapInt64(x: int): (r: int)
    ensures IsInt64(r)
    ensures IsInt64(x) ==> r == x
    ensures (r - x) % 0x1_0000_0000_0000_0000 == 0
  {
    (x - Int64Min) % 0x1_0000_0000_0000_0000 + Int64Min
  }

  datatype BillyFile = BillyFile(
    name: string,
    data: Bytes,
    flag: bv32,
    perm: FileMode,
    offset: int,
    basePath: string)
  {
    predicate Writable() {
      flag & O_WRONLY != 0 || flag & O_RDWR != 0
    }

    predicate WriteOnly() {
      flag & O_WRONLY != 0
    }

    function Path(): string {
      Join([basePath, name])
    }
  }

  /** `BillyFileSystem.OpenFile`: with `O_CREATE` the parent directory is made and the
      buffer starts empty (nothing is written yet); without it the existing contents are
      read, and a missing file is an error. The offset starts at zero. */
  function OpenFile(fs: MockFileSystem, basePath: string, filename: string, flag: bv32, perm: FileMode)
    : (r: Result<(BillyFile, MockFileSystem), IoError>)
    ensures r.Err? <==> flag & O_CREATE == 0 && Join([basePath, filename]) !in fs.files
    ensures r.Ok? ==>
      var (f, fs') := r.value;
      && f.name == filename && f.basePath == basePath && f.flag == flag && f.perm == perm && f.offset == 0
      && (flag & O_CREATE == 0 ==> fs' == fs && f.data == fs.files[f.Path()].data)
      && (flag & O_CREATE != 0 ==> f.data == [] && Dir(f.Path()) in fs'.files)
      && fs'.files.Keys <= fs.files.Keys + {Dir(f.Path())}
      && (forall k :: k in fs.files && k != Dir(f.Path()) ==> k in fs'.files && fs'.files[k] == fs.files[k])
  {
    var filePath := Join([basePath, filename]);
    if flag & O_CREATE != 0 then
      Ok((BillyFile(filename, [], flag, perm, 0, basePath), MkdirAll(fs, Dir(filePath), Mode0755)))
    else
      match ReadFile(fs, filePath)
      case Err(e) => Err(e)
      case Ok(data) => Ok((BillyFile(filename, data, flag, perm, 0, basePath), fs))
  }

  /** The file handle and filesystem after a call, and what the call returned. */
  datatype Step<T> = Step(file: BillyFile, fs: MockFileSystem, result: Result<T, IoError>)

  /** `billyFile.Write`: refuses a read-only handle; otherwise appends `p` to the buffer
      whatever the offset, advances the offset by `len(p)`, creates the parent directory
      and rewrites the whole file. */
  function Write(fs: MockFileSystem, f: BillyFile, p: Bytes): (s: Step<nat>)
    ensures !f.Writable() <==> s.result == Err(ErrPermission)
    ensures s.result.Err? ==> s.file == f && s.fs == fs
    ensures s.result.Ok? ==>
      && s.result.value == |p|
      && s.file == f.(data := f.data + p, offset := WrapInt64(f.offset + |p|))
      && ReadFile(s.fs, f.Path()) == Ok(f.data + p)
      && s.fs.files[f.Path()].mode == f.perm
      && s.fs.files.Keys == fs.files.Keys + {Dir(f.Path()), f.Path()}
      && (forall k :: k in fs.files && k != f.Path() && k != Dir(f.Path()) ==> s.fs.files[k] == fs.files[k])
  {
    var filePath := f.Path();
    if !f.Writable() then Step(f, fs, Err(ErrPermission))
    else
      var fs1 := MkdirAll(fs, Dir(filePath), Mode0755);
      var g := f.(data := f.data + p, offset := WrapInt64(f.offset + |p|));
      Step(g, WriteFile(fs1, filePath, g.data, g.perm), Ok(|p|))
  }

  /** A call that either returns or makes the Go runtime panic (a slice with a negative
      start, in the reads below). */
  datatype Call<T> = Returned(value: T) | Panicked

  /** The source's reads slice the buffer from the position once the EOF tests have not
      fired; a negative position gets past both tests and panics. */
  predicate SlicePanics(f: BillyFile, pos: int) {
    !f.WriteOnly() && !(|f.data| == 0 && f.flag & O_CREATE == 0) && pos < 0
  }

  /** `billyFile.Read` into a buffer of `bufLen` bytes. */
  function Read(f: BillyFile, bufLen: nat): (c: Call<(BillyFile, Result<Bytes, IoError>)>)
    ensures c.Panicked? <==> SlicePanics(f, f.offset)
    ensures c.Returned? && c.value.1.Err? ==> c.value.0 == f
    ensures f.WriteOnly() ==> c == Returned((f, Err(ErrPermission)))
    ensures !f.WriteOnly() && |f.data| == 0 && f.flag & O_CREATE == 0 ==> c == Returned((f, Err(EOF)))
    ensures !f.WriteOnly() && f.offset >= |f.data| ==> c == Returned((f, Err(EOF)))
    ensures !f.WriteOnly() && 0 <= f.offset < |f.data| ==>
      && c.Returned? && c.value.1.Ok?
      && |c.value.1.value| == Min(bufLen, |f.data| - f.offset)
      && c.value.1.value == f.data[f.offset..f.offset + |c.value.1.value|]
      && c.value.0 == f.(offset := f.offset + |c.value.1.value|)
  {
    if f.WriteOnly() then Returned((f, Err(ErrPermission)))
    else if |f.data| == 0 && f.flag & O_CREATE == 0 then Returned((f, Err(EOF)))
    else if f.offset >= |f.data| then Returned((f, Err(EOF)))
    else if f.offset < 0 then Panicked
    else
      var n := Min(bufLen, |f.data| - f.offset);
      Returned((f.(offset := f.offset + n), Ok(f.data[f.offset..f.offset + n])))
  }

  /** `billyFile.ReadAt`: like `Read` from position `off`, but the handle is unchanged. */
  function ReadAt(f: BillyFile, bufLen: nat, off: int): (c: Call<Result<Bytes, IoError>>)
    ensures c.Panicked? <==> SlicePanics(f, off)
    ensures f.WriteOnly() ==> c == Returned(Err(ErrPermission))
    ensures !f.WriteOnly() && |f.data| == 0 && f.flag & O_CREATE == 0 ==> c == Returned(Err(EOF))
    ensures !f.WriteOnly() && off >= |f.data| ==> c == Returned(Err(EOF))
    ensures !f.WriteOnly() && 0 <= off < |f.data| ==>
      && c.Returned? && c.value.Ok?
      && |c.value.value| == Min(bufLen, |f.data| - off) && c.value.value == f.data[off..off + |c.value.value|]
  {
    if f.WriteOnly() then Returned(Err(ErrPermission))
    else if |f.data| == 0 && f.flag & O_CREATE == 0 then Returned(Err(EOF))
    else if off >= |f.data| then Returned(Err(EOF))
    else if off < 0 then Panicked
    else
      var n := Min(bufLen, |f.data| - off);
      Returned(Ok(f.data[off..off + n]))
  }

  /** `billyFile.Seek`: the target is measured from the start, the current offset or the
      end (with `int64` wrap-around); an unknown `whence` or a negative target is invalid
      and leaves the handle as it was. */
  function Seek(f: BillyFile, offset: int, whence: int): (s: (BillyFile, Result<int, IoError>))
    ensures s.1.Err? ==> s.1.error == ErrInvalid && s.0 == f
    ensures whence !in {SeekStart, SeekCurrent, SeekEnd} ==> s.1.Err?
    ensures s.1.Ok? ==> s.1.value >= 0 && s.0 == f.(offset := s.1.value)
    ensures IsInt64(offset) && IsInt64(f.offset + offset) && IsInt64(|f.data| + offset) ==>
      var target := if whence == SeekStart then offset
                    else if whence == SeekCurrent then f.offset + offset
                    else |f.data| + offset;
      whence in {SeekStart, SeekCurrent, SeekEnd} ==> (s.1.Ok? <==> target >= 0) && (s.1.Ok? ==> s.1.value == target)
    ensures whence in {SeekStart, SeekCurrent, SeekEnd} ==>
      var target := WrapInt64(if whence == SeekStart then offset
                              else if whence == SeekCurrent then f.offset + offset
                              else |f.data| + offset);
      (s.1.Ok? <==> target >= 0) && (s.1.Ok? ==> s.1.value == target)
  {
    var target :=
      if whence == SeekStart then Some(WrapInt64(offset))
      else if whence == SeekCurrent then Some(WrapInt64(f.offset + offset))
      else if whence == SeekEnd then Some(WrapInt64(|f.data| + offset))
      else None;
    match target
    case None => (f, Err(ErrInvalid))
    case Some(t) => if t < 0 then (f, Err(ErrInvalid)) else (f.(offset := t), Ok(t))
  }

  /** `billyFile.Truncate`: a negative size is invalid; otherwise the buffer becomes exactly
      `size` bytes, zero-padded or cut, and is written back. The offset is untouched. */
  function Truncate(fs: MockFileSystem, f: BillyFile, size: int): (s: Step<()>)
    ensures size < 0 <==> s.result.Err?
    ensures s.result.Err? ==> s.result.error == ErrInvalid && s.file == f && s.fs == fs
    ensures s.result.Ok? ==>
      && |s.file.data| == size
      && (size <= |f.data| ==> s.file.data == f.data[..size])
      && (size > |f.data| ==> s.file.data[..|f.data|] == f.data
                              && forall i :: |f.data| <= i < size ==> s.file.data[i] == 0)
      && s.file == f.(data := s.file.data)
      && ReadFile(s.fs, f.Path()) == Ok(s.file.data)
      && s.fs.files[f.Path()].mode == f.perm
      && s.fs.files.Keys == fs.files.Keys + {f.Path()}
      && (forall k :: k in fs.files && k != f.Path() ==> s.fs.files[k] == fs.files[k])
  {
    if size < 0 then Step(f, fs, Err(ErrInvalid))
    else
      var data := if size > |f.data| then f.data + Zeros(size - |f.data|) else f.data[..size];
      Step(f.(data := data), WriteFile(fs, f.Path(), data, f.perm), Ok(()))
  }

  function Zeros(n: nat): (z: Bytes)
    ensures |z| == n && forall i :: 0 <= i < n ==> z[i] == 0
  {
    if n == 0 then [] else [0] + Zeros(n - 1)
  }

  /** `billyFile.Close`: a writable handle writes its buffer back. */
  function Close(fs: MockFileSystem, f: BillyFile): (r: MockFileSystem)
    ensures f.Writable() ==> ReadFile(r, f.Path()) == Ok(f.data) && r.files[f.Path()].mode == f.perm
    ensures f.Writable() ==> r.files.Keys == fs.files.Keys + {f.Path()}
    ensures forall k :: k in fs.files && k != f.Path() ==> k in r.files && r.files[k] == fs.files[k]
    ensures !f.Writable() ==> r == fs
  {
    if f.Writable() then WriteFile(fs, f.Path(), f.data, f.perm) else fs
  }

  /** `BillyFileSystem.Rename`: read the old file, create the new parent, write the new
      file, then delete the old one. A missing old file changes nothing. */
  function Rename(fs: MockFileSystem, basePath: string, oldpath: string, newpath: string): (r: Result<MockFileSystem, IoError>)
    ensures var src := Join([basePath, oldpath]);
            r.Err? <==> src !in fs.files
    ensures r.Err? ==> r.error == ErrNotExist
    ensures r.Ok? ==>
      var src := Join([basePath, oldpath]);
      var dst := Join([basePath, newpath]);
      && ReadFile(r.value, src) == Err(ErrNotExist)
      && (dst != src ==> ReadFile(r.value, dst) == ReadFile(fs, src)
                         && r.value.files[dst].mode == Mode0644)
      && (forall k :: k in fs.files && k != src && k != dst && k != Dir(dst) ==> k in r.value.files && r.value.files[k] == fs.files[k])
      && r.value.files.Keys == (fs.files.Keys + {Dir(dst), dst}) - {src}
      && (Dir(dst) != dst && Dir(dst) != src ==>
            r.value.files[Dir(dst)].mode.dir && r.value.files[Dir(dst)].mode.perm == Mode0755.perm
            && r.value.files[Dir(dst)].data == [])
  {
    var src := Join([basePath, oldpath]);
    match ReadFile(fs, src)
    case Err(e) => Err(e)
    case Ok(data) =>
      var dst := Join([basePath, newpath]);
      var fs1 := MkdirAll(fs, Dir(dst), Mode0755);
      var fs2 := WriteFile(fs1, dst, data, Mode0644);
      Ok(Remove(fs2, src))
  }

  /** What a handle created with `Create` writes, a later `Open` of the same name reads back. */
  lemma {:induction false} CreateWriteOpenRead(fs: MockFileSystem, basePath: string, name: string, p: Bytes)
    requires |p| > 0
    ensures var (f0, fs0) := OpenFile(fs, basePath, name, O_RDWR | O_CREATE | O_TRUNC, FileMode(0x1B6, false)).value;
            var w := Write(fs0, f0, p);
            var o := OpenFile(w.fs, basePath, name, O_RDONLY, FileMode(0, false));
            && o.Ok?
            && Read(o.value.0, |p|) == Returned((o.value.0.(offset := |p|), Ok(p)))
  {
    var (f0, fs0) := OpenFile(fs, basePath, name, O_RDWR | O_CREATE | O_TRUNC, FileMode(0x1B6, false)).value;
    assert f0.Writable();
    var w := Write(fs0, f0, p);
    assert f0.data + p == p;
    assert ReadFile(w.fs, f0.Path()) == Ok(p);
    var o := OpenFile(w.fs, basePath, name, O_RDONLY, FileMode(0, false));
    assert o.value.0.data == p;
    assert p[0..|p|] == p;
  }

  /** Because the copy is written before the src name is deleted, renaming a file onto
      its own name deletes it. */
  lemma RenameOntoItselfLosesFile(fs: MockFileSystem, basePath: string, p: string)
    requires Join([basePath, p]) in fs.files
    ensures Rename(fs, basePath, p, p).Ok?
    ensures Join([basePath, p]) !in Rename(fs, basePath, p, p).value.files
  {
  }

  /** The offset is an `int64`: seeking to its maximum and writing one byte wraps it to a
      negative value, and the next read then panics instead of returning. */
  lemma SeekWriteWrapsThenReadPanics(fs: MockFileSystem, f: BillyFile, bufLen: nat)
    requires f.Writable() && !f.WriteOnly()
    ensures var (f1, sought) := Seek(f, Int64Max, SeekStart);
            var w := Write(fs, f1, [1]);
            && sought == Ok(Int64Max)
            && w.result == Ok(1)
            && w.file.offset == Int64Min
            && Read(w.file, bufLen).Panicked?
  {
    var f1 := f.(offset := Int64Max);
    assert WrapInt64(Int64Max) == Int64Max;
    assert Seek(f, Int64Max, SeekStart) == (f1, Ok(Int64Max));
    var w := Write(fs, f1, [1]);
    assert WrapInt64(Int64Max + 1) == Int64Min;
    assert w.file == f1.(data := f.data + [1], offset := Int64Min);
    assert SlicePanics(w.file, w.file.offset);
  }
}
