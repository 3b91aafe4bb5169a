/** Lexical path handling the core relies on: Go's `strings.Split`/`strings.Join`
    with the "/" separator, and `path/filepath`'s `Clean`, `Join`, `Dir`, `Ext` and
    `Rel`, all for a Unix-style separator and no volume names. */
module Paths {
  import opened Wrappers

  const Sep: char := '/'

  predicate HasPrefix(s: string, p: string) {
    |p| <= |s| && s[..|p|] == p
  }

  predicate HasSuffix(s: string, p: string) {
    |p| <= |s| && s[|s| - |p|..] == p
  }

  /** `strings.TrimPrefix`. */
  function TrimPrefix(s: string, p: string): (r: string)
    ensures HasPrefix(s, p) ==> p + r == s
    ensures !HasPrefix(s, p) ==> r == s
  {
    if HasPrefix(s, p) then s[|p|..] else s
  }

  predicate NoSep(s: string) {
    forall i :: 0 <= i < |s| ==> s[i] != Sep
  }

  /** A single path element that `Clean` keeps unchanged and that adds one level. */
  predicate IsName(n: string) {
    n != "" && n != "." && n != ".." && NoSep(n)
  }

  /** `strings.Split(s, "/")`: the pieces between separators, always at least one. */
  function Split(s: string): (r: seq<string>)
    ensures |r| >= 1
    ensures forall i :: 0 <= i < |r| ==> NoSep(r[i])
    decreases |s|
  {
    if s == [] then [""]
    else if s[0] == Sep then [""] + Split(s[1..])
    else
      var rest := Split(s[1..]);
      [[s[0]] + rest[0]] + rest[1..]
  }

  /** `strings.Join(cs, "/")`. */
  function JoinSlash(cs: seq<string>): string
    decreases |cs|
  {
    if |cs| == 0 then ""
    else if |cs| == 1 then cs[0]
    else cs[0] + [Sep] + JoinSlash(cs[1..])
  }

  lemma {:induction false} SplitJoinRoundTrip(s: string)
    ensures JoinSlash(Split(s)) == s
    decreases |s|
  {
    if s == [] {
    } else if s[0] == Sep {
      SplitJoinRoundTrip(s[1..]);
      var rest := Split(s[1..]);
      assert Split(s) == [""] + rest;
      if |rest| == 1 {
        assert JoinSlash(Split(s)) == "" + [Sep] + rest[0];
      } else {
        assert JoinSlash(Split(s)) == "" + [Sep] + JoinSlash(rest);
      }
      assert s == [s[0]] + s[1..];
    } else {
      SplitJoinRoundTrip(s[1..]);
      var rest := Split(s[1..]);
      var r := Split(s);
      assert r == [[s[0]] + rest[0]] + rest[1..];
      if |rest| == 1 {
        assert JoinSlash(r) == [s[0]] + rest[0];
      } else {
        assert r[1..] == rest[1..];
        assert JoinSlash(r) == [s[0]] + rest[0] + [Sep] + JoinSlash(rest[1..]);
        assert JoinSlash(rest) == rest[0] + [Sep] + JoinSlash(rest[1..]);
      }
      assert s == [s[0]] + s[1..];
    }
  }

  lemma {:induction false} SplitAppend(a: string, b: string)
    ensures Split(a + [Sep] + b) == Split(a) + Split(b)
    decreases |a|
  {
    var s := a + [Sep] + b;
    if a == [] {
      assert s == [Sep] + b;
      assert s[1..] == b;
    } else if a[0] == Sep {
      assert s[1..] == a[1..] + [Sep] + b;
      SplitAppend(a[1..], b);
    } else {
      assert s[0] == a[0] && s[1..] == a[1..] + [Sep] + b;
      SplitAppend(a[1..], b);
      SplitConsAppend(a[0], Split(a[1..]), Split(b));
    }
  }

  /** The list operation behind `Split`'s non-separator case distributes over `+`. */
  lemma SplitConsAppend(c: char, ra: seq<string>, rb: seq<string>)
    requires |ra| >= 1
    ensures [[c] + (ra + rb)[0]] + (ra + rb)[1..] == ([[c] + ra[0]] + ra[1..]) + rb
  {
    assert (ra + rb)[0] == ra[0];
    assert (ra + rb)[1..] == ra[1..] + rb;
  }

  lemma {:induction false} SplitOfNoSep(n: string)
    requires NoSep(n)
    ensures Split(n) == [n]
    decreases |n|
  {
    if n != [] {
      SplitOfNoSep(n[1..]);
      assert [n[0]] + n[1..] == n;
    }
  }

  lemma {:induction false} JoinSlashAppend(cs: seq<string>, n: string)
    requires |cs| >= 1
    ensures JoinSlash(cs + [n]) == JoinSlash(cs) + [Sep] + n
    decreases |cs|
  {
    if |cs| == 1 {
      assert cs + [n] == [cs[0], n];
    } else {
      assert (cs + [n])[1..] == cs[1..] + [n];
      JoinSlashAppend(cs[1..], n);
    }
  }

  predicate Rooted(p: string) {
    |p| > 0 && p[0] == Sep
  }

  /** One step of `filepath.Clean`'s left-to-right scan: empty and "." elements vanish,
      ".." removes the previous real element, is dropped at the root of a rooted path,
      and is kept when a relative path has nothing left to remove. */
  function CleanStep(rooted: bool, acc: seq<string>, c: string): seq<string>
  {
    if c == "" || c == "." then acc
    else if c == ".." then
      if |acc| > 0 && acc[|acc| - 1] != ".." then acc[..|acc| - 1]
      else if rooted then acc
      else acc + [".."]
    else acc + [c]
  }

  function CleanFold(rooted: bool, cs: seq<string>): (r: seq<string>)
    decreases |cs|
  {
    if cs == [] then [] else CleanStep(rooted, CleanFold(rooted, cs[..|cs| - 1]), cs[|cs| - 1])
  }

  /** Every element of a cleaned path is non-empty, free of separators and not ".". */
  predicate CleanElems(cs: seq<string>) {
    forall i :: 0 <= i < |cs| ==> cs[i] != "" && cs[i] != "." && NoSep(cs[i])
  }

  lemma {:induction false} CleanFoldElems(rooted: bool, cs: seq<string>)
    requires forall i :: 0 <= i < |cs| ==> NoSep(cs[i])
    ensures CleanElems(CleanFold(rooted, cs))
    decreases |cs|
  {
    if cs != [] {
      CleanFoldElems(rooted, cs[..|cs| - 1]);
    }
  }

  /** The elements of the cleaned form of `p`. */
  function Elements(p: string): (r: seq<string>)
    ensures CleanElems(r)
  {
    CleanFoldElems(Rooted(p), Split(p));
    CleanFold(Rooted(p), Split(p))
  }

  function Render(rooted: bool, cs: seq<string>): string {
    if rooted then [Sep] + JoinSlash(cs)
    else if cs == [] then "."
    else JoinSlash(cs)
  }

  /** `filepath.Clean`. */
  function Clean(p: string): string {
    Render(Rooted(p), Elements(p))
  }

  lemma CleanNonEmpty(p: string)
    ensures Clean(p) != ""
  {
    var e := Elements(p);
    if !Rooted(p) && e != [] {
      if |e| > 1 {
        assert JoinSlash(e) == e[0] + [Sep] + JoinSlash(e[1..]);
      }
      assert HasPrefix(JoinSlash(e), e[0]);
    }
  }

  lemma CleanRooted(p: string)
    ensures Rooted(Clean(p)) == Rooted(p)
  {
    var e := Elements(p);
    if !Rooted(p) && e != [] {
      if |e| > 1 {
        assert JoinSlash(e) == e[0] + [Sep] + JoinSlash(e[1..]);
      }
      assert e[0] != "" && NoSep(e[0]);
      assert JoinSlash(e)[0] == e[0][0];
    }
  }

  /** Appending a plain name to a clean directory path is already clean: this is what
      lets `filepath.Join(dir, name)` be read as `dir + "/" + name`. */
  lemma CleanAppendName(d: string, n: string)
    requires Clean(d) == d && d != "/" && d != "."
    requires IsName(n)
    ensures Clean(d + [Sep] + n) == d + [Sep] + n
  {
    CleanNonEmpty(d);
    var p := d + [Sep] + n;
    assert Rooted(p) == Rooted(d);
    SplitAppend(d, n);
    SplitOfNoSep(n);
    var sd := Split(d);
    assert Split(p) == sd + [n];
    assert (sd + [n])[..|sd + [n]| - 1] == sd;
    assert Elements(p) == CleanStep(Rooted(d), Elements(d), n);
    assert Elements(p) == Elements(d) + [n];
    var e := Elements(d);
    assert e != [];
    JoinSlashAppend(e, n);
  }

  /** The index of the first non-empty element, or `|elems|` when there is none. */
  function FirstNonEmpty(elems: seq<string>): (i: nat)
    ensures i <= |elems|
    decreases |elems|
  {
    if elems == [] || elems[0] != "" then 0 else 1 + FirstNonEmpty(elems[1..])
  }

  /** `filepath.Join`: leading empty elements are skipped, the rest are joined with the
      separator and cleaned; all-empty input gives "". */
  function Join(elems: seq<string>): string {
    var i := FirstNonEmpty(elems);
    if i == |elems| then "" else Clean(JoinSlash(elems[i..]))
  }

  predicate CleanDir(d: string) {
    Clean(d) == d && d != "/" && d != "."
  }

  lemma JoinDirName(d: string, n: string)
    requires CleanDir(d) && IsName(n)
    ensures Join([d, n]) == d + [Sep] + n
    ensures CleanDir(d + [Sep] + n)
  {
    CleanNonEmpty(d);
    assert JoinSlash([d, n]) == d + [Sep] + JoinSlash([n]);
    CleanAppendName(d, n);
    assert |d + [Sep] + n| >= 3;
  }

  lemma JoinDirNameName(d: string, s: string, n: string)
    requires CleanDir(d) && IsName(s) && IsName(n)
    ensures Join([d, s, n]) == d + [Sep] + s + [Sep] + n
  {
    CleanNonEmpty(d);
    JoinDirName(d, s);
    var ds := d + [Sep] + s;
    JoinDirName(ds, n);
    assert JoinSlash([d, s, n]) == d + [Sep] + JoinSlash([s, n]);
    assert JoinSlash([s, n]) == s + [Sep] + JoinSlash([n]);
    assert JoinSlash([d, s, n]) == ds + [Sep] + n;
    CleanAppendName(ds, n);
  }

  /** Index just past the last separator of `p`, or 0 when `p` has none. */
  function LastSepEnd(p: string): (k: nat)
    ensures k <= |p|
    ensures k > 0 ==> p[k - 1] == Sep
    ensures forall i :: k <= i < |p| ==> p[i] != Sep
    decreases |p|
  {
    if p == [] then 0
    else if p[|p| - 1] == Sep then |p|
    else LastSepEnd(p[..|p| - 1])
  }

  /** `filepath.Dir`: everything up to the last separator, cleaned. */
  function Dir(p: string): string {
    Clean(p[..LastSepEnd(p)])
  }

  /** `filepath.Ext`: the suffix starting at the final "." of the last element, or "". */
  function Ext(p: string): (e: string)
    ensures e == "" || (HasSuffix(p, e) && e[0] == '.' && NoSep(e)
                        && forall i :: 1 <= i < |e| ==> e[i] != '.')
    ensures e == "" ==> forall i :: LastSepEnd(p) <= i < |p| ==> p[i] != '.'
    decreases |p|
  {
    if p == [] || p[|p| - 1] == Sep then ""
    else if p[|p| - 1] == '.' then "."
    else
      var e := Ext(p[..|p| - 1]);
      if e == "" then "" else e + [p[|p| - 1]]
  }

  /** For a directory-entry name, testing `Ext(n) == ".json"` is a suffix test. */
  lemma ExtJson(n: string)
    requires NoSep(n)
    ensures Ext(n) == ".json" <==> HasSuffix(n, ".json")
  {
    if HasSuffix(n, ".json") {
      ExtOfSuffix(n[..|n| - 5], ".json");
      assert n[..|n| - 5] + ".json" == n;
    }
  }

  /** A suffix that starts with "." and holds no other "." and no separator is the
      extension. */
  lemma {:induction false} ExtOfSuffix(p: string, x: string)
    requires |x| >= 1 && x[0] == '.'
    requires forall i :: 1 <= i < |x| ==> x[i] != '.' && x[i] != Sep
    ensures Ext(p + x) == x
    decreases |x|
  {
    var y := x[..|x| - 1];
    var c := x[|x| - 1];
    assert p + x == (p + y) + [c];
    ExtAppend(p + y, c);
    if |x| > 1 {
      ExtOfSuffix(p, y);
      assert y + [c] == x;
    }
  }

  /** `Ext` read one character at a time. */
  lemma ExtAppend(p: string, c: char)
    ensures Ext(p + [c]) == if c == Sep then "" else if c == '.' then "."
                            else if Ext(p) == "" then "" else Ext(p) + [c]
  {
    assert (p + [c])[..|p|] == p;
  }

  datatype PathError = CannotMakeRelative(base: string, targ: string)

  function CommonPrefixLen(a: seq<string>, b: seq<string>): (k: nat)
    ensures k <= |a| && k <= |b|
    ensures a[..k] == b[..k]
    ensures k < |a| && k < |b| ==> a[k] != b[k]
    decreases |a|
  {
    if a == [] || b == [] || a[0] != b[0] then 0
    else
      var k := CommonPrefixLen(a[1..], b[1..]);
      assert a[1..][..k] == a[1..k + 1];
      assert b[1..][..k] == b[1..k + 1];
      assert a[..k + 1] == [a[0]] + a[1..k + 1];
      assert b[..k + 1] == [b[0]] + b[1..k + 1];
      1 + k
  }

  function Repeat(s: string, n: nat): (r: seq<string>)
    ensures |r| == n && forall i :: 0 <= i < n ==> r[i] == s
  {
    if n == 0 then [] else [s] + Repeat(s, n - 1)
  }

  /** `filepath.Rel`, element-wise: after cleaning, the common leading elements are
      dropped, each remaining base element becomes "..", and the remaining target
      elements follow. A base that would need to climb out of a ".." element, or a
      rooted/unrooted mismatch, cannot be made relative. */
  function Rel(basepath: string, targpath: string): Result<string, PathError> {
    var base := Clean(basepath);
    var targ := Clean(targpath);
    if targ == base then Ok(".")
    else if Rooted(base) != Rooted(targ) then Err(CannotMakeRelative(basepath, targpath))
    else
      var b := Elements(basepath);
      var t := if targ == "." then ["."] else Elements(targpath);
      var k := CommonPrefixLen(b, t);
      if k < |b| && b[k] == ".." then Err(CannotMakeRelative(basepath, targpath))
      else if k < |b| then Ok(JoinSlash(Repeat("..", |b| - k) + t[k..]))
      else Ok(JoinSlash(t[k..]))
  }

  /** The result of `Rel` climbs out of the base directory. */
  predicate Escapes(rel: string) {
    rel == ".." || (|rel| > 2 && rel[..3] == "../")
  }

  /** `targ` lies lexically at or below `base`: both cleaned paths are rooted alike, the
      base's elements lead the target's, and the target does not continue with "..". */
  predicate Within(base: string, targ: string) {
    var b := Elements(base);
    var t := Elements(targ);
    && Rooted(base) == Rooted(targ)
    && |b| <= |t| && t[..|b|] == b
    && (|t| == |b| || t[|b|] != "..")
  }

  lemma JoinSlashHead(cs: seq<string>)
    requires |cs| >= 1 && NoSep(cs[0])
    ensures Escapes(JoinSlash(cs)) <==> cs[0] == ".."
  {
    FirstElement(cs);
    var s := JoinSlash(cs);
    if cs[0] == ".." && |cs| > 1 {
      assert s[..3] == "../";
    }
    if Escapes(s) {
      assert s[0] == '.' && s[1] == '.';
      assert |s| == 2 || s[2] == Sep;
      assert |cs[0]| == 2;
      assert cs[0] == s[..2];
    }
  }

  lemma CleanEqualsIff(p: string, q: string)
    requires Rooted(p) == Rooted(q) && Elements(p) == Elements(q)
    ensures Clean(p) == Clean(q)
  {
  }

  /** A non-rooted path whose cleaned form is "." has no elements, and conversely. */
  lemma CleanDotIff(p: string)
    ensures Clean(p) == "." <==> (!Rooted(p) && Elements(p) == [])
  {
    var e := Elements(p);
    if Rooted(p) {
      assert Clean(p)[0] == Sep;
    } else if e != [] {
      FirstElement(e);
      assert e[0] != ".";
    }
  }

  /** The elements and rootedness determine the cleaned path. */
  lemma CleanInjective(p: string, q: string)
    requires Clean(p) == Clean(q)
    ensures Rooted(p) == Rooted(q) && Elements(p) == Elements(q)
  {
    CleanRooted(p);
    CleanRooted(q);
    var ep, eq := Elements(p), Elements(q);
    if Rooted(p) {
      assert JoinSlash(ep) == Clean(p)[1..] == JoinSlash(eq);
      JoinSlashInjective(ep, eq);
    } else {
      CleanDotIff(p);
      CleanDotIff(q);
      if ep != [] && eq != [] {
        JoinSlashInjective(ep, eq);
      }
    }
  }

  lemma {:induction false} JoinSlashInjective(a: seq<string>, b: seq<string>)
    requires CleanElems(a) && CleanElems(b)
    requires JoinSlash(a) == JoinSlash(b)
    ensures a == b
    decreases |a|
  {
    if a != [] {
      FirstElement(a);
    }
    if b != [] {
      FirstElement(b);
    }
    if |a| > 1 && |b| > 1 {
      var s := JoinSlash(a);
      assert a[0] == b[0];
      assert JoinSlash(a) == a[0] + [Sep] + JoinSlash(a[1..]);
      assert JoinSlash(b) == b[0] + [Sep] + JoinSlash(b[1..]);
      assert JoinSlash(a[1..]) == s[|a[0]| + 1..] == JoinSlash(b[1..]);
      JoinSlashInjective(a[1..], b[1..]);
      assert a == [a[0]] + a[1..];
      assert b == [b[0]] + b[1..];
    }
  }

  /** The first element of a joined sequence is its text up to the first separator. */
  lemma FirstElement(a: seq<string>)
    requires |a| >= 1 && NoSep(a[0])
    ensures |a[0]| <= |JoinSlash(a)| && JoinSlash(a)[..|a[0]|] == a[0]
    ensures |a| > 1 <==> |a[0]| < |JoinSlash(a)|
    ensures |a| > 1 ==> JoinSlash(a)[|a[0]|] == Sep
    ensures forall i :: 0 <= i < |a[0]| ==> JoinSlash(a)[i] != Sep
  {
    if |a| > 1 {
      assert JoinSlash(a) == a[0] + [Sep] + JoinSlash(a[1..]);
    }
  }
}
