/** The `status` command of cmd/status.go: it takes git's status of the dotman
    repository, keeps the paths under `data/`, builds a tree of them by path component,
    and prints that tree with a two-character status symbol per file.

    Opening the repository and asking git for its status are left out: the status is
    given, as the list of (path, file status) pairs in the order Go's map iteration
    visits them. Printing is modelled as the list of lines printed. */
module StatusCmd {
  import opened Wrappers
  import opened Paths

  // ---- git's file status ----

  /** go-git's status codes. */
  datatype StatusCode = Unmodified | Untracked | Modified | Added | Deleted | Renamed | Copied | UpdatedButUnmerged
  {
    /** The byte go-git uses for the code. */
    function Letter(): char {
      match this
      case Unmodified => ' '
      case Untracked => '?'
      case Modified => 'M'
      case Added => 'A'
      case Deleted => 'D'
      case Renamed => 'R'
      case Copied => 'C'
      case UpdatedButUnmerged => 'U'
    }
  }

  datatype FileStatus = FileStatus(staging: StatusCode, worktree: StatusCode)

  // ---- the tree ----

  /** A tree node: a file holding its status, or a directory of named children. */
  datatype Node = File(status: FileStatus) | Dir(children: map<string, Node>)

  type Tree = map<string, Node>

  /** The node at the component path `q`, if any. */
  function Lookup(t: Tree, q: seq<string>): Option<Node>
    requires q != []
    decreases |q|
  {
    if q[0] !in t then None
    else if |q| == 1 then Some(t[q[0]])
    else match t[q[0]]
      case File(_) => None
      case Dir(c) => Lookup(c, q[1..])
  }

  /** A file is at `q`. */
  predicate FileAt(t: Tree, q: seq<string>) {
    q != [] && Lookup(t, q).Some? && Lookup(t, q).value.File?
  }

  /** The inner loop of the tree building: every component but the last names a
      directory, created when absent; the last gets the file's status. A component
      that already holds a file fails the type assertion, which panics: `None`. */
  function Insert(t: Tree, parts: seq<string>, st: FileStatus): (r: Option<Tree>)
    requires parts != []
    ensures r.Some? ==> r.value.Keys == t.Keys + {parts[0]}
    ensures r.Some? ==> forall k :: k in t && k != parts[0] ==> r.value[k] == t[k]
    decreases |parts|
  {
    if |parts| == 1 then Some(t[parts[0] := File(st)])
    else
      var sub := if parts[0] in t then t[parts[0]] else Dir(map[]);
      match sub
      case File(_) => None
      case Dir(c) =>
        match Insert(c, parts[1..], st)
        case None => None
        case Some(c2) => Some(t[parts[0] := Dir(c2)])
  }

  /** Neither path is a prefix of the other (nor equal to it). */
  predicate Diverge(p: seq<string>, q: seq<string>) {
    exists k :: 0 <= k < |p| && k < |q| && p[k] != q[k]
  }

  /** After an insertion the file is at its path. */
  lemma {:induction false} InsertFinds(t: Tree, parts: seq<string>, st: FileStatus)
    requires parts != [] && Insert(t, parts, st).Some?
    ensures Lookup(Insert(t, parts, st).value, parts) == Some(File(st))
    decreases |parts|
  {
    if |parts| > 1 {
      var sub := if parts[0] in t then t[parts[0]] else Dir(map[]);
      InsertFinds(sub.children, parts[1..], st);
    }
  }

  /** An insertion changes nothing at a path that diverges from its own. */
  lemma {:induction false} InsertKeepsOthers(t: Tree, parts: seq<string>, st: FileStatus, q: seq<string>)
    requires parts != [] && q != [] && Insert(t, parts, st).Some? && Diverge(parts, q)
    ensures Lookup(Insert(t, parts, st).value, q) == Lookup(t, q)
    decreases |parts|
  {
    if parts[0] == q[0] {
      var k :| 0 <= k < |parts| && k < |q| && parts[k] != q[k];
      assert |parts| > 1 && |q| > 1;
      var sub := if parts[0] in t then t[parts[0]] else Dir(map[]);
      assert parts[1..][k - 1] != q[1..][k - 1];
      InsertKeepsOthers(sub.children, parts[1..], st, q[1..]);
    }
  }

  /** An insertion panics exactly when a proper prefix of its path holds a file. */
  lemma {:induction false} InsertPanicsIff(t: Tree, parts: seq<string>, st: FileStatus)
    requires parts != []
    ensures Insert(t, parts, st).None? <==> exists k :: 1 <= k < |parts| && FileAt(t, parts[..k])
    decreases |parts|
  {
    if |parts| > 1 {
      var sub := if parts[0] in t then t[parts[0]] else Dir(map[]);
      if sub.Dir? {
        InsertPanicsIff(sub.children, parts[1..], st);
        if Insert(t, parts, st).None? {
          var k :| 1 <= k < |parts| - 1 && FileAt(sub.children, parts[1..][..k]);
          assert parts[..k + 1][1..] == parts[1..][..k];
          assert FileAt(t, parts[..k + 1]);
        } else {
          forall k | 1 <= k < |parts|
            ensures !FileAt(t, parts[..k])
          {
            if k > 1 {
              assert parts[..k][1..] == parts[1..][..k - 1];
            }
          }
        }
      } else {
        assert FileAt(t, parts[..1]);
      }
    }
  }

  /** The only file an insertion adds is its own. */
  lemma {:induction false} InsertAddsOnlyItsFile(t: Tree, parts: seq<string>, st: FileStatus, q: seq<string>, s: FileStatus)
    requires parts != [] && q != [] && Insert(t, parts, st).Some?
    requires Lookup(Insert(t, parts, st).value, q) == Some(File(s))
    ensures (q == parts && s == st) || Lookup(t, q) == Some(File(s))
    decreases |parts|
  {
    if |parts| > 1 && q[0] == parts[0] {
      var sub := if parts[0] in t then t[parts[0]] else Dir(map[]);
      if |q| > 1 {
        InsertAddsOnlyItsFile(sub.children, parts[1..], st, q[1..], s);
        if q[1..] == parts[1..] {
          assert q == [q[0]] + q[1..] && parts == [parts[0]] + parts[1..];
        }
      }
    }
  }

  // ---- building the tree ----

  const DataPrefix: string := "data/"

  predicate IsDataPath(file: string) {
    HasPrefix(file, DataPrefix)
  }

  /** The components of a data path, the `data/` prefix stripped. */
  function PartsOf(file: string): (r: seq<string>)
    ensures r != []
  {
    Split(TrimPrefix(file, DataPrefix))
  }

  /** The file at `q`, with status `s`, is that of one of the first `n` data paths. */
  predicate FromStatus(status: seq<(string, FileStatus)>, n: nat, q: seq<string>, s: FileStatus)
    requires n <= |status|
  {
    exists i :: 0 <= i < n && IsDataPath(status[i].0) && PartsOf(status[i].0) == q && status[i].1 == s
  }

  /** Every file of the tree is that of one of the first `n` data paths, with its status. */
  ghost predicate FilesFrom(tree: Tree, status: seq<(string, FileStatus)>, n: nat)
    requires n <= |status|
  {
    forall q :: FileAt(tree, q) ==> FromStatus(status, n, q, Lookup(tree, q).value.status)
  }

  /** No data path's components are a prefix of another's: git reports files, and no
      file is also a directory of another. */
  predicate PrefixFree(status: seq<(string, FileStatus)>) {
    forall i, j ::
      0 <= i < |status| && 0 <= j < |status| && i != j && IsDataPath(status[i].0) && IsDataPath(status[j].0)
      ==> Diverge(PartsOf(status[i].0), PartsOf(status[j].0))
  }

  /** The outer loop of the tree building, over the status in iteration order: paths
      outside `data/` are skipped; the others are inserted. `None` is the panic. */
  method BuildTree(status: seq<(string, FileStatus)>) returns (r: Option<Tree>)
    ensures r.Some? ==> (r.value == map[] <==> forall i :: 0 <= i < |status| ==> !IsDataPath(status[i].0))
    ensures r.Some? ==> FilesFrom(r.value, status, |status|)
    ensures PrefixFree(status) ==> r.Some?
    ensures PrefixFree(status) ==> forall i :: 0 <= i < |status| && IsDataPath(status[i].0) ==>
              Lookup(r.value, PartsOf(status[i].0)) == Some(File(status[i].1))
  {
    var tree: Tree := map[];
    var n := 0;
    while n < |status|
      invariant 0 <= n <= |status|
      invariant tree == map[] <==> forall i :: 0 <= i < n ==> !IsDataPath(status[i].0)
      invariant FilesFrom(tree, status, n)
      invariant PrefixFree(status) ==> forall i :: 0 <= i < n && IsDataPath(status[i].0) ==>
                  Lookup(tree, PartsOf(status[i].0)) == Some(File(status[i].1))
    {
      var (file, st) := status[n];
      if !IsDataPath(file) {
        n := n + 1;
        continue;
      }
      var parts := PartsOf(file);
      var next := Insert(tree, parts, st);
      if next.None? {
        if PrefixFree(status) {
          NoPanicWhenPrefixFree(status, n, tree);
        }
        return None;
      }
      InsertStep(status, n, tree, next.value);
      tree := next.value;
      n := n + 1;
    }
    r := Some(tree);
  }

  /** A path that diverges from another is none of its prefixes. */
  lemma DivergeNotPrefix(p: seq<string>, q: seq<string>, k: nat)
    requires Diverge(p, q) && k <= |q|
    ensures p != q[..k]
  {
  }

  /** With prefix-free paths, no earlier file lies on the path of the next one. */
  lemma NoPanicWhenPrefixFree(status: seq<(string, FileStatus)>, n: nat, tree: Tree)
    requires n < |status| && IsDataPath(status[n].0) && PrefixFree(status)
    requires FilesFrom(tree, status, n)
    ensures Insert(tree, PartsOf(status[n].0), status[n].1).Some?
  {
    var parts := PartsOf(status[n].0);
    forall k | 1 <= k < |parts|
      ensures !FileAt(tree, parts[..k])
    {
      forall i | 0 <= i < n && IsDataPath(status[i].0)
        ensures PartsOf(status[i].0) != parts[..k]
      {
        DivergeNotPrefix(PartsOf(status[i].0), parts, k);
      }
    }
    InsertPanicsIff(tree, parts, status[n].1);
  }

  /** One insertion keeps the loop's invariants. */
  lemma InsertStep(status: seq<(string, FileStatus)>, n: nat, tree: Tree, tree2: Tree)
    requires n < |status| && IsDataPath(status[n].0)
    requires Insert(tree, PartsOf(status[n].0), status[n].1) == Some(tree2)
    requires FilesFrom(tree, status, n)
    requires PrefixFree(status) ==> forall i :: 0 <= i < n && IsDataPath(status[i].0) ==>
               Lookup(tree, PartsOf(status[i].0)) == Some(File(status[i].1))
    ensures tree2 != map[]
    ensures FilesFrom(tree2, status, n + 1)
    ensures PrefixFree(status) ==> forall i :: 0 <= i < n + 1 && IsDataPath(status[i].0) ==>
              Lookup(tree2, PartsOf(status[i].0)) == Some(File(status[i].1))
  {
    var parts := PartsOf(status[n].0);
    var st := status[n].1;
    InsertFinds(tree, parts, st);
    assert parts[0] in tree2;
    forall q | FileAt(tree2, q)
      ensures FromStatus(status, n + 1, q, Lookup(tree2, q).value.status)
    {
      InsertAddsOnlyItsFile(tree, parts, st, q, Lookup(tree2, q).value.status);
    }
    if PrefixFree(status) {
      forall i | 0 <= i < n && IsDataPath(status[i].0)
        ensures Lookup(tree2, PartsOf(status[i].0)) == Some(File(status[i].1))
      {
        InsertKeepsOthers(tree, parts, st, PartsOf(status[i].0));
      }
    }
  }

  // ---- the symbols ----

  /** The status column of a file's line: untracked in both is `??`; otherwise the
      staging code Added, Modified, Deleted or Renamed in the first column; otherwise the
      worktree code Modified, Deleted or Added in the second; otherwise blank. */
  function Symbol(st: FileStatus): (r: string)
    ensures |r| == 2
    ensures r == "??" <==> st.staging == Untracked && st.worktree == Untracked
    ensures r != "??" && st.staging in {Added, Modified, Deleted, Renamed} ==> r == [st.staging.Letter(), ' ']
    ensures r != "??" && st.staging !in {Added, Modified, Deleted, Renamed} && st.worktree in {Modified, Deleted, Added} ==>
              r == [' ', st.worktree.Letter()]
    ensures !(st.staging == Untracked && st.worktree == Untracked)
            && st.staging !in {Added, Modified, Deleted, Renamed} && st.worktree !in {Modified, Deleted, Added} ==>
              r == "  "
    ensures r[0] == ' ' || r[1] == ' ' || r == "??"
  {
    if st.staging == Untracked && st.worktree == Untracked then "??"
    else if st.staging == Added then "A "
    else if st.staging == Modified then "M "
    else if st.staging == Deleted then "D "
    else if st.staging == Renamed then "R "
    else if st.worktree == Modified then " M"
    else if st.worktree == Deleted then " D"
    else if st.worktree == Added then " A"
    else "  "
  }

  const Folder: string := "\U{1F4C1}"

  /** The connector before an item: the corner for the last item, a tee otherwise. */
  function Connector(isLastItem: bool): string {
    if isLastItem then "\U{2514}\U{2500}\U{2500} " else "\U{251C}\U{2500}\U{2500} "
  }

  /** The guide column below an item: blank below the last item, a bar otherwise. */
  function Guide(isLast: bool): string {
    if isLast then "    " else "\U{2502}   "
  }

  // ---- printing ----

  /** One order in which `printTree` may visit a tree: Go's map iteration order is not
      fixed, so the order is a parameter, tied to the tree by `Lists`. */
  datatype Shape = Leaf(key: string, status: FileStatus) | Branch(key: string, kids: seq<Shape>)

  /** `items` lists every key of `t` once, each with the node it holds. */
  predicate Lists(t: Tree, items: seq<Shape>)
    decreases items
  {
    && |items| == |t|
    && (forall i, j :: 0 <= i < j < |items| ==> items[i].key != items[j].key)
    && forall i :: 0 <= i < |items| ==>
         && items[i].key in t
         && match items[i]
            case Leaf(_, st) => t[items[i].key] == File(st)
            case Branch(_, kids) => t[items[i].key].Dir? && Lists(t[items[i].key].children, kids)
  }

  /** What an item shows before its key. */
  function Label(it: Shape): string {
    match it
    case Leaf(_, st) => Symbol(st)
    case Branch(_, _) => Folder
  }

  /** `printTree`'s line for an item: prefix, connector, label, a blank and the key. */
  function Line(prefix: string, isLastItem: bool, it: Shape): string {
    prefix + Connector(isLastItem) + Label(it) + " " + it.key
  }

  /** `printTree` as written: each item's line is the prefix, the connector, the label
      and the key; a directory's children follow with the prefix extended by the guide
      chosen by the flag the call was given, which is whether the directory's PARENT was
      the last item, not whether the directory is. */
  function PrintTreeAsWritten(items: seq<Shape>, prefix: string, isLast: bool): (r: seq<string>)
    ensures |r| >= |items|
    ensures items != [] ==> r[0] == Line(prefix, |items| == 1, items[0])
    decreases items
  {
    if items == [] then []
    else
      var it := items[0];
      var isLastItem := |items| == 1;
      [Line(prefix, isLastItem, it)]
      + (if it.Branch? then PrintTreeAsWritten(it.kids, prefix + Guide(isLast), isLastItem) else [])
      + PrintTreeAsWritten(items[1..], prefix, isLast)
  }

  /** `printTree` as intended: a directory's children follow with the prefix extended by
      the guide for the directory itself, a bar while it has later siblings. */
  function PrintTree(items: seq<Shape>, prefix: string): (r: seq<string>)
    ensures |r| >= |items|
    ensures items != [] ==> r[0] == Line(prefix, |items| == 1, items[0])
    decreases items
  {
    if items == [] then []
    else
      var it := items[0];
      var isLastItem := |items| == 1;
      [Line(prefix, isLastItem, it)]
      + (if it.Branch? then PrintTree(it.kids, prefix + Guide(isLastItem)) else [])
      + PrintTree(items[1..], prefix)
  }

  /** The as-written and the intended drawing print the same number of lines: one per
      item, depth first. Only the guide columns differ. */
  lemma {:induction false} SameLineCount(items: seq<Shape>, p: string, isLast: bool, q: string)
    ensures |PrintTreeAsWritten(items, p, isLast)| == |PrintTree(items, q)|
    decreases items
  {
    if items != [] {
      var it := items[0];
      var isLastItem := |items| == 1;
      if it.Branch? {
        SameLineCount(it.kids, p + Guide(isLast), isLastItem, q + Guide(isLastItem));
      }
      SameLineCount(items[1..], p, isLast, q);
    }
  }

  // ---- what a tree drawing means ----

  /** One line of a drawing, by its meaning: `open[d]` says whether the ancestor at depth
      `d` has a later sibling, `last` whether the item itself is the last of its siblings. */
  datatype Row = Row(open: seq<bool>, last: bool, item: Shape)

  /** The rows of a drawing of `items` below ancestors `open`, depth first. */
  function Rows(items: seq<Shape>, open: seq<bool>): seq<Row>
    decreases items
  {
    if items == [] then []
    else
      var it := items[0];
      var isLastItem := |items| == 1;
      [Row(open, isLastItem, it)]
      + (if it.Branch? then Rows(it.kids, open + [!isLastItem]) else [])
      + Rows(items[1..], open)
  }

  /** The guide columns for ancestors `open`: a bar under each one with later siblings. */
  function Guides(open: seq<bool>): string
    decreases |open|
  {
    if open == [] then "" else Guides(open[..|open| - 1]) + Guide(!open[|open| - 1])
  }

  function RowText(r: Row): string {
    Line(Guides(r.open), r.last, r.item)
  }

  function Texts(rows: seq<Row>): (r: seq<string>)
    ensures |r| == |rows|
    ensures forall i :: 0 <= i < |rows| ==> r[i] == RowText(rows[i])
    decreases |rows|
  {
    if rows == [] then [] else [RowText(rows[0])] + Texts(rows[1..])
  }

  lemma {:induction false} TextsAppend(a: seq<Row>, b: seq<Row>)
    ensures Texts(a + b) == Texts(a) + Texts(b)
  {
  }

  /** The corrected printing draws every row as its meaning says: each line shows a bar
      in column `d` exactly when its ancestor at depth `d` has a later sibling. */
  lemma {:induction false} PrintTreeDrawsRows(items: seq<Shape>, open: seq<bool>)
    ensures PrintTree(items, Guides(open)) == Texts(Rows(items, open))
    decreases items
  {
    if items != [] {
      var it := items[0];
      var isLastItem := |items| == 1;
      var head := [Row(open, isLastItem, it)];
      var sub := if it.Branch? then Rows(it.kids, open + [!isLastItem]) else [];
      var rest := Rows(items[1..], open);
      if it.Branch? {
        assert (open + [!isLastItem])[..|open|] == open;
        assert Guides(open + [!isLastItem]) == Guides(open) + Guide(isLastItem);
        PrintTreeDrawsRows(it.kids, open + [!isLastItem]);
      }
      PrintTreeDrawsRows(items[1..], open);
      TextsAppend(head + sub, rest);
      TextsAppend(head, sub);
    }
  }

  /** A tree whose first directory has a later sibling. */
  const SampleStatus: FileStatus := FileStatus(Untracked, Untracked)
  const SampleKids: seq<Shape> := [Leaf("x", SampleStatus)]
  const SampleItems: seq<Shape> := [Branch("a", SampleKids), Leaf("b", SampleStatus)]
  const SampleTree: Tree := map["a" := Dir(map["x" := File(SampleStatus)]), "b" := File(SampleStatus)]

  /** `SampleItems` is an order in which `printTree` may visit `SampleTree`. */
  lemma SampleListsTree()
    ensures Lists(SampleTree, SampleItems)
  {
    assert SampleTree.Keys == {"a", "b"};
    assert map["x" := File(SampleStatus)].Keys == {"x"};
  }

  /** The lines `printTree` as written prints for the sample. */
  lemma SampleAsWritten()
    ensures PrintTreeAsWritten(SampleItems, "", true)
         == [Line("", false, SampleItems[0]), Line(Guide(true), true, SampleKids[0]), Line("", true, SampleItems[1])]
  {
    var last := [SampleItems[1]];
    assert SampleItems[1..] == last && last[1..] == [] && SampleKids[1..] == [];
    assert "" + Guide(true) == Guide(true);
    assert PrintTreeAsWritten(SampleKids, Guide(true), false) == [Line(Guide(true), true, SampleKids[0])];
    assert PrintTreeAsWritten(last, "", true) == [Line("", true, SampleItems[1])];
  }

  /** The rows of the sample's drawing. */
  lemma SampleRows()
    ensures Rows(SampleItems, []) == [Row([], false, SampleItems[0]), Row([true], true, SampleKids[0]), Row([], true, SampleItems[1])]
  {
    var last := [SampleItems[1]];
    assert SampleItems[1..] == last && last[1..] == [] && SampleKids[1..] == [];
    assert [] + [!false] == [true];
    assert Rows(SampleKids, [true]) == [Row([true], true, SampleKids[0])];
    assert Rows(last, []) == [Row([], true, SampleItems[1])];
  }

  /** `printTree` as written draws the child of `a` without the bar that joins `a` to its
      later sibling `b`: the second line starts with four blanks where the drawing of the
      tree has a bar. */
  lemma AsWrittenDropsGuide()
    ensures Lists(SampleTree, SampleItems)
    ensures PrintTreeAsWritten(SampleItems, "", true)
         == [Line("", false, SampleItems[0]), Line(Guide(true), true, SampleKids[0]), Line("", true, SampleItems[1])]
    ensures Texts(Rows(SampleItems, []))
         == [Line("", false, SampleItems[0]), Line(Guide(false), true, SampleKids[0]), Line("", true, SampleItems[1])]
    ensures Line(Guide(true), true, SampleKids[0])[0] == ' '
    ensures Line(Guide(false), true, SampleKids[0])[0] == '\U{2502}'
  {
    SampleListsTree();
    SampleAsWritten();
    SampleRows();
    assert Guides([true]) == Guide(false) by {
      assert [true][..0] == [];
    }
  }

  // ---- the command ----

  const Header: seq<string> := ["Git Status:", "-----------"]
  const Clean: string := "Working directory clean"

  /** The lines the command prints for the tree built from git's status, visited in the
      order `items`: the header, then "Working directory clean" for an empty tree and
      the drawing otherwise. */
  function Output(tree: Tree, items: seq<Shape>): (r: seq<string>)
    requires Lists(tree, items)
    ensures |r| >= 3 && r[..2] == Header
    ensures r == Header + [Clean] <==> tree == map[]
    ensures tree != map[] ==> r[2..] == Texts(Rows(items, []))
  {
    if tree == map[] then Header + [Clean]
    else
      PrintTreeDrawsRows(items, []);
      assert items != [];
      var first := Rows(items, [])[0];
      assert RowText(first)[0] == Connector(first.last)[0];
      assert Texts(Rows(items, []))[0] != Clean;
      Header + PrintTree(items, "")
  }

  /** The lines the command prints as written: `Output` with the as-written drawing. It
      prints as many lines as `Output`; the guide columns may differ. */
  function OutputAsWritten(tree: Tree, items: seq<Shape>): (r: seq<string>)
    requires Lists(tree, items)
    ensures |r| >= 3 && r[..2] == Header
    ensures r == Header + [Clean] <==> tree == map[]
    ensures tree != map[] ==> r[2..] == PrintTreeAsWritten(items, "", true)
    ensures |r| == |Output(tree, items)|
  {
    if tree == map[] then Header + [Clean]
    else
      SameLineCount(items, "", true, "");
      PrintTreeDrawsRows(items, []);
      assert items != [];
      var lines := PrintTreeAsWritten(items, "", true);
      assert lines[0] == Line("", |items| == 1, items[0]);
      assert lines[0][0] == Connector(|items| == 1)[0];
      Header + lines
  }
}
