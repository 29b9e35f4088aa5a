/** The file tree of components/CodeViewer.tsx: folder toggling, building the tree from
    `/`-separated paths, the full path shown for a node, and which file is displayed.

    The nested `{ name: node }` object is represented flat: a map from the list of path
    segments leading to a node to that node. The moving `current` cursor of the source
    is the prefix `parts[..i]` walked so far. */
module CodeViewer {
  import opened Wrappers
  import opened Text

  datatype CodeFile = CodeFile(name: string, content: string, language: string, path: Option<string>)

  // ------------------------------------------------------------------
  // Expanded folders

  /** `toggleFolder`: the given folder flips membership, every other stays as it was. */
  function ToggleFolder(expanded: set<string>, folder: string): (r: set<string>)
    ensures folder in r <==> folder !in expanded
    ensures forall x :: x != folder ==> (x in r <==> x in expanded)
  {
    if folder in expanded then expanded - {folder} else expanded + {folder}
  }

  /** Toggling the same folder twice changes nothing. */
  lemma ToggleFolderTwice(expanded: set<string>, folder: string)
    ensures ToggleFolder(ToggleFolder(expanded, folder), folder) == expanded
  {
    var once := ToggleFolder(expanded, folder);
    var twice := ToggleFolder(once, folder);
    assert forall x :: x in twice <==> x in expanded;
  }

  /** `new Set(['root'])`: only "root" starts expanded. */
  const InitiallyExpanded: set<string> := {"root"}

  /** On first render only "root" is expanded: toggling it collapses everything, and
      toggling any other folder leaves exactly it and "root" expanded. */
  lemma InitialToggle(folder: string)
    ensures folder in InitiallyExpanded <==> folder == "root"
    ensures folder == "root" ==> ToggleFolder(InitiallyExpanded, folder) == {}
    ensures folder != "root" ==> ToggleFolder(InitiallyExpanded, folder) == {"root", folder}
  {
  }

  // ------------------------------------------------------------------
  // The tree

  datatype Node = Folder | Leaf(file: CodeFile)

  /** A node's location: the segments from the top of the tree down to it. */
  type Tree = map<seq<string>, Node>

  /** `(file.path || file.name)`: an absent or empty path falls back to the name. */
  function PathOf(f: CodeFile): string {
    if f.path.Some? && f.path.value != "" then f.path.value else f.name
  }

  function Parts(f: CodeFile): (parts: seq<string>)
    ensures |parts| >= 1
  {
    Split(PathOf(f), '/')
  }

  /** The location of the node at depth `j` on the way to `parts`. */
  function Key(parts: seq<string>, j: nat): seq<string>
    requires j < |parts|
  {
    parts[..j + 1]
  }

  /** Every location is non-empty and every location above a node is a folder. */
  predicate IsTree(t: Tree) {
    forall k :: k in t ==>
      |k| >= 1 && forall j :: 0 <= j < |k| - 1 ==> Key(k, j) in t && t[Key(k, j)] == Folder
  }

  /** Some file sits where one of the first `n` folders of `parts` should be; walking
      into its missing `children` is a TypeError in the source. */
  predicate Blocked(t: Tree, parts: seq<string>, n: nat)
    requires n <= |parts|
  {
    exists j :: 0 <= j < n && Key(parts, j) in t && t[Key(parts, j)].Leaf?
  }

  /** `k` is the location of one of the first `n` folders on the way to `parts`. */
  predicate OnWay(parts: seq<string>, n: nat, k: seq<string>) {
    1 <= |k| <= n && |k| <= |parts| && k == parts[..|k|]
  }

  /** `k` lies strictly below the location `parts`. */
  predicate Below(parts: seq<string>, k: seq<string>) {
    |parts| < |k| && k[..|parts|] == parts
  }

  lemma BlockedStep(t: Tree, parts: seq<string>, n: nat)
    requires n < |parts|
    ensures Blocked(t, parts, n + 1) <==>
      Blocked(t, parts, n) || (Key(parts, n) in t && t[Key(parts, n)].Leaf?)
  {
  }

  lemma BlockedGrows(t: Tree, parts: seq<string>, m: nat, n: nat)
    requires m <= n <= |parts|
    requires Blocked(t, parts, m)
    ensures Blocked(t, parts, n)
  {
    var j :| 0 <= j < m && Key(parts, j) in t && t[Key(parts, j)].Leaf?;
  }

  /** The tree after the first `n` folders of `parts` were created where missing. */
  function WithFolders(t: Tree, parts: seq<string>, n: nat): Tree
    requires n <= |parts|
  {
    if n == 0 then t
    else
      var r := WithFolders(t, parts, n - 1);
      if Key(parts, n - 1) in r then r else r[Key(parts, n - 1) := Folder]
  }

  /** Walking adds exactly the missing folders on the way and changes no existing node. */
  lemma {:induction false} WithFoldersShape(t: Tree, parts: seq<string>, n: nat)
    requires n <= |parts|
    ensures forall k :: k in WithFolders(t, parts, n) <==> k in t || OnWay(parts, n, k)
    ensures forall k :: k in t ==> WithFolders(t, parts, n)[k] == t[k]
    ensures forall k :: k in WithFolders(t, parts, n) && k !in t ==> WithFolders(t, parts, n)[k] == Folder
  {
    if n > 0 {
      WithFoldersShape(t, parts, n - 1);
      forall k | OnWay(parts, n, k) && !OnWay(parts, n - 1, k)
        ensures k == Key(parts, n - 1)
      {
      }
    }
  }

  /** Assigns the leaf; a folder it replaces disappears with everything below it. */
  function Place(t: Tree, parts: seq<string>, f: CodeFile): Tree {
    (map k | k in t && !Below(parts, k) :: t[k])[parts := Leaf(f)]
  }

  lemma PlaceShape(t: Tree, parts: seq<string>, f: CodeFile)
    ensures forall k :: k in Place(t, parts, f) <==> (k in t && !Below(parts, k)) || k == parts
    ensures Place(t, parts, f)[parts] == Leaf(f)
    ensures forall k :: k in t && k != parts && !Below(parts, k) ==> Place(t, parts, f)[k] == t[k]
  {
  }

  /** One iteration of the `files.forEach` in `organizeFiles`, for a file whose path
      splits into `parts`. */
  function Insert(t: Tree, parts: seq<string>, f: CodeFile): (r: Result<Tree, string>)
    requires |parts| >= 1
    ensures r.Success? ==> parts in r.value && r.value[parts] == Leaf(f)
  {
    if Blocked(t, parts, |parts| - 1) then Failure("TypeError")
    else Success(Place(WithFolders(t, parts, |parts| - 1), parts, f))
  }

  /** `organizeFiles` over the files in order; a TypeError ends it. */
  function Organize(files: seq<CodeFile>): (r: Result<Tree, string>)
    ensures r.Success? && files != [] ==>
      var last := files[|files| - 1];
      Parts(last) in r.value && r.value[Parts(last)] == Leaf(last)
    ensures r.Failure? ==> r == Failure("TypeError")
    decreases |files|
  {
    if files == [] then Success(map[])
    else
      match Organize(files[..|files| - 1])
      case Failure(e) => Failure(e)
      case Success(t) => Insert(t, Parts(files[|files| - 1]), files[|files| - 1])
  }

  /** A successful insertion puts the file at its location, below folders. */
  lemma InsertPlacesFile(t: Tree, parts: seq<string>, f: CodeFile)
    requires |parts| >= 1
    requires Insert(t, parts, f).Success?
    ensures Insert(t, parts, f).value[parts] == Leaf(f)
    ensures forall j :: 0 <= j < |parts| - 1 ==>
      Key(parts, j) in Insert(t, parts, f).value && Insert(t, parts, f).value[Key(parts, j)] == Folder
  {
    var w := WithFolders(t, parts, |parts| - 1);
    WithFoldersShape(t, parts, |parts| - 1);
    PlaceShape(w, parts, f);
    forall j | 0 <= j < |parts| - 1
      ensures Key(parts, j) in Insert(t, parts, f).value && Insert(t, parts, f).value[Key(parts, j)] == Folder
    {
      assert OnWay(parts, |parts| - 1, Key(parts, j));
      assert Key(parts, j) != parts && !Below(parts, Key(parts, j));
      if Key(parts, j) in t {
        assert !t[Key(parts, j)].Leaf?;
      }
    }
  }

  /** A successful insertion keeps every other node that is not below the new leaf:
      existing folders are reused and their earlier files stay. */
  lemma InsertKeepsOthers(t: Tree, parts: seq<string>, f: CodeFile)
    requires |parts| >= 1
    requires Insert(t, parts, f).Success?
    ensures forall k :: k in t && k != parts && !Below(parts, k) ==>
      k in Insert(t, parts, f).value && Insert(t, parts, f).value[k] == t[k]
  {
    WithFoldersShape(t, parts, |parts| - 1);
    PlaceShape(WithFolders(t, parts, |parts| - 1), parts, f);
  }

  /** Walking a path whose folders all exist creates nothing. */
  lemma WithFoldersPresent(t: Tree, parts: seq<string>, n: nat)
    requires n <= |parts|
    requires forall j :: 0 <= j < n ==> Key(parts, j) in t
    ensures WithFolders(t, parts, n) == t
  {
    WithFoldersShape(t, parts, n);
    var w := WithFolders(t, parts, n);
    forall k | k in w
      ensures k in t
    {
      if OnWay(parts, n, k) {
        assert k == Key(parts, |k| - 1);
      }
    }
  }

  /** Placing a second leaf at the same location undoes the first. */
  lemma PlaceTwice(t: Tree, parts: seq<string>, f: CodeFile, g: CodeFile)
    ensures Place(Place(t, parts, f), parts, g) == Place(t, parts, g)
  {
    var a := Place(Place(t, parts, f), parts, g);
    var b := Place(t, parts, g);
    PlaceShape(t, parts, f);
    PlaceShape(Place(t, parts, f), parts, g);
    PlaceShape(t, parts, g);
    forall k
      ensures k in a <==> k in b
    {
    }
  }

  /** A later file with the same location replaces the earlier leaf as if it had never
      been there. */
  lemma InsertSamePathOverrides(t: Tree, parts: seq<string>, f: CodeFile, g: CodeFile)
    requires |parts| >= 1
    requires Insert(t, parts, f).Success?
    ensures Insert(Insert(t, parts, f).value, parts, g) == Insert(t, parts, g)
  {
    var n := |parts| - 1;
    var w := WithFolders(t, parts, n);
    var t1 := Place(w, parts, f);
    InsertPlacesFile(t, parts, f);
    assert !Blocked(t1, parts, n);
    WithFoldersPresent(t1, parts, n);
    PlaceTwice(w, parts, f, g);
  }

  /** The locations after an insertion: the leaf, the kept ones, and the folders on
      the way. */
  lemma InsertKeys(t: Tree, parts: seq<string>, f: CodeFile)
    requires |parts| >= 1
    requires Insert(t, parts, f).Success?
    ensures forall k :: k in Insert(t, parts, f).value ==>
      k == parts || (k in t && !Below(parts, k)) || OnWay(parts, |parts| - 1, k)
  {
    WithFoldersShape(t, parts, |parts| - 1);
    PlaceShape(WithFolders(t, parts, |parts| - 1), parts, f);
  }

  /** A folder above a node that is neither the new leaf nor below it is not the new
      leaf nor below it either. */
  lemma AboveKept(parts: seq<string>, k: seq<string>, j: nat)
    requires j < |k| - 1
    requires k != parts && !Below(parts, k)
    ensures Key(k, j) != parts && !Below(parts, Key(k, j))
  {
    var kj := Key(k, j);
    assert kj == parts ==> Below(parts, k);
    assert |parts| < |kj| ==> kj[..|parts|] == k[..|parts|];
  }

  /** Insertion keeps the tree shape. */
  lemma InsertKeepsTree(t: Tree, parts: seq<string>, f: CodeFile)
    requires |parts| >= 1
    requires IsTree(t)
    requires Insert(t, parts, f).Success?
    ensures IsTree(Insert(t, parts, f).value)
  {
    var n := |parts| - 1;
    var r := Insert(t, parts, f).value;
    InsertKeys(t, parts, f);
    InsertPlacesFile(t, parts, f);
    InsertKeepsOthers(t, parts, f);
    forall k | k in r
      ensures |k| >= 1 && forall j :: 0 <= j < |k| - 1 ==> Key(k, j) in r && r[Key(k, j)] == Folder
    {
      if k == parts {
      } else if k in t && !Below(parts, k) {
        forall j | 0 <= j < |k| - 1
          ensures Key(k, j) in r && r[Key(k, j)] == Folder
        {
          AboveKept(parts, k, j);
        }
      } else {
        assert OnWay(parts, n, k);
        forall j | 0 <= j < |k| - 1
          ensures Key(k, j) in r && r[Key(k, j)] == Folder
        {
          assert Key(k, j) == Key(parts, j);
        }
      }
    }
  }

  /** A tree built by `organizeFiles` has the tree shape. */
  lemma {:induction false} OrganizeIsTree(files: seq<CodeFile>)
    requires Organize(files).Success?
    ensures IsTree(Organize(files).value)
    decreases |files|
  {
    if files != [] {
      var init := files[..|files| - 1];
      OrganizeIsTree(init);
      InsertKeepsTree(Organize(init).value, Parts(files[|files| - 1]), files[|files| - 1]);
    }
  }

  /** Every file is in the tree unless a later file took its place: one at the same
      location or at a location above it. */
  lemma {:induction false} OrganizeKeepsFile(files: seq<CodeFile>, i: nat)
    requires Organize(files).Success?
    requires i < |files|
    requires forall j :: i < j < |files| ==> Parts(files[j]) != Parts(files[i]) && !Below(Parts(files[j]), Parts(files[i]))
    ensures Parts(files[i]) in Organize(files).value
    ensures Organize(files).value[Parts(files[i])] == Leaf(files[i])
    decreases |files|
  {
    var init := files[..|files| - 1];
    var last := files[|files| - 1];
    var t := Organize(init).value;
    if i == |files| - 1 {
      InsertPlacesFile(t, Parts(last), last);
    } else {
      assert forall j :: i < j < |init| ==> init[j] == files[j];
      OrganizeKeepsFile(init, i);
      assert init[i] == files[i];
      InsertKeepsOthers(t, Parts(last), last);
    }
  }

  /** Once a file fails to insert, the whole tree fails. */
  lemma {:induction false} OrganizeFailureSticks(files: seq<CodeFile>, n: nat)
    requires n <= |files|
    requires Organize(files[..n]) == Failure("TypeError")
    ensures Organize(files) == Failure("TypeError")
    decreases |files| - n
  {
    if n < |files| {
      assert files[..n + 1][..n] == files[..n];
      OrganizeFailureSticks(files, n + 1);
    } else {
      assert files[..n] == files;
    }
  }

  /** A leaf after an insertion is the inserted file or a leaf that was already there. */
  lemma InsertLeaves(t: Tree, parts: seq<string>, f: CodeFile)
    requires |parts| >= 1
    requires Insert(t, parts, f).Success?
    ensures forall k :: k in Insert(t, parts, f).value && Insert(t, parts, f).value[k].Leaf? ==>
      k == parts || (k in t && Insert(t, parts, f).value[k] == t[k])
  {
    var r := Insert(t, parts, f).value;
    InsertKeys(t, parts, f);
    InsertKeepsOthers(t, parts, f);
    WithFoldersShape(t, parts, |parts| - 1);
    PlaceShape(WithFolders(t, parts, |parts| - 1), parts, f);
    forall k | k in r && k != parts && !(k in t && !Below(parts, k))
      ensures r[k] == Folder
    {
      assert OnWay(parts, |parts| - 1, k);
      assert k !in t;
    }
  }

  /** Every leaf of the built tree holds one of the files, at that file's location. */
  lemma {:induction false} OrganizeLeaves(files: seq<CodeFile>)
    requires Organize(files).Success?
    ensures forall k :: k in Organize(files).value && Organize(files).value[k].Leaf? ==>
      exists i :: 0 <= i < |files| && k == Parts(files[i]) && Organize(files).value[k] == Leaf(files[i])
    decreases |files|
  {
    if files != [] {
      var init := files[..|files| - 1];
      var last := files[|files| - 1];
      var parts := Parts(last);
      var t := Organize(init).value;
      var r := Organize(files).value;
      assert r == Insert(t, parts, last).value;
      OrganizeLeaves(init);
      InsertLeaves(t, parts, last);
      forall k | k in r && r[k].Leaf?
        ensures exists i :: 0 <= i < |files| && k == Parts(files[i]) && r[k] == Leaf(files[i])
      {
        if k == parts {
          assert r[k] == Leaf(files[|files| - 1]);
        } else {
          var i :| 0 <= i < |init| && k == Parts(init[i]) && t[k] == Leaf(init[i]);
          assert files[i] == init[i];
        }
      }
    }
  }

  /** `organizeFiles` succeeds when no file's location lies strictly above the
      location of a later file. */
  lemma {:induction false} OrganizeSucceeds(files: seq<CodeFile>)
    requires forall i, j :: 0 <= i < j < |files| ==> !Below(Parts(files[i]), Parts(files[j]))
    ensures Organize(files).Success?
    decreases |files|
  {
    if files != [] {
      var init := files[..|files| - 1];
      var last := files[|files| - 1];
      var parts := Parts(last);
      assert forall i :: 0 <= i < |init| ==> init[i] == files[i];
      OrganizeSucceeds(init);
      var t := Organize(init).value;
      OrganizeLeaves(init);
      forall k | k in t && t[k].Leaf?
        ensures !Below(k, parts)
      {
        var i :| 0 <= i < |init| && k == Parts(init[i]) && t[k] == Leaf(init[i]);
        assert Parts(files[i]) == k;
      }
      forall j | 0 <= j < |parts| - 1 && Key(parts, j) in t
        ensures !t[Key(parts, j)].Leaf?
      {
        assert Below(Key(parts, j), parts);
      }
      assert !Blocked(t, parts, |parts| - 1);
    }
  }

  /** A file whose location lies strictly below the previous file's location makes
      `organizeFiles` fail. */
  lemma {:induction false} OrganizeFailsBelowPrevious(files: seq<CodeFile>, i: nat)
    requires i + 1 < |files|
    requires Below(Parts(files[i]), Parts(files[i + 1]))
    ensures Organize(files) == Failure("TypeError")
  {
    var pre := files[..i + 1];
    var upto := files[..i + 2];
    assert upto[..|upto| - 1] == pre;
    assert pre[|pre| - 1] == files[i] && upto[|upto| - 1] == files[i + 1];
    match Organize(pre) {
      case Failure(_) =>
        assert Organize(upto) == Failure("TypeError");
      case Success(t) =>
        var above := Parts(files[i]);
        var parts := Parts(files[i + 1]);
        assert Key(parts, |above| - 1) == above;
        assert Blocked(t, parts, |parts| - 1);
        assert Organize(upto) == Insert(t, parts, files[i + 1]);
    }
    OrganizeFailureSticks(files, i + 2);
  }

  /** The `files.forEach` callback of `organizeFiles`: walks down `parts`, creating
      missing folders, and assigns the leaf. */
  method InsertFile(tree: Tree, parts: seq<string>, file: CodeFile) returns (r: Result<Tree, string>)
    requires |parts| >= 1
    ensures r == Insert(tree, parts, file)
  {
    var current := tree;
    var i := 0;
    while i < |parts| - 1
      invariant 0 <= i <= |parts| - 1
      invariant !Blocked(tree, parts, i)
      invariant current == WithFolders(tree, parts, i)
    {
      var key := Key(parts, i);
      ghost var walked := current;
      if key !in current {
        current := current[key := Folder];
      } else if current[key].Leaf? {
        assert Insert(tree, parts, file) == Failure("TypeError") by {
          WithFoldersShape(tree, parts, i);
          assert key in tree && tree[key].Leaf?;
          BlockedStep(tree, parts, i);
          BlockedGrows(tree, parts, i + 1, |parts| - 1);
        }
        return Failure("TypeError");
      }
      assert !Blocked(tree, parts, i + 1) by {
        WithFoldersShape(tree, parts, i);
        assert key in tree ==> tree[key] == walked[key];
        BlockedStep(tree, parts, i);
      }
      i := i + 1;
    }
    assert Insert(tree, parts, file) == Success(Place(current, parts, file));
    r := Success(Place(current, parts, file));
  }

  /** `organizeFiles`. */
  method OrganizeFiles(files: seq<CodeFile>) returns (r: Result<Tree, string>)
    ensures r == Organize(files)
  {
    var tree: Tree := map[];
    for n := 0 to |files|
      invariant Organize(files[..n]) == Success(tree)
    {
      assert files[..n + 1][..n] == files[..n];
      var step := InsertFile(tree, Parts(files[n]), files[n]);
      assert Organize(files[..n + 1]) == step;
      if step.Failure? {
        OrganizeFailureSticks(files, n + 1);
        return step;
      }
      tree := step.value;
    }
    assert files[..|files|] == files;
    r := Success(tree);
  }

  // ------------------------------------------------------------------
  // Full paths

  /** Some separator-free segments, as produced by a split on `/`. */
  predicate Segments(parts: seq<string>) {
    |parts| >= 1 && forall i :: 0 <= i < |parts| ==> '/' !in parts[i]
  }

  /** The `fullPath` that `renderTree` builds on the way down, as written: an empty
      parent path counts as no parent at all. */
  function FullPathAsWritten(parts: seq<string>): (r: string)
    requires |parts| >= 1
    ensures var name := parts[|parts| - 1];
      |name| <= |r| && r[|r| - |name|..] == name
    decreases |parts|
  {
    if |parts| == 1 then parts[0]
    else
      var parent := FullPathAsWritten(parts[..|parts| - 1]);
      if parent != "" then parent + "/" + parts[|parts| - 1] else parts[|parts| - 1]
  }

  /** A folder reached through a leading `/` and the folder of the same name at the top
      get the same full path, so they share one expanded/collapsed state. */
  lemma LeadingSlashCollides()
    ensures ["", "src"] != ["src"]
    ensures FullPathAsWritten(["", "src"]) == FullPathAsWritten(["src"])
    ensures FullPathAsWritten(["", "src"]) != Join(["", "src"], '/')
  {
    assert ["", "src"][..1] == [""];
  }

  /** The full path joined at every depth below the top. */
  function FullPath(parts: seq<string>): (r: string)
    requires |parts| >= 1
    ensures r == Join(parts, '/')
    decreases |parts|
  {
    if |parts| == 1 then parts[0]
    else
      var init := parts[..|parts| - 1];
      JoinSnoc(init, parts[|parts| - 1], '/');
      assert init + [parts[|parts| - 1]] == parts;
      FullPath(init) + "/" + parts[|parts| - 1]
  }

  lemma {:induction false} JoinSnoc(parts: seq<string>, x: string, sep: char)
    requires |parts| >= 1
    ensures Join(parts + [x], sep) == Join(parts, sep) + [sep] + x
    decreases |parts|
  {
    if |parts| == 1 {
      assert (parts + [x])[1..] == [x];
    } else {
      assert (parts + [x])[1..] == parts[1..] + [x];
      JoinSnoc(parts[1..], x, sep);
    }
  }

  /** The two agree whenever the path does not start with `/`. */
  lemma {:induction false} FullPathAsWrittenAgrees(parts: seq<string>)
    requires |parts| >= 1 && parts[0] != ""
    ensures FullPathAsWritten(parts) == FullPath(parts)
    decreases |parts|
  {
    if |parts| > 1 {
      var init := parts[..|parts| - 1];
      FullPathAsWrittenAgrees(init);
      JoinPrefix(init, '/');
    }
  }

  lemma JoinPrefix(parts: seq<string>, sep: char)
    requires |parts| >= 1
    ensures |Join(parts, sep)| >= |parts[0]|
  {
  }

  /** The full path of a file's leaf is the path it was filed under. */
  lemma FullPathRoundTrip(f: CodeFile)
    ensures FullPath(Parts(f)) == PathOf(f)
  {
    JoinSplit(PathOf(f), '/');
  }

  /** Splitting text free of the separator gives it back whole. */
  lemma {:induction false} SplitWhole(s: string, sep: char)
    requires sep !in s
    ensures Split(s, sep) == [s]
    decreases |s|
  {
    if s != [] {
      SplitWhole(s[1..], sep);
      assert [s[0]] + s[1..] == s;
    }
  }

  lemma {:induction false} SplitAround(a: string, b: string, sep: char)
    requires sep !in a
    ensures Split(a + [sep] + b, sep) == [a] + Split(b, sep)
    decreases |a|
  {
    var s := a + [sep] + b;
    if a == [] {
      assert s[1..] == b;
    } else {
      assert s[1..] == a[1..] + [sep] + b;
      SplitAround(a[1..], b, sep);
      assert [a[0]] + a[1..] == a;
    }
  }

  /** Splitting a join of separator-free segments gives the segments back. */
  lemma {:induction false} SplitJoin(parts: seq<string>)
    requires Segments(parts)
    ensures Split(Join(parts, '/'), '/') == parts
    decreases |parts|
  {
    if |parts| == 1 {
      SplitWhole(parts[0], '/');
    } else {
      assert Segments(parts[1..]) by {
        assert forall i :: 0 <= i < |parts| - 1 ==> parts[1..][i] == parts[i + 1];
      }
      SplitJoin(parts[1..]);
      SplitAround(parts[0], Join(parts[1..], '/'), '/');
      assert [parts[0]] + parts[1..] == parts;
    }
  }

  /** Distinct locations have distinct full paths. */
  lemma FullPathInjective(p: seq<string>, q: seq<string>)
    requires Segments(p) && Segments(q)
    requires FullPath(p) == FullPath(q)
    ensures p == q
  {
    SplitJoin(p);
    SplitJoin(q);
  }

  /** Every location in a tree built from paths consists of separator-free segments. */
  lemma KeysAreSegments(files: seq<CodeFile>, k: seq<string>)
    requires Organize(files).Success?
    requires k in Organize(files).value
    ensures Segments(k)
    decreases |files|
  {
    var init := files[..|files| - 1];
    var last := files[|files| - 1];
    var t := Organize(init).value;
    if k in t {
      KeysAreSegments(init, k);
    } else {
      var parts := Parts(last);
      InsertKeys(t, parts, last);
      if k != parts {
        assert OnWay(parts, |parts| - 1, k);
        assert forall m :: 0 <= m < |k| ==> k[m] == parts[m];
      }
    }
  }

  // ------------------------------------------------------------------
  // The displayed file

  /** `defaultFile || files[0]?.name || ''`. */
  function InitialCurrentFile(files: seq<CodeFile>, defaultFile: Option<string>): (r: string)
    ensures defaultFile.Some? && defaultFile.value != "" ==> r == defaultFile.value
    ensures (defaultFile.None? || defaultFile.value == "") && files != [] ==> r == files[0].name
    ensures (defaultFile.None? || defaultFile.value == "") && files == [] ==> r == ""
  {
    if defaultFile.Some? && defaultFile.value != "" then defaultFile.value
    else if files != [] && files[0].name != "" then files[0].name
    else ""
  }

  /** `files.find(f => f.name === current)`. */
  function FindByName(files: seq<CodeFile>, current: string): (r: Option<nat>)
    ensures r.Some? ==>
      && r.value < |files|
      && files[r.value].name == current
      && forall j :: 0 <= j < r.value ==> files[j].name != current
    ensures r.None? ==> forall j :: 0 <= j < |files| ==> files[j].name != current
    decreases |files|
  {
    if files == [] then None
    else if files[0].name == current then Some(0)
    else match FindByName(files[1..], current)
      case None => None
      case Some(i) => Some(i + 1)
  }

  /** The first file named `current`, else the first file; none only without files. */
  function DisplayedFile(files: seq<CodeFile>, current: string): (r: Option<CodeFile>)
    ensures r.None? <==> files == []
    ensures r.Some? ==> r.value in files
    ensures (exists j :: 0 <= j < |files| && files[j].name == current) ==> r.Some? && r.value.name == current
    ensures forall i :: (0 <= i < |files| && files[i].name == current
                         && forall j :: 0 <= j < i ==> files[j].name != current) ==> r == Some(files[i])
    ensures (forall j :: 0 <= j < |files| ==> files[j].name != current) && files != [] ==> r == Some(files[0])
  {
    match FindByName(files, current)
    case Some(i) => Some(files[i])
    case None => if files == [] then None else Some(files[0])
  }

  /** On first render the displayed file is the default file when a non-empty one is
      given and a file of that name exists, and otherwise the first file. */
  lemma InitialDisplay(files: seq<CodeFile>, defaultFile: Option<string>)
    requires files != []
    ensures var shown := DisplayedFile(files, InitialCurrentFile(files, defaultFile));
      shown.Some? &&
      (if defaultFile.Some? && defaultFile.value != "" && exists j :: 0 <= j < |files| && files[j].name == defaultFile.value
       then shown.value.name == defaultFile.value
       else shown.value == files[0])
  {
    var current := InitialCurrentFile(files, defaultFile);
    if defaultFile.Some? && defaultFile.value != "" && exists j :: 0 <= j < |files| && files[j].name == defaultFile.value {
    } else {
      if defaultFile.None? || defaultFile.value == "" {
        assert files[0].name == current;
      }
    }
  }
}
