/**
 A directory tree and the operations the file transactions use on it. Each
 operation may fail for reasons of its own; a failed one changes nothing
 unless its contract says otherwise.
 */
module FileTree {

  type Path = seq<string>

  datatype Entry = Dir | File(content: nat, executable: bool) | Link

  type Tree = map<Path, Entry>

  function Parent(p: Path): Path
    requires |p| > 0
  {
    p[..|p| - 1]
  }

  /** Everything but the root sits in a directory. */
  ghost predicate WellFormed(t: Tree) {
    && [] in t && t[[]] == Dir
    && forall p :: p in t && |p| > 0 ==> Parent(p) in t && t[Parent(p)] == Dir
  }

  lemma {:induction false} PrefixesPresent(t: Tree, p: Path, n: nat)
    requires WellFormed(t) && p in t && n <= |p|
    ensures p[..n] in t && (n < |p| ==> t[p[..n]] == Dir)
    decreases |p|
  {
    if n == |p| {
      assert p[..n] == p;
    } else {
      PrefixesPresent(t, Parent(p), n);
      assert Parent(p)[..n] == p[..n];
      if n == |p| - 1 {
        assert p[..n] == Parent(p);
      }
    }
  }

  lemma PrefixPresent(t: Tree, p: Path, q: Path)
    requires WellFormed(t) && p in t && q <= p
    ensures q in t && (q < p ==> t[q] == Dir)
  {
    hide WellFormed;
    PrefixesPresent(t, p, |q|);
    assert p[..|q|] == q;
  }

  lemma BelowParent(p: Path, q: Path)
    requires q < p
    ensures q <= Parent(p)
  {
  }

  predicate Empty(t: Tree, p: Path) {
    forall q :: q in t && |q| > 0 ==> Parent(q) != p
  }

  // ---------------------------------------------------------------------
  // Trees that have grown
  // ---------------------------------------------------------------------

  ghost predicate Distinct(s: seq<Path>) {
    forall i, j :: 0 <= i < j < |s| ==> s[i] != s[j]
  }

  /** `now` is `before` plus the listed files and directories. */
  ghost predicate Added(before: Tree, now: Tree, files: set<Path>, dirs: set<Path>) {
    && now.Keys == before.Keys + files + dirs
    && before.Keys !! files + dirs && files !! dirs
    && (forall p :: p in before ==> now[p] == before[p])
    && (forall p :: p in files ==> now[p] != Dir)
    && (forall p :: p in dirs ==> now[p] == Dir)
  }

  ghost function SetOf(s: seq<Path>): set<Path> { set p | p in s }

  lemma SetSnoc(s: seq<Path>, p: Path)
    ensures SetOf(s + [p]) == SetOf(s) + {p}
  {
  }

  /** Each directory is listed after the one it is in, and once. */
  ghost predicate Ordered(before: Tree, dirs: seq<Path>) {
    |dirs| == 0 ||
    (var n := |dirs| - 1;
     && Ordered(before, dirs[..n])
     && dirs[n] != [] && dirs[n] !in SetOf(dirs[..n])
     && Parent(dirs[n]) in before.Keys + SetOf(dirs[..n]))
  }

  ghost predicate Grown(before: Tree, now: Tree, files: seq<Path>, dirs: seq<Path>) {
    Added(before, now, SetOf(files), SetOf(dirs)) && Ordered(before, dirs) && Distinct(files)
  }

  lemma GrownStart(t: Tree)
    ensures Grown(t, t, [], [])
  {
    assert SetOf([]) == {};
  }

  lemma DistinctSnoc(s: seq<Path>, p: Path)
    requires Distinct(s) && p !in s
    ensures Distinct(s + [p])
  {
  }

  lemma GrownFile(before: Tree, now: Tree, files: seq<Path>, dirs: seq<Path>, p: Path, e: Entry)
    requires Grown(before, now, files, dirs) && p !in now && e != Dir
    ensures Grown(before, now[p := e], files + [p], dirs)
  {
    hide Ordered, Distinct;
    DistinctSnoc(files, p);
    SetSnoc(files, p);
  }

  lemma GrownRewrite(before: Tree, now: Tree, files: seq<Path>, dirs: seq<Path>, p: Path, e: Entry)
    requires Grown(before, now, files, dirs) && p in files && e != Dir
    ensures Grown(before, now[p := e], files, dirs)
  {
    hide Ordered, Distinct;
  }

  lemma AddedDir(before: Tree, now: Tree, files: set<Path>, dirs: set<Path>, p: Path)
    requires Added(before, now, files, dirs) && p !in now
    ensures Added(before, now[p := Dir], files, dirs + {p})
  {
  }

  lemma OrderedSnoc(before: Tree, dirs: seq<Path>, p: Path)
    requires Ordered(before, dirs) && p != [] && p !in SetOf(dirs)
    requires Parent(p) in before.Keys + SetOf(dirs)
    ensures Ordered(before, dirs + [p])
  {
    hide SetOf;
    assert (dirs + [p])[..|dirs|] == dirs;
  }

  lemma GrownDir(before: Tree, now: Tree, files: seq<Path>, dirs: seq<Path>, p: Path)
    requires Grown(before, now, files, dirs) && p !in now && p != []
    requires Parent(p) in now && now[Parent(p)] == Dir
    ensures Grown(before, now[p := Dir], files, dirs + [p])
  {
    hide Ordered, Distinct, SetOf;
    AddedDir(before, now, SetOf(files), SetOf(dirs), p);
    SetSnoc(dirs, p);
    assert p !in now.Keys && Parent(p) in now.Keys;
    OrderedSnoc(before, dirs, p);
  }

  lemma GrownWellFormed(t: Tree, p: Path, e: Entry)
    requires WellFormed(t) && p !in t && p != [] && Parent(p) in t && t[Parent(p)] == Dir
    ensures WellFormed(t[p := e])
  {
    assert Parent(p) != p;
    forall q | q in t[p := e] && |q| > 0 ensures Parent(q) in t[p := e] && t[p := e][Parent(q)] == Dir {
      assert Parent(q) in t;
    }
  }

  lemma FileRewritten(t: Tree, p: Path, e: Entry)
    requires WellFormed(t) && p in t && t[p] != Dir && e != Dir
    ensures WellFormed(t[p := e])
  {
  }

  lemma {:induction false} ParentListedEarlier(before: Tree, dirs: seq<Path>, q: Path)
    requires Ordered(before, dirs) && |dirs| > 0 && q in SetOf(dirs)
    ensures q != [] && Parent(q) in before.Keys + SetOf(dirs[..|dirs| - 1])
  {
    hide SetOf;
    var n := |dirs| - 1;
    assert dirs == dirs[..n] + [dirs[n]];
    SetSnoc(dirs[..n], dirs[n]);
    if q != dirs[n] {
      NotEmpty(dirs[..n], q);
      ParentListedEarlier(before, dirs[..n], q);
      assert dirs[..n] == dirs[..n][..n - 1] + [dirs[n - 1]];
      SetSnoc(dirs[..n][..n - 1], dirs[n - 1]);
    }
  }

  lemma NotEmpty(s: seq<Path>, q: Path)
    requires q in SetOf(s)
    ensures |s| > 0
  {
  }

  /** With the files gone, the last directory made holds nothing. */
  lemma LastDirEmpty(before: Tree, now: Tree, dirs: seq<Path>)
    requires WellFormed(before) && Grown(before, now, [], dirs) && |dirs| > 0
    ensures Empty(now, dirs[|dirs| - 1]) && dirs[|dirs| - 1] in now && now[dirs[|dirs| - 1]] == Dir
    ensures Grown(before, now - {dirs[|dirs| - 1]}, [], dirs[..|dirs| - 1])
  {
    hide SetOf, Distinct;
    var n := |dirs| - 1;
    var last := dirs[n];
    assert SetOf([]) == {} by { NoPaths(); }
    assert dirs == dirs[..n] + [last];
    SetSnoc(dirs[..n], last);
    assert last in now.Keys;
    forall q | q in now && |q| > 0 ensures Parent(q) != last {
      assert q in now.Keys;
      if q in before.Keys {
        assert Parent(q) in before;
      } else {
        ParentListedEarlier(before, dirs, q);
      }
    }
  }

  lemma NoPaths()
    ensures SetOf([]) == {}
  {
  }

  lemma ListedOnce(s: seq<Path>)
    requires Distinct(s) && |s| > 0
    ensures Distinct(s[..|s| - 1])
    ensures SetOf(s[..|s| - 1]) == SetOf(s) - {s[|s| - 1]} && s[|s| - 1] in SetOf(s)
  {
    assert s == s[..|s| - 1] + [s[|s| - 1]];
  }

  lemma FileUndone(before: Tree, now: Tree, files: seq<Path>, dirs: seq<Path>)
    requires Grown(before, now, files, dirs) && |files| > 0
    ensures files[|files| - 1] in now && now[files[|files| - 1]] != Dir
    ensures Grown(before, now - {files[|files| - 1]}, files[..|files| - 1], dirs)
  {
    hide Ordered, Distinct;
    ListedOnce(files);
  }

  lemma NothingGrown(before: Tree, now: Tree)
    requires Grown(before, now, [], [])
    ensures now == before
  {
    assert SetOf([]) == {};
  }

  /** What there is on the way to a path, the path included, are directories. */
  ghost predicate DirsTo(t: Tree, p: Path) {
    forall n: nat :: n <= |p| && p[..n] in t ==> t[p[..n]] == Dir
  }

  // ---------------------------------------------------------------------
  // The disk
  // ---------------------------------------------------------------------

  class Disk {
    /** No operation fails but for what is in the tree. */
    const sound: bool
    var tree: Tree

    constructor (tree: Tree, sound: bool)
      ensures this.tree == tree && this.sound == sound
    {
      this.tree, this.sound := tree, sound;
    }

    method MakeDir(p: Path) returns (ok: bool)
      modifies this
      ensures ok ==> p != [] && p !in old(tree) && Parent(p) in old(tree) && old(tree)[Parent(p)] == Dir
                     && tree == old(tree)[p := Dir]
      ensures !ok ==> tree == old(tree)
      ensures sound && p != [] && p !in old(tree) && Parent(p) in old(tree) && old(tree)[Parent(p)] == Dir ==> ok
    {
      var fault: bool := *;
      ok := (sound || !fault) && p != [] && p !in tree && Parent(p) in tree && tree[Parent(p)] == Dir;
      if ok {
        tree := tree[p := Dir];
      }
    }

    /** Exclusive creation: the new file is empty. */
    method Create(p: Path) returns (ok: bool)
      modifies this
      ensures ok ==> p != [] && p !in old(tree) && Parent(p) in old(tree) && old(tree)[Parent(p)] == Dir
                     && tree == old(tree)[p := File(0, false)]
      ensures !ok ==> tree == old(tree)
      ensures sound && p != [] && p !in old(tree) && Parent(p) in old(tree) && old(tree)[Parent(p)] == Dir ==> ok
    {
      var fault: bool := *;
      ok := (sound || !fault) && p != [] && p !in tree && Parent(p) in tree && tree[Parent(p)] == Dir;
      if ok {
        tree := tree[p := File(0, false)];
      }
    }

    /** A failed write may leave any content. */
    method Write(p: Path, content: nat) returns (ok: bool)
      requires p in tree && tree[p].File?
      modifies this
      ensures exists c: nat :: tree == old(tree)[p := File(c, old(tree)[p].executable)]
      ensures ok ==> tree == old(tree)[p := File(content, old(tree)[p].executable)]
      ensures sound ==> ok
    {
      var fault: bool := *;
      var c: nat := *;
      ok := sound || !fault;
      if ok { c := content; }
      tree := tree[p := File(c, tree[p].executable)];
      assert tree == old(tree)[p := File(c, old(tree)[p].executable)];
    }

    method MakeExecutable(p: Path) returns (ok: bool)
      requires p in tree && tree[p].File?
      modifies this
      ensures tree == if ok then old(tree)[p := old(tree)[p].(executable := true)] else old(tree)
      ensures sound ==> ok
    {
      var fault: bool := *;
      ok := sound || !fault;
      if ok {
        tree := tree[p := tree[p].(executable := true)];
      }
    }

    /** Through a temporary file: all or nothing. */
    method Replace(p: Path, content: nat) returns (ok: bool)
      requires p in tree && tree[p].File?
      modifies this
      ensures tree == if ok then old(tree)[p := old(tree)[p].(content := content)] else old(tree)
      ensures sound ==> ok
    {
      var fault: bool := *;
      ok := sound || !fault;
      if ok {
        tree := tree[p := tree[p].(content := content)];
      }
    }

    method Unlink(p: Path)
      requires p in tree && tree[p] != Dir
      modifies this
      ensures tree == old(tree) - {p}
    {
      tree := tree - {p};
    }

    /** A whole sub-tree. */
    method RemoveTree(p: Path)
      modifies this
      ensures forall q :: q in tree <==> q in old(tree) && !(p <= q)
      ensures forall q :: q in tree ==> tree[q] == old(tree)[q]
    {
      tree := map q | q in tree && !(p <= q) :: tree[q];
    }

    /** Refuses a directory that is not empty. */
    method RemoveDir(p: Path) returns (ok: bool)
      modifies this
      ensures ok <==> p in old(tree) && old(tree)[p] == Dir && Empty(old(tree), p)
      ensures tree == if ok then old(tree) - {p} else old(tree)
    {
      ok := p in tree && tree[p] == Dir && Empty(tree, p);
      if ok {
        tree := tree - {p};
      }
    }

    /** The missing ancestors of `p`, `p` included, nearest first. */
    method MissingUpFrom(p: Path) returns (missing: seq<Path>)
      requires WellFormed(tree)
      ensures forall i :: 0 <= i < |missing| ==> i < |p| && missing[i] == p[..|p| - i] && missing[i] !in tree
      ensures |missing| <= |p| && p[..|p| - |missing|] in tree
    {
      missing := [];
      var cursor := p;
      while cursor !in tree
        invariant |missing| <= |p| && cursor == p[..|p| - |missing|]
        invariant forall i :: 0 <= i < |missing| ==> i < |p| && missing[i] == p[..|p| - i] && missing[i] !in tree
        decreases |cursor|
      {
        missing := missing + [cursor];
        cursor := Parent(cursor);
      }
    }

    /** Make `p` and its missing ancestors, outermost first, listing each one made. */
    method MakeMissing(p: Path, ghost before: Tree, ghost files: seq<Path>, dirs: seq<Path>)
      returns (dirs': seq<Path>, ok: bool)
      requires WellFormed(tree) && Grown(before, tree, files, dirs)
      modifies this
      ensures WellFormed(tree) && Grown(before, tree, files, dirs')
      ensures forall q :: q in old(tree) ==> q in tree && tree[q] == old(tree)[q]
      ensures forall q :: q in tree && q !in old(tree) ==> q <= p && tree[q] == Dir
      ensures ok <==> p in tree
      ensures sound && DirsTo(old(tree), p) ==> ok
    {
      hide Grown, WellFormed;
      var missing := MissingUpFrom(p);
      dirs', ok := dirs, true;
      for i := |missing| downto 0
        invariant WellFormed(tree) && Grown(before, tree, files, dirs')
        invariant forall q :: q in old(tree) ==> q in tree && tree[q] == old(tree)[q]
        invariant forall q :: q in tree && q !in old(tree) ==> q <= p && tree[q] == Dir
        invariant p[..|p| - i] in tree
        invariant ok && forall j :: 0 <= j < i ==> missing[j] !in tree
        invariant DirsTo(old(tree), p) ==> tree[p[..|p| - i]] == Dir
      {
        var item := missing[i];
        ghost var was := tree;
        assert Parent(item) == p[..|p| - (i + 1)];
        ok := MakeDir(item);
        if !ok {
          assert p == missing[0];
          return;
        }
        GrownDir(before, was, files, dirs', item);
        GrownWellFormed(was, item, Dir);
        dirs' := dirs' + [item];
      }
      assert p[..|p|] == p;
    }
  }
}
