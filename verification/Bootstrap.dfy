/**
 Merging the packaged bundle into a repository and undoing it
 (src/symphony/projects.py). The bundle's tree is given without the entries
 the merge ignores.
 */
module Bootstrap {
  import opened Prelude
  import opened FileTree

  /** What the bundle holds: files, directories, and entries that are neither. */
  datatype Node =
    | Leaf(name: string, content: nat)
    | Branch(name: string, children: seq<Node>)
    | Odd(name: string)

  /**
   The paths this run has created. A copy that fails half way leaves a file
   that no list names.
   */
  datatype Log = Log(files: seq<Path>, dirs: seq<Path>, partial: Option<Path>)

  ghost predicate Tracks(before: Tree, now: Tree, log: Log) {
    && WellFormed(before) && WellFormed(now)
    && match log.partial
       case None => Grown(before, now, log.files, log.dirs)
       case Some(p) =>
         && p in now && now[p] != Dir && p !in before
         && Grown(before, now - {p}, log.files, log.dirs)
  }

  // ---------------------------------------------------------------------
  // Cleanup
  // ---------------------------------------------------------------------

  /** What is left of a partial copy: the file and the directories made for it. */
  ghost predicate LeftBehind(before: Tree, now: Tree, p: Path) {
    && WellFormed(now)
    && (forall q :: q in now <==> q in before || q <= p)
    && (forall q :: q in before ==> q in now && now[q] == before[q])
    && p !in before
  }

  lemma PartialFileUndone(before: Tree, now: Tree, log: Log)
    requires Tracks(before, now, log) && |log.files| > 0
    ensures var last := log.files[|log.files| - 1];
            && last in now && now[last] != Dir
            && Tracks(before, now - {last}, log.(files := log.files[..|log.files| - 1]))
  {
    hide Grown, WellFormed;
    var last := log.files[|log.files| - 1];
    if log.partial.None? {
      FileUndone(before, now, log.files, log.dirs);
    } else {
      var p := log.partial.value;
      FileUndone(before, now - {p}, log.files, log.dirs);
      assert now - {p} - {last} == now - {last} - {p};
    }
    FileRemoved(now, last);
  }

  lemma FileRemoved(t: Tree, p: Path)
    requires WellFormed(t) && p in t && t[p] != Dir
    ensures WellFormed(t - {p})
  {
  }

  lemma DirRemoved(t: Tree, p: Path)
    requires WellFormed(t) && p in t && Empty(t, p) && p != []
    ensures WellFormed(t - {p})
  {
  }

  /**
   Directory removals so far, with a partial file in place: what is left is the
   old tree, the directories not reached, and what the file needs.
   */
  ghost predicate Removing(before: Tree, now: Tree, dirs: seq<Path>, p: Path) {
    && WellFormed(now) && WellFormed(before)
    && (forall q :: q in now ==> q in before || q <= p || q in SetOf(dirs))
    && (forall q :: q in before ==> q in now && now[q] == before[q])
    && p in now && p !in before && now[p] != Dir
    && Ordered(before, dirs)
    && forall q :: q in SetOf(dirs) ==> q !in before && (q in now ==> now[q] == Dir)
  }

  lemma RemovingStart(before: Tree, now: Tree, log: Log)
    requires Tracks(before, now, log) && log.partial.Some? && log.files == []
    ensures Removing(before, now, log.dirs, log.partial.value)
  {
    hide WellFormed, Ordered, Distinct;
    var p := log.partial.value;
    assert SetOf(log.files) == {};
    assert (now - {p}).Keys == now.Keys - {p};
    forall q | q in now ensures q in before || q <= p || q in SetOf(log.dirs) {
      assert q == p || q in (now - {p}).Keys;
    }
  }

  lemma UnrelatedIsEmpty(before: Tree, now: Tree, dirs: seq<Path>, p: Path)
    requires Removing(before, now, dirs, p) && |dirs| > 0 && !(dirs[|dirs| - 1] <= p)
    ensures Empty(now, dirs[|dirs| - 1])
  {
    hide Empty, Ordered, SetOf;
    var last := dirs[|dirs| - 1];
    OrderedMeans(before, dirs);
    forall q | q in now && |q| > 0 ensures Parent(q) != last {
      if q in before {
        assert Parent(q) in before;
      } else if q <= p {
        assert Parent(q) <= p;
      } else {
        ParentListedEarlier(before, dirs, q);
      }
    }
    NothingBelow(now, last);
  }

  lemma RemovingFewer(before: Tree, now: Tree, dirs: seq<Path>, p: Path)
    requires Removing(before, now, dirs, p) && |dirs| > 0
    requires dirs[|dirs| - 1] in now ==> dirs[|dirs| - 1] <= p
    ensures Removing(before, now, dirs[..|dirs| - 1], p)
  {
    hide Ordered, SetOf, WellFormed;
    OrderedMeans(before, dirs);
  }

  lemma RemovingLess(before: Tree, now: Tree, dirs: seq<Path>, p: Path, d: Path)
    requires Removing(before, now, dirs, p) && d in SetOf(dirs) && d in now && d != [] && Empty(now, d)
    ensures Removing(before, now - {d}, dirs, p)
  {
    hide Ordered, SetOf, WellFormed, Empty;
    DirRemoved(now, d);
  }

  /** A made directory is refused only when the partial file is below it. */
  lemma RemovingStep(before: Tree, now: Tree, dirs: seq<Path>, p: Path)
    requires Removing(before, now, dirs, p) && |dirs| > 0
    ensures var last := dirs[|dirs| - 1];
            var removed := last in now && now[last] == Dir && Empty(now, last);
            && Removing(before, if removed then now - {last} else now, dirs[..|dirs| - 1], p)
  {
    hide Empty, Ordered, SetOf, WellFormed;
    var last := dirs[|dirs| - 1];
    OrderedMeans(before, dirs);
    if last in now && Empty(now, last) {
      RemovingLess(before, now, dirs, p, last);
      RemovingFewer(before, now - {last}, dirs, p);
    } else {
      if last in now && !(last <= p) {
        UnrelatedIsEmpty(before, now, dirs, p);
      }
      RemovingFewer(before, now, dirs, p);
    }
  }

  lemma NothingBelow(t: Tree, p: Path)
    requires forall q :: q in t && |q| > 0 ==> Parent(q) != p
    ensures Empty(t, p)
  {
  }

  lemma OrderedMeans(before: Tree, dirs: seq<Path>)
    requires Ordered(before, dirs) && |dirs| > 0
    ensures var n := |dirs| - 1;
            && Ordered(before, dirs[..n]) && dirs[n] != [] && dirs[n] !in SetOf(dirs[..n])
            && SetOf(dirs) == SetOf(dirs[..n]) + {dirs[n]}
  {
    var n := |dirs| - 1;
    assert dirs == dirs[..n] + [dirs[n]];
    SetSnoc(dirs[..n], dirs[n]);
  }

  lemma RemovingEnd(before: Tree, now: Tree, p: Path)
    requires Removing(before, now, [], p)
    ensures LeftBehind(before, now, p)
  {
    hide WellFormed;
    assert SetOf([]) == {};
    forall q: Path | q <= p ensures q in now {
      PrefixPresent(now, p, q);
    }
  }

  /**
   Swallowing every failure: the tree is restored exactly when no copy failed
   half way; otherwise the half-written file and its new parents remain.
   */
  method CleanupCreated(disk: Disk, log: Log, ghost before: Tree)
    requires Tracks(before, disk.tree, log)
    modifies disk
    ensures disk.tree == before <==> log.partial.None?
    ensures log.partial.Some? ==> LeftBehind(before, disk.tree, log.partial.value)
  {
    hide Tracks, Removing, Empty, WellFormed;
    assert log.files[..|log.files|] == log.files && log.(files := log.files) == log;
    for i := |log.files| downto 0
      invariant Tracks(before, disk.tree, log.(files := log.files[..i]))
    {
      ghost var now := log.(files := log.files[..i + 1]);
      PartialFileUndone(before, disk.tree, now);
      assert now.(files := now.files[..i]) == log.(files := log.files[..i]);
      disk.Unlink(log.files[i]);
    }
    assert log.files[..0] == [] && log.dirs[..|log.dirs|] == log.dirs;
    if log.partial.None? {
      RemoveAll(disk, log.dirs, before);
    } else {
      RemoveAround(disk, log, before);
    }
  }

  method RemoveAll(disk: Disk, dirs: seq<Path>, ghost before: Tree)
    requires Tracks(before, disk.tree, Log([], dirs, None))
    modifies disk
    ensures disk.tree == before
  {
    hide Grown, Empty, WellFormed;
    assert dirs[..|dirs|] == dirs;
    for i := |dirs| downto 0
      invariant Grown(before, disk.tree, [], dirs[..i])
    {
      LastDirEmpty(before, disk.tree, dirs[..i + 1]);
      assert dirs[..i + 1][..i] == dirs[..i];
      var removed := disk.RemoveDir(dirs[i]);
    }
    assert dirs[..0] == [];
    NothingGrown(before, disk.tree);
  }

  method RemoveAround(disk: Disk, log: Log, ghost before: Tree)
    requires Tracks(before, disk.tree, log.(files := [])) && log.partial.Some?
    modifies disk
    ensures LeftBehind(before, disk.tree, log.partial.value) && disk.tree != before
  {
    hide Removing, Empty, Tracks, WellFormed;
    var dirs := log.dirs;
    RemovingStart(before, disk.tree, log.(files := []));
    assert dirs[..|dirs|] == dirs;
    for i := |dirs| downto 0
      invariant Removing(before, disk.tree, dirs[..i], log.partial.value)
    {
      RemovingStep(before, disk.tree, dirs[..i + 1], log.partial.value);
      assert dirs[..i + 1][..i] == dirs[..i];
      var removed := disk.RemoveDir(dirs[i]);
    }
    assert dirs[..0] == [];
    RemovingEnd(before, disk.tree, log.partial.value);
  }

  // ---------------------------------------------------------------------
  // Merging
  // ---------------------------------------------------------------------

  /** Everything present stays as it is. */
  ghost predicate Keeps(was: Tree, now: Tree) {
    forall q :: q in was ==> q in now && now[q] == was[q]
  }

  /** What is added is below the repository directory. */
  ghost predicate Within(root: Path, was: Tree, now: Tree) {
    forall q :: q in now && q !in was ==> root <= q
  }

  /** A directory on the way to `p`, `p` included. */
  ghost predicate OnTheWay(q: Path, e: Entry, p: Path) { e == Dir && q <= p }

  lemma PresentOrWithin(root: Path, t: Tree, p: Path, q: Path)
    requires WellFormed(t) && root in t && root <= p && q <= p
    ensures q in t || root <= q
  {
    hide WellFormed;
    if |q| <= |root| {
      assert q <= root;
      PrefixPresent(t, root, q);
    } else {
      assert q[..|root|] == root;
    }
  }

  // ---------------------------------------------------------------------
  // What a merge needs to get to its end
  // ---------------------------------------------------------------------

  /** Paths that are to be directories, and paths that are to be anything else. */
  datatype Layout = Layout(dirs: iset<Path>, files: iset<Path>)

  /** No path is to be both, and what a directory is in is a directory. */
  ghost predicate Consistent(want: Layout) {
    && (forall q :: q in want.dirs ==> q !in want.files)
    && (forall q, p :: p in want.dirs && q <= p ==> q in want.dirs)
  }

  /** Nothing in the tree is in the way. */
  ghost predicate Fits(t: Tree, want: Layout) {
    forall q :: q in t ==> (q in want.dirs ==> t[q] == Dir) && (q in want.files ==> t[q] != Dir)
  }

  ghost predicate PlannedNode(node: Node, p: Path, want: Layout)
    decreases node
  {
    match node
    case Leaf(name, _) => p + [name] in want.files
    case Branch(name, more) => p + [name] in want.dirs && forall c :: c in more ==> PlannedNode(c, p + [name], want)
    case Odd(_) => false
  }

  ghost predicate Planned(children: seq<Node>, p: Path, want: Layout) {
    forall c :: c in children ==> PlannedNode(c, p, want)
  }

  /** A layout that has room for everything the bundle brings. */
  ghost predicate Holds(b: Bundle, root: Path, want: Layout) {
    && Consistent(want) && root in want.dirs
    && (forall m :: m in b.files ==> m.0 != [] && m.0 in want.files && Parent(m.0) in want.dirs)
    && b.board in want.dirs && Gitkeep(b) in want.files
    && (b.withSkill ==>
          && b.skills in want.dirs && Planned(b.tree, b.skills, want)
          && b.links in want.dirs && b.link in want.files && b.link != [] && Parent(b.link) == b.links)
  }

  lemma FitsWay(t: Tree, want: Layout, p: Path)
    requires Consistent(want) && Fits(t, want) && p in want.dirs
    ensures DirsTo(t, p)
  {
  }

  lemma FitsDir(t: Tree, want: Layout, p: Path)
    requires Fits(t, want) && p in t
    ensures (p in want.dirs ==> t[p] == Dir) && (p in want.files ==> t[p] != Dir)
  {
  }

  lemma FitsGrown(was: Tree, now: Tree, want: Layout, p: Path)
    requires Consistent(want) && Fits(was, want) && p in want.dirs && Keeps(was, now)
    requires forall q :: q in now && q !in was ==> OnTheWay(q, now[q], p)
    ensures Fits(now, want)
  {
  }

  lemma FitsFile(t: Tree, want: Layout, p: Path, e: Entry)
    requires Consistent(want) && Fits(t, want) && p in want.files && e != Dir
    ensures Fits(t[p := e], want)
  {
  }

  /** Every file this run created is a file still. */
  ghost predicate FilesStand(t: Tree, files: seq<Path>) {
    forall p :: p in files ==> p in t && t[p].File?
  }

  lemma TracksNothing(t: Tree)
    requires WellFormed(t)
    ensures Tracks(t, t, Log([], [], None))
  {
    hide WellFormed, Grown;
    GrownStart(t);
  }

  method EnsureDirectory(
      disk: Disk, p: Path, ghost want: Layout, ghost root: Path, ghost before: Tree, log: Log)
    returns (log': Log, ok: bool)
    requires Tracks(before, disk.tree, log) && log.partial.None? && root in disk.tree && root <= p
    modifies disk
    ensures Tracks(before, disk.tree, log') && log'.partial.None? && Keeps(old(disk.tree), disk.tree)
    ensures Within(root, old(disk.tree), disk.tree) && log'.files == log.files
    ensures forall q :: q in disk.tree && q !in old(disk.tree) ==> OnTheWay(q, disk.tree[q], p)
    ensures ok ==> p in disk.tree && disk.tree[p] == Dir
    ensures disk.sound && Consistent(want) && Fits(old(disk.tree), want) && p in want.dirs ==>
              ok && Fits(disk.tree, want)
  {
    hide Grown, WellFormed, Fits, Consistent, DirsTo;
    ghost var was := disk.tree;
    ghost var goes := disk.sound && Consistent(want) && Fits(disk.tree, want) && p in want.dirs;
    if goes {
      FitsWay(disk.tree, want, p);
    }
    var dirs;
    dirs, ok := disk.MakeMissing(p, before, log.files, log.dirs);
    log' := log.(dirs := dirs);
    if goes {
      FitsGrown(was, disk.tree, want, p);
      FitsDir(disk.tree, want, p);
    }
    ok := ok && disk.tree[p] == Dir;
    forall q | q in disk.tree && q !in was ensures root <= q {
      PresentOrWithin(root, was, p, q);
    }
  }

  lemma TracksFile(before: Tree, now: Tree, log: Log, p: Path, e: Entry)
    requires Tracks(before, now, log) && log.partial.None? && p !in now && p != [] && e != Dir
    requires Parent(p) in now && now[Parent(p)] == Dir
    ensures Tracks(before, now[p := e], log.(files := log.files + [p]))
    ensures Tracks(before, now[p := e], log.(partial := Some(p)))
  {
    hide Grown, WellFormed;
    GrownFile(before, now, log.files, log.dirs, p, e);
    GrownWellFormed(now, p, e);
    assert now[p := e] - {p} == now;
    assert p !in before by { BeforeIsPresent(before, now, log.files, log.dirs); }
  }

  lemma BeforeIsPresent(before: Tree, now: Tree, files: seq<Path>, dirs: seq<Path>)
    requires Grown(before, now, files, dirs)
    ensures Keeps(before, now)
  {
    hide Ordered, Distinct, SetOf;
    forall q | q in before ensures q in now {
      assert q in now.Keys;
    }
  }

  /** What copying one file adds: directories on the way, and the file if it is not tracked. */
  ghost predicate AddsFile(was: Tree, now: Tree, p: Path, content: nat, tracked: set<Path>)
    requires p != []
  {
    forall q :: q in now && q !in was ==>
      || OnTheWay(q, now[q], Parent(p))
      || (q == p && p !in tracked && now[q] == File(content, false))
  }

  /** Never over an existing file; a tracked file that is absent stays deleted. */
  method CopyMissingFile(
      disk: Disk, p: Path, content: nat, tracked: set<Path>,
      ghost want: Layout, ghost root: Path, ghost before: Tree, log: Log)
    returns (log': Log, ok: bool)
    requires Tracks(before, disk.tree, log) && log.partial.None? && root in disk.tree && root < p
    modifies disk
    ensures Tracks(before, disk.tree, log') && Keeps(old(disk.tree), disk.tree)
    ensures Within(root, old(disk.tree), disk.tree)
    ensures ok ==> log'.partial.None? && AddsFile(old(disk.tree), disk.tree, p, content, tracked)
    ensures ok ==> p in disk.tree || p in tracked
    ensures ok && p !in old(disk.tree) && p !in tracked ==>
              disk.tree[p] == File(content, false) && p in log'.files
    ensures ok && FilesStand(old(disk.tree), log.files) ==> FilesStand(disk.tree, log'.files)
    ensures disk.sound && Consistent(want) && Fits(old(disk.tree), want) ==>
              p in want.files && Parent(p) in want.dirs ==>
              ok && Fits(disk.tree, want)
  {
    hide Tracks, Fits, Consistent;
    ghost var fits := disk.sound && Consistent(want) && Fits(disk.tree, want);
    ghost var goes := fits && p in want.files && Parent(p) in want.dirs;
    log', ok := log, true;
    if p in tracked && p !in disk.tree { return; }
    if p in disk.tree {
      ok := disk.tree[p] != Dir;
      if goes {
        FitsDir(disk.tree, want, p);
      }
      return;
    }
    assert root <= Parent(p);
    log', ok := EnsureDirectory(disk, Parent(p), want, root, before, log);
    if !ok { return; }
    ghost var was := disk.tree;
    assert !OnTheWay(p, Dir, Parent(p));
    ok := disk.Create(p);
    if !ok { return; }
    ok := disk.Write(p, content);
    TracksFile(before, was, log', p, disk.tree[p]);
    assert disk.tree == was[p := disk.tree[p]];
    if goes {
      FitsFile(was, want, p, disk.tree[p]);
    }
    log' := if ok then log'.(files := log'.files + [p]) else log'.(partial := Some(p));
  }

  method MergeMissingTree(
      disk: Disk, children: seq<Node>, p: Path, tracked: set<Path>,
      ghost want: Layout, ghost root: Path, ghost before: Tree, log: Log)
    returns (log': Log, ok: bool)
    requires Tracks(before, disk.tree, log) && log.partial.None? && root in disk.tree && root <= p
    modifies disk
    ensures Tracks(before, disk.tree, log') && Keeps(old(disk.tree), disk.tree)
    ensures Within(root, old(disk.tree), disk.tree)
    ensures ok ==> log'.partial.None? && AddsTree(old(disk.tree), disk.tree, children, p, tracked)
    ensures ok ==> Merged(disk.tree, children, p, tracked)
    ensures disk.sound && Consistent(want) && Fits(old(disk.tree), want) ==>
              p in want.dirs && Planned(children, p, want) ==>
              ok && Fits(disk.tree, want)
    decreases children
  {
    hide Tracks, Merged, MergedNode, Supplied, Fits, Consistent;
    ghost var fits := disk.sound && Consistent(want) && Fits(disk.tree, want);
    ghost var goes := fits && p in want.dirs && Planned(children, p, want);
    ghost var first := disk.tree;
    log', ok := EnsureDirectory(disk, p, want, root, before, log);
    if !ok { return; }
    MergedNothing(disk.tree, p, tracked);
    for i := 0 to |children|
      invariant ok && Tracks(before, disk.tree, log') && log'.partial.None? && Keeps(first, disk.tree)
      invariant Within(root, first, disk.tree) && AddsTree(first, disk.tree, children, p, tracked)
      invariant Merged(disk.tree, children[..i], p, tracked)
      invariant goes ==> Fits(disk.tree, want)
    {
      ghost var was := disk.tree;
      var child := children[i];
      assert goes ==> PlannedNode(child, p, want);
      match child {
        case Leaf(name, content) =>
          assert Parent(p + [name]) == p;
          log', ok := CopyMissingFile(disk, p + [name], content, tracked, want, root, before, log');
        case Branch(name, more) =>
          log', ok := MergeMissingTree(disk, more, p + [name], tracked, want, root, before, log');
        case Odd(_) =>
          ok := false;
      }
      if !ok { return; }
      assert children[..i + 1] == children[..i] + [child];
      MergedStep(was, disk.tree, children[..i], child, p, tracked);
      AddsTreeStep(first, was, disk.tree, children, child, p, tracked);
    }
    assert children[..|children|] == children;
  }

  /** The entries the bundle has at a path: its directories, and its untracked files with their content. */
  ghost predicate Supplies(node: Node, p: Path, tracked: set<Path>, q: Path, e: Entry)
    decreases node
  {
    match node
    case Leaf(name, content) => q == p + [name] && q !in tracked && e == File(content, false)
    case Branch(name, more) =>
      || (q == p + [name] && e == Dir)
      || exists c :: c in more && Supplies(c, p + [name], tracked, q, e)
    case Odd(_) => false
  }

  ghost predicate Supplied(children: seq<Node>, p: Path, tracked: set<Path>, q: Path, e: Entry) {
    exists c :: c in children && Supplies(c, p, tracked, q, e)
  }

  /** What merging a tree adds: entries of the bundle, and directories on the way. */
  ghost predicate AddsTree(was: Tree, now: Tree, children: seq<Node>, p: Path, tracked: set<Path>) {
    forall q :: q in now && q !in was ==> OnTheWay(q, now[q], p) || Supplied(children, p, tracked, q, now[q])
  }

  lemma AddsTreeStep(
      first: Tree, was: Tree, now: Tree, children: seq<Node>, child: Node, p: Path, tracked: set<Path>)
    requires AddsTree(first, was, children, p, tracked) && Keeps(was, now) && child in children
    requires match child
             case Leaf(name, content) => AddsFile(was, now, p + [name], content, tracked)
             case Branch(name, more) => AddsTree(was, now, more, p + [name], tracked)
             case Odd(_) => false
    ensures AddsTree(first, now, children, p, tracked)
  {
    forall q | q in now && q !in first
      ensures OnTheWay(q, now[q], p) || Supplied(children, p, tracked, q, now[q])
    {
      if q !in was {
        AddedBy(was, now, child, p, tracked, q);
      }
    }
  }

  lemma AddedBy(was: Tree, now: Tree, child: Node, p: Path, tracked: set<Path>, q: Path)
    requires q in now && q !in was
    requires match child
             case Leaf(name, content) => AddsFile(was, now, p + [name], content, tracked)
             case Branch(name, more) => AddsTree(was, now, more, p + [name], tracked)
             case Odd(_) => false
    ensures OnTheWay(q, now[q], p) || Supplies(child, p, tracked, q, now[q])
  {
    if child.Leaf? {
      assert Parent(p + [child.name]) == p;
    } else if q <= p + [child.name] && q != p + [child.name] {
      assert (p + [child.name])[..|q|] == p[..|q|];
    }
  }

  /** Every file of the bundle is there, unless its absence is tracked. */
  ghost predicate MergedNode(t: Tree, node: Node, p: Path, tracked: set<Path>)
    decreases node
  {
    match node
    case Leaf(name, _) => p + [name] in t || p + [name] in tracked
    case Branch(name, more) => forall c :: c in more ==> MergedNode(t, c, p + [name], tracked)
    case Odd(_) => false
  }

  ghost predicate Merged(t: Tree, children: seq<Node>, p: Path, tracked: set<Path>) {
    forall c :: c in children ==> MergedNode(t, c, p, tracked)
  }

  lemma MergedNothing(t: Tree, p: Path, tracked: set<Path>)
    ensures Merged(t, [], p, tracked)
  {
  }

  lemma {:induction false} MergedStays(was: Tree, now: Tree, node: Node, p: Path, tracked: set<Path>)
    requires Keeps(was, now) && MergedNode(was, node, p, tracked)
    ensures MergedNode(now, node, p, tracked)
    decreases node
  {
    if node.Branch? {
      forall c | c in node.children ensures MergedNode(now, c, p + [node.name], tracked) {
        MergedStays(was, now, c, p + [node.name], tracked);
      }
    }
  }

  lemma MergedStep(was: Tree, now: Tree, children: seq<Node>, child: Node, p: Path, tracked: set<Path>)
    requires Keeps(was, now) && Merged(was, children, p, tracked)
    requires match child
             case Leaf(name, _) => p + [name] in now || p + [name] in tracked
             case Branch(name, more) => Merged(now, more, p + [name], tracked)
             case Odd(_) => false
    ensures Merged(now, children + [child], p, tracked)
  {
    forall c | c in children + [child] ensures MergedNode(now, c, p, tracked) {
      if c in children {
        MergedStays(was, now, c, p, tracked);
      }
    }
  }

  // ---------------------------------------------------------------------
  // The whole operation
  // ---------------------------------------------------------------------

  datatype Bundle = Bundle(
    files: seq<(Path, nat)>, workflow: Path, rendered: nat, board: Path, skills: Path, tree: seq<Node>,
    links: Path, link: Path, withSkill: bool)

  /** Everything the bundle names is below the repository directory. */
  ghost predicate Inside(b: Bundle, root: Path) {
    && (forall m :: m in b.files ==> root < m.0)
    && root <= b.board && root <= b.skills && root <= b.links && root < b.link
  }

  /** From the mappings: directories on the way, and untracked files, the workflow filled in. */
  ghost predicate FromFiles(b: Bundle, tracked: set<Path>, q: Path, e: Entry)
    requires forall m :: m in b.files ==> m.0 != []
  {
    || (exists m :: m in b.files && OnTheWay(q, e, Parent(m.0)))
    || (q !in tracked && e.File? && exists m :: m in b.files && IsMapping(b, m, q, e.content))
  }

  predicate IsMapping(b: Bundle, m: (Path, nat), q: Path, content: nat) {
    m.0 == q && content == if q == b.workflow then b.rendered else m.1
  }

  function Gitkeep(b: Bundle): Path { b.board + [".gitkeep"] }

  /** From the mappings or the board: an empty, untracked .gitkeep and the way to it. */
  ghost predicate FromBoard(b: Bundle, tracked: set<Path>, q: Path, e: Entry)
    requires forall m :: m in b.files ==> m.0 != []
  {
    || FromFiles(b, tracked, q, e)
    || OnTheWay(q, e, b.board)
    || (q == Gitkeep(b) && q !in tracked && e.File? && e.content == 0)
  }

  /** From the skill: the tree, the way to it and to its link, and the untracked link. */
  ghost predicate FromSkill(b: Bundle, tracked: set<Path>, q: Path, e: Entry) {
    || OnTheWay(q, e, b.skills)
    || Supplied(b.tree, b.skills, tracked, q, e)
    || OnTheWay(q, e, b.links)
    || (q == b.link && q !in tracked && e == Link)
  }

  ghost predicate Wanted(b: Bundle, tracked: set<Path>, q: Path, e: Entry)
    requires forall m :: m in b.files ==> m.0 != []
  {
    FromBoard(b, tracked, q, e) || (b.withSkill && FromSkill(b, tracked, q, e))
  }

  lemma CreatedIsListed(before: Tree, now: Tree, log: Log, q: Path)
    requires Tracks(before, now, log) && log.partial.None? && q in now && q !in before && now[q] != Dir
    ensures q in log.files
  {
    assert q in now.Keys;
  }

  method CopyMappings(disk: Disk, b: Bundle, tracked: set<Path>, ghost want: Layout, ghost root: Path)
    returns (log: Log, ok: bool)
    requires WellFormed(disk.tree) && root in disk.tree && Inside(b, root)
    modifies disk
    ensures Tracks(old(disk.tree), disk.tree, log) && Within(root, old(disk.tree), disk.tree)
    ensures ok ==> log.partial.None?
    ensures ok ==> forall m :: m in b.files ==> m.0 in disk.tree || m.0 in tracked
    ensures ok ==> forall q :: q in disk.tree && q !in old(disk.tree) ==> FromFiles(b, tracked, q, disk.tree[q])
    ensures root in disk.tree
    ensures ok ==> FilesStand(disk.tree, log.files)
    ensures disk.sound && Holds(b, root, want) && Fits(old(disk.tree), want) ==> ok && Fits(disk.tree, want)
  {
    hide Tracks, FromFiles, AddsFile, WellFormed, Fits, Consistent;
    ghost var goes := disk.sound && Holds(b, root, want) && Fits(disk.tree, want);
    ghost var before := disk.tree;
    TracksNothing(before);
    log, ok := Log([], [], None), true;
    for i := 0 to |b.files|
      invariant ok && Tracks(before, disk.tree, log) && log.partial.None?
      invariant root in disk.tree && Within(root, before, disk.tree)
      invariant forall j :: 0 <= j < i ==> b.files[j].0 in disk.tree || b.files[j].0 in tracked
      invariant forall q :: q in disk.tree && q !in before ==> FromFiles(b, tracked, q, disk.tree[q])
      invariant FilesStand(disk.tree, log.files) && (goes ==> Fits(disk.tree, want))
    {
      ghost var was := disk.tree;
      var m := b.files[i];
      assert m in b.files;
      log, ok := CopyMissingFile(disk, m.0, m.1, tracked, want, root, before, log);
      if !ok { return; }
      ghost var copied := disk.tree;
      MappingCopied(before, was, copied, log, b, m, tracked);
      if m.0 == b.workflow && b.workflow in log.files {
        ok := Rewrite(disk, b.workflow, b.rendered, before, log);
        if !ok { return; }
        WorkflowFilled(before, copied, disk.tree, b, m, tracked);
        if goes {
          FitsFile(copied, want, b.workflow, disk.tree[b.workflow]);
        }
      }
    }
  }

  /** Copied, but for a workflow just created, which still has to be filled in. */
  ghost predicate Copied(before: Tree, now: Tree, b: Bundle, m: (Path, nat), tracked: set<Path>)
    requires forall k :: k in b.files ==> k.0 != []
  {
    forall q :: q in now && q !in before ==>
      FromFiles(b, tracked, q, now[q]) || (q == m.0 == b.workflow && q !in tracked && now[q].File?)
  }

  lemma MappingCopied(
      before: Tree, was: Tree, now: Tree, log: Log, b: Bundle, m: (Path, nat), tracked: set<Path>)
    requires (forall k :: k in b.files ==> k.0 != []) && m in b.files
    requires forall q :: q in was && q !in before ==> FromFiles(b, tracked, q, was[q])
    requires Keeps(was, now) && AddsFile(was, now, m.0, m.1, tracked)
    requires Tracks(before, now, log) && log.partial.None?
    ensures Copied(before, now, b, m, tracked)
    ensures !(m.0 == b.workflow && b.workflow in log.files) ==>
              forall q :: q in now && q !in before ==> FromFiles(b, tracked, q, now[q])
  {
    hide Tracks;
    forall q | q in now && q !in before
      ensures FromFiles(b, tracked, q, now[q]) || (q == m.0 == b.workflow && q !in tracked && now[q].File?)
      ensures FromFiles(b, tracked, q, now[q]) || q in log.files
    {
      if now[q] != Dir {
        CreatedIsListed(before, now, log, q);
      }
      if q !in was && q == m.0 && now[q].File? && q != b.workflow {
        assert IsMapping(b, m, q, now[q].content);
      }
    }
  }

  lemma WorkflowFilled(before: Tree, was: Tree, now: Tree, b: Bundle, m: (Path, nat), tracked: set<Path>)
    requires (forall k :: k in b.files ==> k.0 != []) && m in b.files && m.0 == b.workflow
    requires Copied(before, was, b, m, tracked)
    requires b.workflow in was && was[b.workflow].File?
    requires now == was[b.workflow := File(b.rendered, was[b.workflow].executable)]
    ensures forall q :: q in now && q !in before ==> FromFiles(b, tracked, q, now[q])
  {
    forall q | q in now && q !in before ensures FromFiles(b, tracked, q, now[q]) {
      if q == b.workflow {
        assert IsMapping(b, m, q, now[q].content);
      }
    }
  }

  /** Rewrites only a file this run created, so a failure is undone with it. */
  method Rewrite(disk: Disk, p: Path, content: nat, ghost before: Tree, log: Log) returns (ok: bool)
    requires Tracks(before, disk.tree, log) && log.partial.None? && p in log.files
    modifies disk
    ensures Tracks(before, disk.tree, log) && disk.tree.Keys == old(disk.tree).Keys
    ensures ok ==> p in old(disk.tree) && old(disk.tree)[p].File?
                   && disk.tree == old(disk.tree)[p := File(content, old(disk.tree)[p].executable)]
    ensures disk.sound && p in old(disk.tree) && old(disk.tree)[p].File? ==> ok
  {
    hide Grown, WellFormed;
    CreatedFilePresent(before, disk.tree, log.files, log.dirs, p);
    if !disk.tree[p].File? { return false; }
    ghost var was := disk.tree;
    ok := disk.Write(p, content);
    GrownRewrite(before, was, log.files, log.dirs, p, disk.tree[p]);
    FileRewritten(was, p, disk.tree[p]);
    assert disk.tree == was[p := disk.tree[p]];
  }

  lemma CreatedFilePresent(before: Tree, now: Tree, files: seq<Path>, dirs: seq<Path>, p: Path)
    requires Grown(before, now, files, dirs) && p in files
    ensures p in now
  {
    assert p in SetOf(files);
  }

  method MakeLink(disk: Disk, p: Path, ghost before: Tree, log: Log) returns (log': Log, ok: bool)
    requires Tracks(before, disk.tree, log) && log.partial.None?
    modifies disk
    ensures Tracks(before, disk.tree, log') && log'.partial.None?
    ensures ok ==> p !in old(disk.tree) && disk.tree == old(disk.tree)[p := Link] && log'.files == log.files + [p]
    ensures !ok ==> disk.tree == old(disk.tree) && log' == log
    ensures disk.sound && p != [] && p !in old(disk.tree) && Parent(p) in old(disk.tree) ==>
              old(disk.tree)[Parent(p)] == Dir ==> ok
  {
    hide Tracks;
    var fault: bool := *;
    log' := log;
    ok := (disk.sound || !fault) && p != [] && p !in disk.tree && Parent(p) in disk.tree && disk.tree[Parent(p)] == Dir;
    if ok {
      TracksFile(before, disk.tree, log, p, Link);
      disk.tree := disk.tree[p := Link];
      log' := log.(files := log.files + [p]);
    }
  }

  method AddBoard(
      disk: Disk, b: Bundle, tracked: set<Path>, ghost want: Layout, ghost root: Path, ghost before: Tree, log: Log)
    returns (log': Log, ok: bool)
    requires Tracks(before, disk.tree, log) && log.partial.None? && root in disk.tree && Inside(b, root)
    requires forall q :: q in disk.tree && q !in before ==> FromFiles(b, tracked, q, disk.tree[q])
    modifies disk
    ensures Tracks(before, disk.tree, log') && Within(root, old(disk.tree), disk.tree)
    ensures old(disk.tree).Keys <= disk.tree.Keys
    ensures ok ==> log'.partial.None?
    ensures ok ==> forall q :: q in disk.tree && q !in before ==> FromBoard(b, tracked, q, disk.tree[q])
    ensures disk.sound && Holds(b, root, want) && Fits(old(disk.tree), want) ==>
              FilesStand(old(disk.tree), log.files) ==> ok && Fits(disk.tree, want)
  {
    hide Tracks, FromFiles, Fits, Consistent;
    ghost var goes := disk.sound && Holds(b, root, want) && Fits(disk.tree, want) && FilesStand(disk.tree, log.files);
    log', ok := EnsureDirectory(disk, b.board, want, root, before, log);
    if !ok { return; }
    var gitkeep := Gitkeep(b);
    assert Parent(gitkeep) == b.board;
    log', ok := CopyMissingFile(disk, gitkeep, b.rendered, tracked, want, root, before, log');
    if !ok { return; }
    ghost var copied := disk.tree;
    if gitkeep in log'.files {
      ok := Rewrite(disk, gitkeep, 0, before, log');
      if !ok { return; }
      FileIsUntracked(b, tracked, gitkeep, copied[gitkeep]);
      if goes {
        FitsFile(copied, want, gitkeep, disk.tree[gitkeep]);
      }
    } else if gitkeep in copied && gitkeep !in before && copied[gitkeep] != Dir {
      CreatedIsListed(before, copied, log', gitkeep);
    }
  }

  lemma FileIsUntracked(b: Bundle, tracked: set<Path>, q: Path, e: Entry)
    requires (forall m :: m in b.files ==> m.0 != []) && e.File?
    ensures FromFiles(b, tracked, q, e) ==> q !in tracked
  {
  }

  method BootstrapMissing(disk: Disk, b: Bundle, tracked: set<Path>, ghost want: Layout, ghost root: Path)
    returns (log: Log, ok: bool)
    requires WellFormed(disk.tree) && root in disk.tree && Inside(b, root)
    modifies disk
    ensures Tracks(old(disk.tree), disk.tree, log) && Within(root, old(disk.tree), disk.tree)
    ensures ok ==> log.partial.None?
    ensures ok ==> forall m :: m in b.files ==> m.0 in disk.tree || m.0 in tracked
    ensures ok && b.withSkill ==> Merged(disk.tree, b.tree, b.skills, tracked)
    ensures ok ==> forall q :: q in disk.tree && q !in old(disk.tree) ==> Wanted(b, tracked, q, disk.tree[q])
    ensures disk.sound && Holds(b, root, want) && Fits(old(disk.tree), want) ==> ok
  {
    hide Tracks, Merged, MergedNode, FromFiles, FromBoard, FromSkill, WellFormed, Fits, Holds, FilesStand;
    ghost var before := disk.tree;
    log, ok := CopyMappings(disk, b, tracked, want, root);
    if !ok { return; }
    log, ok := AddBoard(disk, b, tracked, want, root, before, log);
    if !ok { return; }
    if b.withSkill {
      log, ok := AddSkill(disk, b, tracked, want, root, before, log);
    }
  }

  method AddSkill(
      disk: Disk, b: Bundle, tracked: set<Path>, ghost want: Layout, ghost root: Path, ghost before: Tree, log: Log)
    returns (log': Log, ok: bool)
    requires Tracks(before, disk.tree, log) && log.partial.None? && root in disk.tree && Inside(b, root)
    modifies disk
    ensures Tracks(before, disk.tree, log') && Keeps(old(disk.tree), disk.tree)
    ensures Within(root, old(disk.tree), disk.tree)
    ensures ok ==> log'.partial.None? && Merged(disk.tree, b.tree, b.skills, tracked)
    ensures ok ==> forall q :: q in disk.tree && q !in old(disk.tree) ==> FromSkill(b, tracked, q, disk.tree[q])
    ensures disk.sound && b.withSkill && Holds(b, root, want) && Fits(old(disk.tree), want) ==> ok
  {
    hide Tracks, Merged, MergedNode, Supplied, Fits, Consistent, Planned;
    log', ok := MergeMissingTree(disk, b.tree, b.skills, tracked, want, root, before, log);
    if !ok { return; }
    ghost var merged := disk.tree;
    log', ok := EnsureDirectory(disk, b.links, want, root, before, log');
    if ok && b.link !in tracked && b.link !in disk.tree {
      log', ok := MakeLink(disk, b.link, before, log');
    }
    MergedKept(merged, disk.tree, b.tree, b.skills, tracked);
  }

  lemma MergedKept(was: Tree, now: Tree, children: seq<Node>, p: Path, tracked: set<Path>)
    requires Keeps(was, now) && Merged(was, children, p, tracked)
    ensures Merged(now, children, p, tracked)
  {
    forall c | c in children ensures MergedNode(now, c, p, tracked) {
      MergedStays(was, now, c, p, tracked);
    }
  }

  // ---------------------------------------------------------------------
  // A repository directory made for the project
  // ---------------------------------------------------------------------

  /**
   Adopted; failed after the commit, which is never undone; or failed before it,
   having made the repository directory or not, with a copy left half way or not.
   */
  datatype Outcome = Adopted | Published | Failed(madeRoot: bool, partial: Option<Path>)

  /** With a directory made for the project, undoing removes it and not the parents made for it. */
  ghost predicate ParentsLeft(before: Tree, now: Tree, repo: Path) {
    && Keeps(before, now)
    && forall q :: q in now && q !in before ==> q < repo && now[q] == Dir
  }

  lemma TracksKeeps(before: Tree, now: Tree, log: Log)
    requires Tracks(before, now, log)
    ensures Keeps(before, now)
  {
    hide Ordered, Distinct, SetOf, WellFormed;
    if log.partial.None? {
      BeforeIsPresent(before, now, log.files, log.dirs);
    } else {
      BeforeIsPresent(before, now - {log.partial.value}, log.files, log.dirs);
    }
  }

  lemma NotTheTop(t: Tree, p: Path)
    requires WellFormed(t) && p !in t
    ensures p != []
  {
  }

  lemma RootNotMade(before: Tree, now: Tree, repo: Path)
    requires WellFormed(before) && repo !in now && Keeps(before, now)
    requires forall q :: q in now && q !in before ==> OnTheWay(q, now[q], repo)
    ensures ParentsLeft(before, now, repo)
    ensures repo != [] && (Parent(repo) in before ==> now == before)
  {
    hide WellFormed;
    NotTheTop(before, repo);
    forall q | q in now && q !in before ensures q < repo && (Parent(repo) in before ==> q in before) {
      assert q != repo;
      BelowParent(repo, q);
      if Parent(repo) in before {
        PrefixPresent(before, Parent(repo), q);
      }
    }
  }

  /** The directories made on the way to the repository are on the way to its board. */
  lemma WayIsWanted(b: Bundle, tracked: set<Path>, root: Path, q: Path, e: Entry)
    requires Inside(b, root) && OnTheWay(q, e, root)
    ensures Wanted(b, tracked, q, e)
  {
  }

  lemma RootRemoved(before: Tree, made: Tree, full: Tree, now: Tree, repo: Path)
    requires WellFormed(before) && repo !in before && WellFormed(made) && repo in made && Keeps(before, made)
    requires forall q :: q in made && q !in before ==> OnTheWay(q, made[q], repo)
    requires Keeps(made, full) && Within(repo, made, full)
    requires forall q :: q in now <==> q in full && !(repo <= q)
    requires forall q :: q in now ==> now[q] == full[q]
    ensures ParentsLeft(before, now, repo)
    ensures forall q :: q in now <==> q in before || q < repo
    ensures repo != [] && (now == before <==> Parent(repo) in before)
  {
    hide WellFormed;
    NotTheTop(before, repo);
    forall q ensures q in now <==> q in before || q < repo {
      if q in before && repo <= q {
        PrefixPresent(before, q, repo);
      } else if q < repo {
        PrefixPresent(made, repo, q);
      }
    }
    if Parent(repo) in before {
      forall q | q < repo ensures q in before {
        BelowParent(repo, q);
        PrefixPresent(before, Parent(repo), q);
      }
      assert now == before;
    } else {
      assert Parent(repo) < repo;
    }
  }

  lemma HoldsWay(t: Tree, b: Bundle, root: Path, want: Layout)
    requires Holds(b, root, want) && Fits(t, want)
    ensures DirsTo(t, root)
  {
    hide Fits, Consistent, DirsTo;
    FitsWay(t, want, root);
  }

  lemma RootFits(was: Tree, now: Tree, b: Bundle, root: Path, want: Layout)
    requires Holds(b, root, want) && Fits(was, want) && Keeps(was, now)
    requires forall q :: q in now && q !in was ==> OnTheWay(q, now[q], root)
    ensures Fits(now, want)
  {
    hide Fits, Consistent;
    FitsGrown(was, now, want, root);
  }

  /** mkdir with its parents; a failure on the way leaves the parents it made. */
  method MakeRoot(disk: Disk, repo: Path) returns (ok: bool)
    requires WellFormed(disk.tree) && repo !in disk.tree
    modifies disk
    ensures WellFormed(disk.tree) && Keeps(old(disk.tree), disk.tree)
    ensures forall q :: q in disk.tree && q !in old(disk.tree) ==> OnTheWay(q, disk.tree[q], repo)
    ensures ok <==> repo in disk.tree
    ensures disk.sound && DirsTo(old(disk.tree), repo) ==> ok
  {
    hide WellFormed, Grown, DirsTo;
    GrownStart(disk.tree);
    var dirs;
    dirs, ok := disk.MakeMissing(repo, disk.tree, [], []);
  }

  /**
   The merge and what follows it. A failure up to the commit is undone; one after
   it leaves everything in place.
   */
  method Bootstrap(
      disk: Disk, repo: Path, b: Bundle, tracked: set<Path>, committed: bool, later: bool, ghost want: Layout)
    returns (outcome: Outcome)
    requires WellFormed(disk.tree) && Inside(b, repo)
    modifies disk
    ensures !outcome.Failed? ==> Keeps(old(disk.tree), disk.tree)
    ensures !outcome.Failed? ==> forall m :: m in b.files ==> m.0 in disk.tree || m.0 in tracked
    ensures !outcome.Failed? && b.withSkill ==> Merged(disk.tree, b.tree, b.skills, tracked)
    ensures !outcome.Failed? ==>
              forall q :: q in disk.tree && q !in old(disk.tree) ==> Wanted(b, tracked, q, disk.tree[q])
    ensures outcome.Failed? && repo in old(disk.tree) ==>
              && (disk.tree == old(disk.tree) <==> outcome.partial.None?)
              && (outcome.partial.Some? ==> LeftBehind(old(disk.tree), disk.tree, outcome.partial.value))
    ensures outcome.Failed? && repo !in old(disk.tree) ==>
              && ParentsLeft(old(disk.tree), disk.tree, repo)
              && (Parent(repo) in old(disk.tree) ==> disk.tree == old(disk.tree))
              && (outcome.madeRoot && Parent(repo) !in old(disk.tree) ==>
                    forall q :: q in disk.tree <==> q in old(disk.tree) || q < repo)
    // Without faults and with nothing in the way, only what follows the merge decides.
    ensures disk.sound && Holds(b, repo, want) && Fits(old(disk.tree), want) ==>
              outcome == if later then Adopted else if committed then Published
                         else Failed(repo !in old(disk.tree), None)
    ensures !later && !committed ==> outcome.Failed?
  {
    hide WellFormed, Merged, MergedNode, LeftBehind, Tracks, Wanted, Holds, Fits, DirsTo, Consistent;
    ghost var before := disk.tree;
    ghost var goes := disk.sound && Holds(b, repo, want) && Fits(disk.tree, want);
    if goes {
      HoldsWay(disk.tree, b, repo, want);
    }
    var madeRoot := repo !in disk.tree;
    if madeRoot {
      var made := MakeRoot(disk, repo);
      if !made {
        RootNotMade(before, disk.tree, repo);
        return Failed(false, None);
      }
    }
    ghost var start := disk.tree;
    if goes {
      RootFits(before, start, b, repo, want);
    }
    var log, ok := BootstrapMissing(disk, b, tracked, want, repo);
    TracksKeeps(start, disk.tree, log);
    if ok && (later || committed) {
      forall q | q in start && q !in before ensures Wanted(b, tracked, q, start[q]) {
        WayIsWanted(b, tracked, repo, q, start[q]);
      }
      return if later then Adopted else Published;
    }
    outcome := Failed(madeRoot, log.partial);
    if madeRoot {
      ghost var full := disk.tree;
      disk.RemoveTree(repo);
      RootRemoved(before, start, full, disk.tree, repo);
    } else {
      CleanupCreated(disk, log, before);
    }
  }

  /**
   A copy that fails after creating its file, in a directory made for it, is
   not undone: no list names the file, and its directory is then not empty.
   */
  lemma PartialCopyStays(before: Tree, d: Path, f: Path)
    requires WellFormed(before) && d !in before && d != [] && Parent(d) in before && before[Parent(d)] == Dir
    requires |f| == |d| + 1 && Parent(f) == d && f !in before
    ensures var now := before[d := Dir][f := File(0, false)];
            && Tracks(before, now, Log([], [d], Some(f)))
            && !Empty(now, d) && now != before
  {
    hide WellFormed, Grown;
    var made := before[d := Dir];
    GrownStart(before);
    GrownDir(before, before, [], [], d);
    GrownWellFormed(before, d, Dir);
    assert [] + [d] == [d];
    TracksFile(before, made, Log([], [d], None), f, File(0, false));
    assert f in made[f := File(0, false)];
  }
}
