/**
 The auto-commit script of commit_workspace_on_done (src/symphony/workspace.py): squash every commit
 since the recorded fork point, and whatever is uncommitted, into one commit.
 */
module Snapshot {
  import opened Prelude
  import opened CommitGraph

  datatype Outcome =
    | Committed
    | NothingToCommit
    | Failed(code: nat)
    | Killed

  const EXIT_INIT: nat := 41
  const EXIT_ADD: nat := 42
  const EXIT_COMMIT: nat := 43
  const EXIT_RESET: nat := 44
  const EXIT_REFUSED: nat := 45

  const MAX_DELETIONS: nat := 25
  const PROTECTED: set<Path> :=
    {["pyproject.toml"], ["WORKFLOW.md"], ["WORKFLOW.example.md"], ["WORKFLOW.file.example.md"]}

  function TreeOf(g: Graph, head: Option<Id>): Tree {
    if head.Some? && head.value in g then g[head.value].tree else map[]
  }

  function Get(t: Tree, p: Path): Option<nat> {
    if p in t then Some(t[p]) else None
  }

  /** A pathspec names a file or a whole directory. */
  predicate Excluded(p: Path, excludes: seq<Path>) {
    exists i :: 0 <= i < |excludes| && excludes[i] <= p
  }

  /** git add -A: tracked files follow the work tree, new files are taken unless ignored. */
  function AddAll(index: Tree, files: Tree, ignored: set<Path>): Tree {
    map p | p in files && (p in index || p !in ignored) :: files[p]
  }

  /** git reset HEAD -- spec, or git rm --cached when there is no HEAD. */
  function Unstage(index: Tree, head: Tree, spec: Path): Tree {
    map p | p in index.Keys + head.Keys && (if spec <= p then p in head else p in index)
      :: if spec <= p then head[p] else index[p]
  }

  function UnstageAll(index: Tree, head: Tree, excludes: seq<Path>): Tree {
    if excludes == [] then index
    else Unstage(UnstageAll(index, head, excludes[..|excludes| - 1]), head, excludes[|excludes| - 1])
  }

  lemma ExcludedSnoc(p: Path, excludes: seq<Path>, last: Path)
    ensures Excluded(p, excludes + [last]) <==> Excluded(p, excludes) || last <= p
  {
    var all := excludes + [last];
    assert all[|excludes|] == last;
    if Excluded(p, excludes) {
      var i :| 0 <= i < |excludes| && excludes[i] <= p;
      assert all[i] <= p;
    }
  }

  lemma {:induction false} UnstagedPath(index: Tree, head: Tree, excludes: seq<Path>, p: Path)
    ensures Get(UnstageAll(index, head, excludes), p)
         == if Excluded(p, excludes) then Get(head, p) else Get(index, p)
  {
    if excludes != [] {
      var n := |excludes| - 1;
      UnstagedPath(index, head, excludes[..n], p);
      assert excludes == excludes[..n] + [excludes[n]];
      ExcludedSnoc(p, excludes[..n], excludes[n]);
    }
  }

  function Deleted(head: Tree, index: Tree): set<Path> {
    head.Keys - index.Keys
  }

  function Added(head: Tree, index: Tree): set<Path> {
    index.Keys - head.Keys
  }

  /** How git pairs deleted files with added ones; a paired file is listed as renamed, not deleted. */
  ghost predicate RenamePairs(pairs: map<Path, Path>, deleted: set<Path>, added: set<Path>) {
    && pairs.Keys <= deleted && pairs.Values <= added
    && forall p, q :: p in pairs && q in pairs && pairs[p] == pairs[q] ==> p == q
  }

  lemma {:induction false} RenamesAreFew(pairs: map<Path, Path>, deleted: set<Path>, added: set<Path>)
    requires RenamePairs(pairs, deleted, added)
    ensures |pairs.Keys| <= |added|
    decreases |pairs.Keys|
  {
    if p :| p in pairs {
      var rest := pairs - {p};
      assert rest.Keys == pairs.Keys - {p};
      assert pairs[p] in pairs.Values;
      forall q | q in rest.Values ensures q in added - {pairs[p]} {
        var k :| k in rest && rest[k] == q;
        assert k in pairs && pairs[k] == q;
        assert pairs[k] in pairs.Values;
      }
      RenamesAreFew(rest, deleted, added - {pairs[p]});
    }
  }

  /** Any number of deletions can be paired, as long as there are as many added files. */
  lemma {:induction false} PairingOf(deleted: set<Path>, added: set<Path>, n: nat) returns (pairs: map<Path, Path>)
    requires n <= |deleted| && n <= |added|
    ensures RenamePairs(pairs, deleted, added) && |pairs.Keys| == n
  {
    if n == 0 {
      pairs := map[];
    } else {
      var d: Path :| d in deleted;
      var a: Path :| a in added;
      var rest := PairingOf(deleted - {d}, added - {a}, n - 1);
      pairs := rest[d := a];
      assert pairs.Keys == rest.Keys + {d};
      forall q | q in pairs.Values ensures q in added {
        var k :| k in pairs && pairs[k] == q;
        assert k != d ==> rest[k] in rest.Values;
      }
      forall p, q | p in pairs && q in pairs && pairs[p] == pairs[q] ensures p == q {
        assert p != d ==> rest[p] in rest.Values;
        assert q != d ==> rest[q] in rest.Values;
      }
    }
  }

  /**
   The count guard sees deletions after rename pairing: some pairing lets a set of deletions through
   exactly when there are at most 25 more of them than added files.
   */
  lemma DeletionsPassIff(deleted: set<Path>, added: set<Path>)
    ensures (exists pairs :: RenamePairs(pairs, deleted, added) && |deleted - pairs.Keys| <= MAX_DELETIONS)
       <==> |deleted| <= MAX_DELETIONS + |added|
  {
    if pairs :| RenamePairs(pairs, deleted, added) && |deleted - pairs.Keys| <= MAX_DELETIONS {
      RenamesAreFew(pairs, deleted, added);
      assert deleted == (deleted - pairs.Keys) + pairs.Keys;
    }
    if |deleted| <= MAX_DELETIONS + |added| {
      var n := if |deleted| <= |added| then |deleted| else |added|;
      var pairs := PairingOf(deleted, added, n);
      assert deleted == (deleted - pairs.Keys) + pairs.Keys;
      assert |deleted - pairs.Keys| <= MAX_DELETIONS;
    }
  }

  /**
   The protected-file guard sees the protected paths only: some pairing lets protected files be
   deleted exactly when at least as many protected files are added.
   */
  lemma ProtectedDeletionPassesIff(deleted: set<Path>, added: set<Path>)
    ensures (exists pairs :: RenamePairs(pairs, deleted, added) && deleted <= pairs.Keys && deleted != {})
       <==> 0 < |deleted| <= |added|
  {
    if pairs :| RenamePairs(pairs, deleted, added) && deleted <= pairs.Keys && deleted != {} {
      RenamesAreFew(pairs, deleted, added);
      assert pairs.Keys == deleted;
    }
    if 0 < |deleted| <= |added| {
      var pairs := PairingOf(deleted, added, |deleted|);
      SubsetOfSameSize(pairs.Keys, deleted);
      assert deleted <= pairs.Keys;
    }
  }

  lemma SubsetOfSameSize(a: set<Path>, b: set<Path>)
    requires a <= b && |a| == |b|
    ensures a == b
  {
    assert b == a + (b - a);
  }

  /** tree holds every file git may record, with excluded paths as in below. */
  ghost predicate Captures(tree: Tree, below: Tree, files: Tree, ignored: set<Path>, excludes: seq<Path>) {
    forall p :: Captured(p, tree, below, files, ignored, excludes)
  }

  ghost predicate Captured(p: Path, tree: Tree, below: Tree, files: Tree, ignored: set<Path>, excludes: seq<Path>) {
    if Excluded(p, excludes) then Get(tree, p) == Get(below, p)
    else if p in ignored then p in tree ==> Get(tree, p) == Get(files, p)
    else Get(tree, p) == Get(files, p)
  }

  // ---------------------------------------------------------------------------------------------
  // The fork point
  // ---------------------------------------------------------------------------------------------

  /** BASE after the already-merged check, from git's answers to merge-base and --is-ancestor. */
  function EffectiveBase(base: Option<Id>, mergeBase: Option<Id>, baseReachesMergeBase: bool): Option<Id> {
    if base.Some? && mergeBase.Some? && mergeBase != base && baseReachesMergeBase then mergeBase else base
  }

  /** What git answers: a best common ancestor of HEAD and the target whenever they share history. */
  ghost predicate TruthfulAnswers(g: Graph, base: Option<Id>, head: Option<Id>, target: Option<Id>,
                                  mergeBase: Option<Id>, baseReachesMergeBase: bool) {
    && (mergeBase.Some? ==>
          head.Some? && target.Some? && IsMergeBase(g, mergeBase.value, head.value, target.value))
    && (mergeBase.None? && head.Some? && target.Some? ==>
          forall c :: !(Ancestor(g, c, head.value) && Ancestor(g, c, target.value)))
    && (base.Some? && mergeBase.Some? ==>
          (baseReachesMergeBase <==> Ancestor(g, base.value, mergeBase.value)))
  }

  /**
   A branch already inside the target is left where it is exactly when the recorded fork point is
   one of its ancestors: only then does BASE come to rest on HEAD itself.
   */
  lemma MergedBranchKeptIff(g: Graph, base: Id, head: Id, target: Id,
                            mergeBase: Option<Id>, baseReachesMergeBase: bool)
    requires Ancestor(g, head, target)
    requires TruthfulAnswers(g, Some(base), Some(head), Some(target), mergeBase, baseReachesMergeBase)
    ensures EffectiveBase(Some(base), mergeBase, baseReachesMergeBase) == Some(head) <==> Ancestor(g, base, head)
  {
    AncestorInGraph(g, head, target);
    AncestorSelf(g, head);
    assert mergeBase.Some?;
    MergeBaseInside(g, mergeBase.value, head, target);
  }

  /** The squash starts from the merge base with the target when the recorded base leads to it, else from that base. */
  lemma EffectiveBaseIs(g: Graph, base: Option<Id>, head: Option<Id>, target: Option<Id>,
                        mergeBase: Option<Id>, baseReachesMergeBase: bool)
    requires TruthfulAnswers(g, base, head, target, mergeBase, baseReachesMergeBase)
    ensures EffectiveBase(base, mergeBase, baseReachesMergeBase)
         == if base.Some? && mergeBase.Some? && Ancestor(g, base.value, mergeBase.value) then mergeBase else base
  {
    hide Ancestor, IsMergeBase;
  }

  /** The merge base is below HEAD and below the commit the squash starts from. */
  lemma MergeBaseBelowFork(g: Graph, base: Id, head: Id, target: Id, mb: Id)
    requires Ancestor(g, base, mb)
    requires TruthfulAnswers(g, Some(base), Some(head), Some(target), Some(mb), true)
    ensures EffectiveBase(Some(base), Some(mb), true) == Some(mb)
    ensures Ancestor(g, mb, mb) && Ancestor(g, mb, head)
  {
    AncestorInGraph(g, base, mb);
    AncestorSelf(g, mb);
  }

  // ---------------------------------------------------------------------------------------------
  // The script as a whole
  // ---------------------------------------------------------------------------------------------

  /** The commands whose failure ends the script; TakeOut is the one for an excluded path. */
  datatype Command = InitRepo | SoftReset | IndexReset | StageFiles | TakeOut(spec: nat) | MakeCommit

  /** What goes wrong: a command fails, or the timeout kills the script before a command or at its end. */
  datatype Trouble = Smooth | Fails(at: Command) | KilledBefore(at: Command) | KilledAtEnd

  predicate Strikes(trouble: Trouble, c: Command) {
    (trouble.Fails? || trouble.KilledBefore?) && trouble.at == c
  }

  function ExitOf(c: Command): nat {
    match c
    case InitRepo => EXIT_INIT
    case SoftReset => EXIT_RESET
    case IndexReset => EXIT_RESET
    case StageFiles => EXIT_ADD
    case TakeOut(_) => EXIT_ADD
    case MakeCommit => EXIT_COMMIT
  }

  function Ending(trouble: Trouble, c: Command): Outcome {
    if trouble == KilledBefore(c) then Killed else Failed(ExitOf(c))
  }

  /** What the script finds, what it is told, and what goes wrong. */
  datatype Situation = Situation(
    initialised: bool, graph: Graph, head: Option<Id>, index: Tree, files: Tree, ignored: set<Path>,
    start: Option<Id>, baseParses: bool, excludes: seq<Path>, pairing: Pairing, trouble: Trouble)

  /** The branch is to be moved to the fork point first. */
  predicate Squashes(s: Situation) { s.start.Some? && s.baseParses && s.head != s.start }

  /** The tree the snapshot is compared with and committed on. */
  function Below(s: Situation): Tree { TreeOf(s.graph, if Squashes(s) then s.start else s.head) }

  function Staged(s: Situation): Tree {
    AddAll(if Squashes(s) then Below(s) else s.index, s.files, s.ignored)
  }

  function Wanted(s: Situation): Tree { UnstageAll(Staged(s), Below(s), s.excludes) }

  /** The commands a script without trouble comes to. */
  predicate Runs(s: Situation, c: Command) {
    match c
    case InitRepo => !s.initialised
    case SoftReset => Squashes(s)
    case IndexReset => Squashes(s)
    case StageFiles => true
    case TakeOut(k) => k < |s.excludes| && Staged(s) != Below(s)
    case MakeCommit => Wanted(s) != Below(s) && GuardPassed(Below(s), Wanted(s), s.pairing)
  }

  /** The fork point parses as a name but names no commit. */
  predicate StartMissing(s: Situation) { Squashes(s) && s.start.value !in s.graph }

  /** The command at which the script ends early. */
  function StopsAt(s: Situation): Option<Command> {
    if StartMissing(s) then Some(if !s.initialised && Strikes(s.trouble, InitRepo) then InitRepo else SoftReset)
    else if (s.trouble.Fails? || s.trouble.KilledBefore?) && Runs(s, s.trouble.at) then Some(s.trouble.at)
    else None
  }

  function EndOf(s: Situation): Outcome {
    if StopsAt(s).Some? then Ending(s.trouble, StopsAt(s).value)
    else if Wanted(s) == Below(s) then NothingToCommit
    else if !GuardPassed(Below(s), Wanted(s), s.pairing) then Failed(EXIT_REFUSED)
    else if s.trouble == KilledAtEnd then Killed else Committed
  }

  /** How the second half ends: staging, taking excluded paths out, the guard, the commit. */
  function EndOfRecording(
      below: Tree, staged: Tree, wanted: Tree, excludes: seq<Path>, pairing: Pairing, trouble: Trouble): Outcome
  {
    if Strikes(trouble, StageFiles) then Ending(trouble, StageFiles)
    else if staged != below && exists k :: 0 <= k < |excludes| && Strikes(trouble, TakeOut(k))
    then Ending(trouble, trouble.at)
    else if wanted == below then NothingToCommit
    else if !GuardPassed(below, wanted, pairing) then Failed(EXIT_REFUSED)
    else if Strikes(trouble, MakeCommit) then Ending(trouble, MakeCommit)
    else if trouble == KilledAtEnd then Killed else Committed
  }

  /** A script that gets past the fork point ends as its second half does. */
  lemma RecordedEnds(s: Situation)
    ensures !StartMissing(s) && StopsAt(s) !in {Some(InitRepo), Some(SoftReset), Some(IndexReset)} ==>
              && EndOf(s) == EndOfRecording(Below(s), Staged(s), Wanted(s), s.excludes, s.pairing, s.trouble)
              && (Records(s) <==> EndOf(s).Committed? || (EndOf(s).Killed? && s.trouble == KilledAtEnd))
  {
    hide GuardPassed, Wanted, Staged, Below;
    WantedIs(s);
  }

  function ForkOf(s: Situation): Option<Id> {
    if Squashes(s) && StopsAt(s) != Some(InitRepo) && StopsAt(s) != Some(SoftReset) then s.start else s.head
  }

  predicate Records(s: Situation) { StopsAt(s).None? && Runs(s, MakeCommit) }

  function Parents(fork: Option<Id>): seq<Id> { if fork.Some? then [fork.value] else [] }

  /** What the snapshot is to hold at a path. */
  function Snapshotted(s: Situation, p: Path): Option<nat> {
    var tracked := if Squashes(s) then Below(s) else s.index;
    if Excluded(p, s.excludes) then Get(Below(s), p)
    else if p in s.files && (p in tracked || p !in s.ignored) then Some(s.files[p]) else None
  }

  lemma WantedIs(s: Situation)
    ensures forall p :: Get(Wanted(s), p) == Snapshotted(s, p)
    ensures Staged(s) == Below(s) ==> Wanted(s) == Below(s)
  {
    hide UnstageAll, Excluded, Squashes, Below;
    forall p ensures Get(Wanted(s), p) == Snapshotted(s, p) {
      UnstagedPath(Staged(s), Below(s), s.excludes, p);
    }
    if Staged(s) == Below(s) {
      UnstagingHead(Below(s), s.excludes);
    }
  }

  lemma UnstagingHead(head: Tree, excludes: seq<Path>)
    ensures UnstageAll(head, head, excludes) == head
  {
    hide UnstageAll, Excluded;
    forall p ensures Get(UnstageAll(head, head, excludes), p) == Get(head, p) {
      UnstagedPath(head, head, excludes, p);
    }
    SameEverywhere(UnstageAll(head, head, excludes), head);
  }

  lemma SameEverywhere(a: Tree, b: Tree)
    requires forall p :: Get(a, p) == Get(b, p)
    ensures a == b
  {
    assert forall p :: p in a ==> Get(a, p) == Get(b, p);
    assert forall p :: p in b ==> Get(a, p) == Get(b, p);
  }

  lemma WantedCaptures(s: Situation)
    ensures Captures(Wanted(s), Below(s), s.files, s.ignored, s.excludes)
  {
    hide Wanted, Below, Squashes, Excluded;
    WantedIs(s);
    forall p ensures Captured(p, Wanted(s), Below(s), s.files, s.ignored, s.excludes) {
      assert Get(Wanted(s), p) == Snapshotted(s, p);
    }
  }

  /**
   Nothing is committed exactly when the tree below holds at every path what the snapshot is to hold;
   a script without trouble otherwise commits that, unless the guard refuses it.
   */
  lemma SmoothRun(s: Situation)
    requires s.trouble == Smooth && (s.start.Some? && s.baseParses ==> s.start.value in s.graph)
    ensures EndOf(s) == NothingToCommit <==> forall p :: Get(Below(s), p) == Snapshotted(s, p)
    ensures EndOf(s) == Failed(45) <==> Wanted(s) != Below(s) && !GuardPassed(Below(s), Wanted(s), s.pairing)
    ensures EndOf(s) in {Committed, NothingToCommit, Failed(45)}
    ensures Records(s) <==> EndOf(s) == Committed
    ensures ForkOf(s) == if s.start.Some? && s.baseParses then s.start else s.head
  {
    hide Wanted, Below, GuardPassed, Snapshotted;
    WantedIs(s);
    if forall p :: Get(Below(s), p) == Snapshotted(s, p) {
      SameEverywhere(Wanted(s), Below(s));
    }
  }

  /**
   What each way to end tells, over every situation: 41, git init failed where there was no repository;
   44, a reset failed or the fork point is no commit; 42, staging or taking an excluded path out failed;
   43, git refused a commit the guard had let through; killed, the timeout struck at a point reached.
   */
  lemma EndsIff(s: Situation)
    ensures EndOf(s) == Failed(41) <==> !s.initialised && s.trouble == Fails(InitRepo)
    ensures EndOf(s) == Failed(44)
       <==> && Squashes(s) && (!s.initialised ==> !Strikes(s.trouble, InitRepo))
            && (s.start.value in s.graph ==> s.trouble == Fails(SoftReset) || s.trouble == Fails(IndexReset))
            && s.trouble != KilledBefore(SoftReset)
    ensures EndOf(s) == Failed(42)
       <==> && !StartMissing(s)
            && (|| s.trouble == Fails(StageFiles)
                || (Staged(s) != Below(s) && exists k :: 0 <= k < |s.excludes| && s.trouble == Fails(TakeOut(k))))
    ensures EndOf(s) == Failed(43) <==> !StartMissing(s) && s.trouble == Fails(MakeCommit) && Runs(s, MakeCommit)
    ensures EndOf(s) == Killed
       <==> || (s.trouble.KilledBefore? && Runs(s, s.trouble.at)
                && (StartMissing(s) ==> s.trouble.at == InitRepo || s.trouble.at == SoftReset))
            || (s.trouble == KilledAtEnd && !StartMissing(s) && Runs(s, MakeCommit))
    ensures EndOf(s).Failed? ==> EndOf(s).code in {41, 42, 43, 44, 45}
  {
    hide Wanted, Below, Staged, GuardPassed;
  }

  /**
   A durable outcome has squashed every commit since the fork point and holds the workspace; a commit
   went past the guard.
   */
  lemma ScriptMeans(s: Situation, name: Id, g: Graph, head: Option<Id>)
    requires name !in s.graph && (s.start.Some? && s.start.value in s.graph ==> s.baseParses)
    requires Closed(s.graph) && (s.head.Some? ==> s.head.value in s.graph)
    requires if Records(s) then head == Some(name) && g == s.graph[name := Commit(Parents(ForkOf(s)), Wanted(s))]
             else head == ForkOf(s) && g == s.graph
    ensures var outcome, fork := EndOf(s), ForkOf(s);
            && Extends(s.graph, g)
            && (fork == s.head || (s.start.Some? && fork == s.start))
            && (!s.baseParses ==> fork == s.head)
            && (fork.Some? ==> fork.value in s.graph)
            && (if g == s.graph then head == fork && !outcome.Committed?
                else
                  && OneCommitAbove(g, fork, head) && g.Keys == s.graph.Keys + {name} && head == Some(name)
                  && (outcome.Committed? || outcome.Killed?))
            && (outcome.Committed? || outcome.NothingToCommit? ==>
                  && (s.start.Some? && s.baseParses ==> fork == s.start)
                  && Captures(TreeOf(g, head), TreeOf(s.graph, fork), s.files, s.ignored, s.excludes))
            && (g != s.graph ==> GuardPassed(TreeOf(s.graph, fork), TreeOf(g, head), s.pairing))
  {
    hide GuardPassed, Captures, Wanted, Staged, Closed;
    WantedCaptures(s);
  }

  // ---------------------------------------------------------------------------------------------
  // The repository
  // ---------------------------------------------------------------------------------------------

  /** head is a commit made on top of fork, or a first commit when there was none. */
  predicate OneCommitAbove(g: Graph, fork: Option<Id>, head: Option<Id>) {
    head.Some? && head.value in g && g[head.value].parents == if fork.Some? then [fork.value] else []
  }

  /** A ticket worktree checked out at its root. The files on disk are never written by the script. */
  class Repository {
    const files: Tree
    const ignored: set<Path>
    var initialised: bool
    var graph: Graph
    var head: Option<Id>
    var index: Tree

    ghost predicate Valid()
      reads this
    {
      && Closed(graph)
      && (head.Some? ==> head.value in graph)
      && (!initialised ==> graph == map[] && head.None? && index == map[])
    }

    function HeadTree(): Tree
      reads this
    {
      TreeOf(graph, head)
    }

    constructor (files: Tree, ignored: set<Path>)
      ensures Valid() && !initialised
      ensures this.files == files && this.ignored == ignored
    {
      this.files, this.ignored := files, ignored;
      initialised, graph, head, index := false, map[], None, map[];
    }

    ghost function Found(start: Option<Id>, baseParses: bool, excludes: seq<Path>, pairing: Pairing, trouble: Trouble)
      : Situation
      reads this
    {
      Situation(initialised, graph, head, index, files, ignored, start, baseParses, excludes, pairing, trouble)
    }

    /** git reset --soft base, then git reset base -- . ; a command that fails changes nothing. */
    method ResetTo(base: Id, trouble: Trouble) returns (stopped: Option<Command>)
      requires Valid() && initialised
      modifies this`head, this`index
      ensures Valid()
      ensures stopped == if Strikes(trouble, SoftReset) || base !in graph then Some(SoftReset)
                         else if Strikes(trouble, IndexReset) then Some(IndexReset) else None
      ensures head == if stopped == Some(SoftReset) then old(head) else Some(base)
      ensures index == if stopped.None? then graph[base].tree else old(index)
    {
      if Strikes(trouble, SoftReset) || base !in graph {
        return Some(SoftReset);
      }
      head := Some(base);
      if Strikes(trouble, IndexReset) {
        return Some(IndexReset);
      }
      index := graph[base].tree;
      return None;
    }

    /** The loop that takes excluded paths back out of the index. */
    method UnstageExcluded(excludes: seq<Path>, trouble: Trouble) returns (stopped: Option<Command>)
      requires Valid() && initialised
      modifies this`index
      ensures Valid()
      ensures stopped == if exists k :: 0 <= k < |excludes| && Strikes(trouble, TakeOut(k)) then Some(trouble.at)
                         else None
      ensures stopped.None? ==> index == UnstageAll(old(index), HeadTree(), excludes)
      ensures stopped.Some? ==> index == UnstageAll(old(index), HeadTree(), excludes[..trouble.at.spec])
    {
      var staged := index;
      for i := 0 to |excludes|
        invariant Valid()
        invariant forall k :: 0 <= k < i ==> !Strikes(trouble, TakeOut(k))
        invariant index == UnstageAll(staged, HeadTree(), excludes[..i])
      {
        if Strikes(trouble, TakeOut(i)) {
          return Some(TakeOut(i));
        }
        assert excludes[..i + 1][..i] == excludes[..i];
        index := Unstage(index, HeadTree(), excludes[i]);
      }
      assert excludes[..|excludes|] == excludes;
      return None;
    }

    /** git commit of the index; git names the new commit. */
    method CommitIndex(name: Id)
      requires Valid() && initialised && name !in graph
      modifies this`graph, this`head
      ensures Valid() && Extends(old(graph), graph)
      ensures head == Some(name) && graph == old(graph)[name := Commit(Parents(old(head)), index)]
    {
      graph := graph[name := Commit(if head.Some? then [head.value] else [], index)];
      head := Some(name);
    }

    /** Everything up to the first reset: move the branch back to the fork point. */
    method SquashToFork(start: Option<Id>, baseParses: bool, trouble: Trouble) returns (stopped: Option<Command>)
      requires Valid() && initialised
      modifies this`head, this`index
      ensures Valid()
      ensures var moves := start.Some? && baseParses && old(head) != start;
              && stopped == (if !moves then None
                             else if Strikes(trouble, SoftReset) || start.value !in graph then Some(SoftReset)
                             else if Strikes(trouble, IndexReset) then Some(IndexReset) else None)
              && head == (if moves && stopped != Some(SoftReset) then start else old(head))
              && index == (if moves && stopped.None? then HeadTree() else old(index))
    {
      stopped := None;
      if start.Some? && baseParses && head != start {
        stopped := ResetTo(start.value, trouble);
      }
    }

    /** Stage the workspace; ready is false when nothing differs from HEAD. */
    method StageWorkspace(excludes: seq<Path>, trouble: Trouble) returns (stopped: Option<Command>, ready: bool)
      requires Valid() && initialised
      modifies this`index
      ensures Valid()
      ensures var staged := AddAll(old(index), files, ignored);
              && stopped == (if Strikes(trouble, StageFiles) then Some(StageFiles)
                             else if && staged != HeadTree()
                                     && exists k :: 0 <= k < |excludes| && Strikes(trouble, TakeOut(k))
                             then Some(trouble.at) else None)
              && (stopped.None? ==>
                    && index == UnstageAll(staged, HeadTree(), excludes)
                    && (ready <==> index != HeadTree()))
    {
      ready := false;
      if Strikes(trouble, StageFiles) {
        return Some(StageFiles), ready;
      }
      index := AddAll(index, files, ignored);
      if index == HeadTree() {
        UnstagingHead(HeadTree(), excludes);
        return None, ready;
      }
      stopped := UnstageExcluded(excludes, trouble);
      if stopped.None? {
        ready := index != HeadTree();
      }
    }

    /** From the staging to the commit. */
    method RecordWorkspace(excludes: seq<Path>, pairing: Pairing, trouble: Trouble, name: Id)
      returns (outcome: Outcome)
      requires Valid() && initialised && name !in graph
      modifies this`graph, this`head, this`index
      ensures Valid()
      ensures var below, staged := old(HeadTree()), AddAll(old(index), files, ignored);
              var wanted := UnstageAll(staged, below, excludes);
              && outcome == EndOfRecording(below, staged, wanted, excludes, pairing, trouble)
              && (if outcome.Committed? || (outcome.Killed? && trouble == KilledAtEnd) then
                    head == Some(name) && graph == old(graph)[name := Commit(Parents(old(head)), wanted)]
                  else head == old(head) && graph == old(graph))
    {
      hide GuardPassed, UnstageAll, AddAll, Closed;
      var stopped, ready := StageWorkspace(excludes, trouble);
      if stopped.Some? {
        return Ending(trouble, stopped.value);
      }
      if !ready {
        return NothingToCommit;
      }
      if !GuardPassed(HeadTree(), index, pairing) {
        return Failed(EXIT_REFUSED);
      }
      if Strikes(trouble, MakeCommit) {
        return Ending(trouble, MakeCommit);
      }
      CommitIndex(name);
      outcome := if trouble == KilledAtEnd then Killed else Committed;
    }

    /**
     The script up to its end, or until its timeout kills it between two commands. baseParses is git's
     answer to rev-parse; trouble says which command fails or is not come to; fork is where the branch
     stood before the commit was made.
     */
    method RunScript(
        start: Option<Id>, baseParses: bool, excludes: seq<Path>, pairing: Pairing, trouble: Trouble, name: Id)
      returns (outcome: Outcome, fork: Option<Id>)
      requires Valid() && name !in graph
      modifies this
      // The way it ends, where the branch is, and what was committed.
      ensures var s := old(Found(start, baseParses, excludes, pairing, trouble));
              && outcome == EndOf(s) && fork == ForkOf(s)
              && (if Records(s) then
                    head == Some(name) && graph == old(graph)[name := Commit(Parents(fork), Wanted(s))]
                  else head == fork && graph == old(graph))
      ensures Valid()
    {
      hide GuardPassed, UnstageAll, AddAll, Closed, EndOfRecording;
      ghost var s := Found(start, baseParses, excludes, pairing, trouble);
      fork := head;
      if !initialised {
        if Strikes(trouble, InitRepo) {
          return Ending(trouble, InitRepo), fork;
        }
        initialised := true;
      }
      var stopped := SquashToFork(start, baseParses, trouble);
      fork := head;
      if stopped.Some? {
        return Ending(trouble, stopped.value), fork;
      }
      outcome := RecordWorkspace(excludes, pairing, trouble, name);
      RecordedEnds(s);
    }

    /**
     The snapshot. base and target are what the git configuration records (target already resolved to
     a commit); mergeBase, baseReachesMergeBase and baseParses are git's answers to queries, pairing
     its way of telling renames from deletions, trouble what goes wrong.
     */
    method CommitOnDone(base: Option<Id>, target: Option<Id>, excludes: seq<Path>,
                        mergeBase: Option<Id>, baseReachesMergeBase: bool, baseParses: bool,
                        pairing: Pairing, trouble: Trouble, name: Id)
      returns (outcome: Outcome, fork: Option<Id>)
      requires Valid() && name !in graph && Truthful(pairing)
      requires TruthfulAnswers(graph, base, head, target, mergeBase, baseReachesMergeBase)
      requires var start := EffectiveBase(base, mergeBase, baseReachesMergeBase);
               start.Some? && start.value in graph ==> baseParses
      modifies this
      ensures Valid() && Extends(old(graph), graph)
      // The script's end, from the recorded base, or the merge base when the base is one of its ancestors.
      ensures var start := if base.Some? && mergeBase.Some? && Ancestor(old(graph), base.value, mergeBase.value)
                           then mergeBase else base;
              var s := old(Found(start, baseParses, excludes, pairing, trouble));
              && outcome == EndOf(s) && fork == ForkOf(s)
              && (if Records(s) then
                    head == Some(name) && graph == old(graph)[name := Commit(Parents(fork), Wanted(s))]
                  else head == fork && graph == old(graph))
      // The branch is afterwards where it was, at the fork point, or one commit above either.
      ensures fork == old(head) || (fork.Some? && fork == EffectiveBase(base, mergeBase, baseReachesMergeBase))
      ensures !baseParses ==> fork == old(head)
      ensures if graph == old(graph) then head == fork && !outcome.Committed?
              else
                && OneCommitAbove(graph, fork, head) && graph.Keys == old(graph).Keys + {name} && head == Some(name)
                && (outcome.Committed? || outcome.Killed?)
      // A durable outcome has squashed every commit since the fork point and holds the workspace.
      ensures outcome.Committed? || outcome.NothingToCommit? ==>
                && (base.Some? && baseParses ==> fork == EffectiveBase(base, mergeBase, baseReachesMergeBase))
                && Captures(HeadTree(), TreeOf(old(graph), fork), files, ignored, excludes)
      // A commit really deletes at most 25 files more than it adds, and protected ones only for protected ones.
      ensures var below := TreeOf(old(graph), fork);
              graph != old(graph) ==> GuardAdmits(below, HeadTree())
      // If the recorded base is an ancestor of the merge base with the target, that merge base survives.
      ensures base.Some? && mergeBase.Some? && Ancestor(old(graph), base.value, mergeBase.value) ==>
                head.Some? && Ancestor(graph, mergeBase.value, head.value)
      // A branch inside the target whose recorded base is one of its ancestors is never rewritten.
      ensures base.Some? && old(head).Some? && target.Some?
              && Ancestor(old(graph), old(head).value, target.value)
              && Ancestor(old(graph), base.value, old(head).value) ==>
                fork == old(head) && head.Some? && Ancestor(graph, old(head).value, head.value)
      // After a durable outcome it was kept if and only if the recorded base is one of its ancestors, and
      // the branch still contains it if and only if either is an ancestor of the other.
      ensures outcome.Committed? || outcome.NothingToCommit? ==>
                base.Some? && base.value in old(graph) && old(head).Some? && target.Some?
                && Ancestor(old(graph), old(head).value, target.value) ==>
                  && (fork == old(head) <==> Ancestor(old(graph), base.value, old(head).value))
                  && head.Some?
                  && (Ancestor(graph, old(head).value, head.value) <==>
                        || Ancestor(old(graph), base.value, old(head).value)
                        || Ancestor(old(graph), old(head).value, base.value))
    {
      hide GuardPassed, GuardAdmits, Captures, Closed, Ancestor, Truthful, TruthfulAnswers, EndOf, Records, Wanted,
        Below, ForkOf;
      ghost var g, before := graph, head;
      EffectiveBaseIs(g, base, before, target, mergeBase, baseReachesMergeBase);
      ghost var s := Found(EffectiveBase(base, mergeBase, baseReachesMergeBase), baseParses, excludes,
                           pairing, trouble);
      outcome, fork := RunScript(EffectiveBase(base, mergeBase, baseReachesMergeBase), baseParses, excludes,
                                 pairing, trouble, name);
      ScriptMeans(s, name, graph, head);
      if graph != g {
        GuardMeaning(TreeOf(g, fork), HeadTree(), pairing);
      }
      if base.Some? && mergeBase.Some? && Ancestor(g, base.value, mergeBase.value) {
        AnswersMean(g, base, before, target, mergeBase, baseReachesMergeBase);
        AboveEither(graph, fork, head);
        MergeBaseSurvives(g, graph, base.value, before.value, target.value, mergeBase.value, fork.value, head.value);
      }
      if base.Some? && before.Some? && target.Some? && Ancestor(g, before.value, target.value)
         && Ancestor(g, base.value, before.value)
      {
        AboveEither(graph, fork, head);
        MergedBranchNotRewritten(g, graph, base.value, before.value, target.value,
                                 mergeBase, baseReachesMergeBase, fork.value, head.value);
      }
      if (outcome.Committed? || outcome.NothingToCommit?)
         && base.Some? && base.value in g && before.Some? && target.Some? && Ancestor(g, before.value, target.value)
      {
        MergedBase(g, before.value, target.value, mergeBase, base.value, baseReachesMergeBase);
        AncestorInGraph(g, before.value, target.value);
        assert fork == EffectiveBase(base, mergeBase, baseReachesMergeBase);
        assert Snapped(g, graph, fork.value, head.value);
        MergedBranchFateIff(g, graph, base.value, before.value, target.value,
                            mergeBase, baseReachesMergeBase, fork.value, head.value);
      }
    }
  }

  // ---------------------------------------------------------------------------------------------
  // The deletion guard
  // ---------------------------------------------------------------------------------------------

  /** How git tells renames from deletions between two trees: over all paths, and over the protected ones. */
  datatype Pairing = Pairing(all: (Tree, Tree) -> map<Path, Path>, guarded: (Tree, Tree) -> map<Path, Path>)

  ghost predicate Truthful(pairing: Pairing) {
    forall a, b ::
      && RenamePairs(pairing.all(a, b), Deleted(a, b), Added(a, b))
      && RenamePairs(pairing.guarded(a, b), Deleted(a, b) * PROTECTED, Added(a, b) * PROTECTED)
  }

  /** What the script's two deletion checks let through. */
  predicate GuardPassed(below: Tree, tree: Tree, pairing: Pairing) {
    PassedWith(Deleted(below, tree), pairing.all(below, tree), pairing.guarded(below, tree))
  }

  predicate PassedWith(deleted: set<Path>, all: map<Path, Path>, guarded: map<Path, Path>) {
    |deleted - all.Keys| <= MAX_DELETIONS && deleted * PROTECTED <= guarded.Keys
  }

  /** A pairing git may report for these deleted and added files. */
  ghost predicate MayReport(deleted: set<Path>, added: set<Path>, all: map<Path, Path>, guarded: map<Path, Path>) {
    RenamePairs(all, deleted, added) && RenamePairs(guarded, deleted * PROTECTED, added * PROTECTED)
  }

  predicate GuardAdmits(below: Tree, tree: Tree) {
    && |Deleted(below, tree)| <= 25 + |Added(below, tree)|
    && |Deleted(below, tree) * PROTECTED| <= |Added(below, tree) * PROTECTED|
  }

  /** None of the four files the snapshot must not lose is lost. */
  predicate KeepsFour(below: Tree, tree: Tree) {
    && (["pyproject.toml"] in below ==> ["pyproject.toml"] in tree)
    && (["WORKFLOW.md"] in below ==> ["WORKFLOW.md"] in tree)
    && (["WORKFLOW.example.md"] in below ==> ["WORKFLOW.example.md"] in tree)
    && (["WORKFLOW.file.example.md"] in below ==> ["WORKFLOW.file.example.md"] in tree)
  }

  lemma ProtectedKept(below: Tree, tree: Tree)
    ensures Deleted(below, tree) * PROTECTED == {} ==> KeepsFour(below, tree)
  {
    forall p | p in PROTECTED && p in below && p !in tree ensures p in Deleted(below, tree) * PROTECTED {
    }
  }

  /**
   A snapshot that passes deletes at most 25 files more than it adds, and no more protected files than
   it adds; it deletes none of the protected files exactly when git paired none, and then each of the four
   that was there is still there.
   */
  lemma GuardMeaning(below: Tree, tree: Tree, pairing: Pairing)
    requires Truthful(pairing) && GuardPassed(below, tree, pairing)
    ensures GuardAdmits(below, tree)
    ensures Deleted(below, tree) * PROTECTED == {} <==> pairing.guarded(below, tree) == map[]
    ensures pairing.guarded(below, tree) == map[] ==> KeepsFour(below, tree)
  {
    ProtectedKept(below, tree);
    hide Deleted, Added, PROTECTED;
    var d, a := Deleted(below, tree), Added(below, tree);
    var guarded := pairing.guarded(below, tree);
    assert RenamePairs(pairing.all(below, tree), d, a) && RenamePairs(guarded, d * PROTECTED, a * PROTECTED);
    DeletionsPassIff(d, a);
    RenamesAreFew(guarded, d * PROTECTED, a * PROTECTED);
    assert guarded.Keys == d * PROTECTED;
    assert guarded.Keys == {} <==> guarded == map[];
  }

  /** Exactly which snapshots can pass, over every pairing git may report for them. */
  lemma GuardPassesIff(below: Tree, tree: Tree)
    ensures (exists all, guarded ::
               && MayReport(Deleted(below, tree), Added(below, tree), all, guarded)
               && PassedWith(Deleted(below, tree), all, guarded))
       <==> GuardAdmits(below, tree)
  {
    hide Deleted, Added, MayReport, PassedWith;
    var d, a := Deleted(below, tree), Added(below, tree);
    if all, guarded :| MayReport(d, a, all, guarded) && PassedWith(d, all, guarded) {
      PassedIsAdmitted(d, a, all, guarded);
    }
    if GuardAdmits(below, tree) {
      var all, guarded := AdmittedPasses(d, a);
    }
  }

  lemma PassedIsAdmitted(d: set<Path>, a: set<Path>, all: map<Path, Path>, guarded: map<Path, Path>)
    requires MayReport(d, a, all, guarded) && PassedWith(d, all, guarded)
    ensures |d| <= 25 + |a| && |d * PROTECTED| <= |a * PROTECTED|
  {
    hide RenamePairs;
    DeletionsPassIff(d, a);
    RenamesAreFew(guarded, d * PROTECTED, a * PROTECTED);
    assert guarded.Keys == d * PROTECTED by {
      PairedKeys(guarded, d * PROTECTED, a * PROTECTED);
    }
  }

  lemma PairedKeys(pairs: map<Path, Path>, deleted: set<Path>, added: set<Path>)
    requires RenamePairs(pairs, deleted, added)
    ensures pairs.Keys <= deleted
  {
  }

  lemma AdmittedPasses(d: set<Path>, a: set<Path>) returns (all: map<Path, Path>, guarded: map<Path, Path>)
    requires |d| <= 25 + |a| && |d * PROTECTED| <= |a * PROTECTED|
    ensures MayReport(d, a, all, guarded) && PassedWith(d, all, guarded)
  {
    hide RenamePairs;
    DeletionsPassIff(d, a);
    all :| RenamePairs(all, d, a) && |d - all.Keys| <= MAX_DELETIONS;
    guarded := PairingOf(d * PROTECTED, a * PROTECTED, |d * PROTECTED|);
    PairedKeys(guarded, d * PROTECTED, a * PROTECTED);
    SubsetOfSameSize(guarded.Keys, d * PROTECTED);
  }

  /** The numbered file of a directory. */
  function Numbered(dir: string, n: nat): Path {
    [dir, seq(n, _ => 'f')]
  }

  function Directory(dir: string, n: nat): Tree {
    map i: nat | 0 <= i < n :: Numbered(dir, i) := 1
  }

  lemma {:induction false} DirectorySize(dir: string, n: nat)
    ensures |Directory(dir, n)| == n
  {
    if n > 0 {
      DirectorySize(dir, n - 1);
      assert Directory(dir, n) == Directory(dir, n - 1)[Numbered(dir, n - 1) := 1];
      assert forall i: nat :: i < n - 1 ==> |Numbered(dir, i)[1]| != |Numbered(dir, n - 1)[1]|;
      assert Numbered(dir, n - 1) !in Directory(dir, n - 1);
    }
  }

  /** Moving a directory of any size is let through, although every old path of it is gone. */
  lemma ManyDeletionsPass(n: nat)
    ensures var below, tree := Directory("a", n), Directory("b", n);
            && |Deleted(below, tree)| == n && GuardAdmits(below, tree)
            && exists pairs :: RenamePairs(pairs, Deleted(below, tree), Added(below, tree))
                               && |Deleted(below, tree) - pairs.Keys| <= MAX_DELETIONS
  {
    var below, tree := Directory("a", n), Directory("b", n);
    DirectorySize("a", n);
    DirectorySize("b", n);
    assert "a" != "b";
    forall p | p in below ensures p !in tree && p !in PROTECTED {
      assert |p| == 2 && p[0] == "a";
    }
    forall p | p in tree ensures p !in below {
      assert p[0] == "b";
    }
    assert Deleted(below, tree) == below.Keys && Added(below, tree) == tree.Keys;
    assert Deleted(below, tree) * PROTECTED == {};
    DeletionsPassIff(Deleted(below, tree), Added(below, tree));
  }

  /** Renaming WORKFLOW.md to another protected name is let through although the file is gone. */
  lemma ProtectedRenamePasses()
    ensures var below: Tree := map[["WORKFLOW.md"] := 1];
            var tree: Tree := map[["WORKFLOW.example.md"] := 1];
            && ["WORKFLOW.md"] in Deleted(below, tree) * PROTECTED && GuardAdmits(below, tree)
  {
    var below: Tree := map[["WORKFLOW.md"] := 1];
    var tree: Tree := map[["WORKFLOW.example.md"] := 1];
    assert ["WORKFLOW.md"] != ["WORKFLOW.example.md"] by {
      assert |"WORKFLOW.md"| != |"WORKFLOW.example.md"|;
      assert ["WORKFLOW.md"][0] != ["WORKFLOW.example.md"][0];
    }
    assert Deleted(below, tree) == {["WORKFLOW.md"]};
    assert Added(below, tree) == {["WORKFLOW.example.md"]};
    assert Deleted(below, tree) * PROTECTED == {["WORKFLOW.md"]};
    assert Added(below, tree) * PROTECTED == {["WORKFLOW.example.md"]};
  }

  // ---------------------------------------------------------------------------------------------
  // What the script keeps, for every outcome
  // ---------------------------------------------------------------------------------------------

  /** The head after the script, as its contract describes it: at fork or one commit above it. */
  ghost predicate Above(g: Graph, fork: Id, head: Id) {
    head == fork || (head in g && g[head].parents == [fork])
  }

  lemma AboveEither(g: Graph, fork: Option<Id>, head: Option<Id>)
    requires fork.Some? && (head == fork || OneCommitAbove(g, fork, head))
    ensures head.Some? && Above(g, fork.value, head.value)
  {
  }

  lemma AboveForkKeeps(g: Graph, h: Graph, c: Id, fork: Id, head: Id)
    requires Extends(g, h) && Ancestor(g, c, fork) && Above(h, fork, head)
    ensures Ancestor(h, c, head)
  {
    AncestorExtends(g, h, c, fork);
    if head != fork {
      AncestorInGraph(h, c, fork);
      AncestorParent(h, fork, head);
      AncestorTransitive(h, c, fork, head);
    }
  }

  /**
   If the recorded fork point is an ancestor of the merge base of HEAD and the target, that merge base
   is an ancestor of HEAD after the script, whatever its outcome.
   */
  lemma MergeBaseSurvives(g: Graph, h: Graph, base: Id, head: Id, target: Id, mb: Id, fork: Id, newHead: Id)
    requires TruthfulAnswers(g, Some(base), Some(head), Some(target), Some(mb), true)
    requires fork == head || Some(fork) == EffectiveBase(Some(base), Some(mb), true)
    requires Extends(g, h) && Above(h, fork, newHead)
    ensures Ancestor(h, mb, newHead)
  {
    MergeBaseBelowFork(g, base, head, target, mb);
    AboveForkKeeps(g, h, mb, fork, newHead);
  }

  /** A branch inside the target whose recorded fork point is one of its ancestors is never rewritten. */
  lemma MergedBranchNotRewritten(g: Graph, h: Graph, base: Id, head: Id, target: Id,
                                 mergeBase: Option<Id>, reaches: bool, fork: Id, newHead: Id)
    requires Ancestor(g, head, target) && Ancestor(g, base, head)
    requires TruthfulAnswers(g, Some(base), Some(head), Some(target), mergeBase, reaches)
    requires fork == head || Some(fork) == EffectiveBase(Some(base), mergeBase, reaches)
    requires Extends(g, h) && Above(h, fork, newHead)
    ensures fork == head && Ancestor(h, head, newHead)
  {
    MergedBranchKeptIff(g, base, head, target, mergeBase, reaches);
    AncestorInGraph(g, base, head);
    AncestorSelf(g, head);
    AboveForkKeeps(g, h, head, fork, newHead);
  }

  /** The graph after a script that got to its end: as it was, or with one new commit on top of fork. */
  ghost predicate Snapped(g: Graph, h: Graph, fork: Id, head: Id) {
    && Extends(g, h)
    && if h == g then head == fork
       else head !in g && h.Keys == g.Keys + {head} && h[head].parents == [fork]
  }

  /**
   What becomes of a branch inside the target once its base is squashed to: it is kept exactly when the
   recorded base, a commit of the repository, is one of its ancestors; and it is still part of the branch
   exactly when either of the two is an ancestor of the other.
   */
  lemma MergedBranchFateIff(g: Graph, h: Graph, base: Id, head: Id, target: Id,
                            mergeBase: Option<Id>, reaches: bool, fork: Id, newHead: Id)
    requires Closed(g) && base in g && Ancestor(g, head, target)
    requires TruthfulAnswers(g, Some(base), Some(head), Some(target), mergeBase, reaches)
    requires Some(fork) == EffectiveBase(Some(base), mergeBase, reaches) && Snapped(g, h, fork, newHead)
    ensures fork == head <==> Ancestor(g, base, head)
    ensures Ancestor(h, head, newHead) <==> Ancestor(g, base, head) || Ancestor(g, head, base)
  {
    hide Ancestor, Closed;
    MergedBranchKeptIff(g, base, head, target, mergeBase, reaches);
    AncestorInGraph(g, head, target);
    AncestorSelf(g, head);
    MergedBase(g, head, target, mergeBase, base, reaches);
    if fork == head {
      AboveForkKeeps(g, h, head, fork, newHead);
    } else {
      assert fork == base;
      if h != g {
        assert h == g[newHead := h[newHead]];
        NewAncestors(g, newHead, h[newHead], head);
      }
    }
  }

  lemma MergedBase(g: Graph, head: Id, target: Id, mergeBase: Option<Id>, base: Id, reaches: bool)
    requires Ancestor(g, head, target)
    requires TruthfulAnswers(g, Some(base), Some(head), Some(target), mergeBase, reaches)
    ensures mergeBase == Some(head)
  {
    AncestorInGraph(g, head, target);
    AncestorSelf(g, head);
    MergeBaseInside(g, mergeBase.value, head, target);
  }

  /** git's answers put into words, for a branch and a target that share history. */
  lemma AnswersMean(g: Graph, base: Option<Id>, head: Option<Id>, target: Option<Id>,
                    mergeBase: Option<Id>, reaches: bool)
    requires TruthfulAnswers(g, base, head, target, mergeBase, reaches)
    requires base.Some? && mergeBase.Some? && Ancestor(g, base.value, mergeBase.value)
    ensures head.Some? && target.Some? && reaches
    ensures TruthfulAnswers(g, Some(base.value), Some(head.value), Some(target.value), Some(mergeBase.value), true)
  {
    hide Ancestor;
  }

  /**
   A merged branch that is rewritten: its recorded base shares no history with it, so whatever the script
   commits, the branch ends on the base and no longer contains its old tip.
   */
  lemma MergedBranchRewritten(h: Graph, fork: Id, newHead: Id)
    requires var g: Graph := map[0 := Commit([], map[]), 1 := Commit([], map[])];
             Some(fork) == EffectiveBase(Some(0), Some(1), false) && Snapped(g, h, fork, newHead)
    ensures var g: Graph := map[0 := Commit([], map[]), 1 := Commit([], map[])];
            && Ancestor(g, 1, 1) && TruthfulAnswers(g, Some(0), Some(1), Some(1), Some(1), false)
            && fork == 0 && !Ancestor(h, 1, newHead)
  {
    hide Ancestor;
    var g: Graph := map[0 := Commit([], map[]), 1 := Commit([], map[])];
    AncestorSelf(g, 1);
    forall c | Ancestor(g, c, 1) ensures c == 1 {
      RootIsAlone(g, c, 1);
    }
    if Ancestor(g, 1, 0) {
      RootIsAlone(g, 1, 0);
    }
    MergedBranchFateIff(g, h, 0, 1, 1, Some(1), false, fork, newHead);
  }
}
