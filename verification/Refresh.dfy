/**
 The guarded fast-forward of a preserved worktree (_linked_worktree_refresh_plan and
 _refresh_linked_worktree_in_place in src/symphony/workspace.py), run while other actors move refs.
 */
module Refresh {
  import opened Prelude
  import opened CommitGraph

  /** Each commit with every commit reachable from it, itself included: what git's walks find. */
  type History = map<Id, set<Id>>

  predicate Reached(h: History, a: Id, b: Id) {
    b in h && a in h[b]
  }

  /** The walks of a commit graph. */
  ghost predicate Pictures(h: History, g: Graph) {
    && Closed(g)
    && h.Keys == g.Keys
    && forall a: Id, b: Id :: Reached(h, a, b) <==> Ancestor(g, a, b)
  }

  /** No two commits reach each other: a commit names its parents by their content. */
  ghost predicate NoCycles(h: History) {
    forall a: Id, b: Id :: Reached(h, a, b) && Reached(h, b, a) ==> a == b
  }

  datatype Plan = Plan(branch: string, head: Id, target: Id)

  datatype Outcome = NotRefreshed | Refreshed | Raised

  /** What makes a worktree a managed one: each is one of the checks before a plan, in their order. */
  datatype Check = GitFile | LocalTarget | OwnRoot | SharedRepository | OnBranch | Clean

  const CHECKS: seq<Check> := [GitFile, LocalTarget, OwnRoot, SharedRepository, OnBranch, Clean]

  /**
   What the refresh itself did to git, in order: reads with the value seen, and mutations.
   A check also records whether it held when it was answered.
   */
  datatype Event =
    | Checked(check: Check, seen: bool, held: bool)
    | HeadRead(seenHead: Option<Id>)
    | BranchRead(seenTip: Option<Id>)
    | AncestorRead(answer: bool)
    | FastForward(from: Id, to: Id)
    | MergeTried
    | ConfigWrite(key: string)
    | BaseShaRead(seenBase: Option<Id>)

  predicate IsMutation(e: Event) {
    e.FastForward? || e.MergeTried? || e.ConfigWrite?
  }

  predicate OnlyReads(events: seq<Event>) {
    forall e :: e in events ==> !IsMutation(e)
  }

  predicate NoMoves(events: seq<Event>) {
    forall e :: e in events ==> !e.FastForward?
  }

  /** Every ref movement in the trace is forward along ancestry. */
  ghost predicate ForwardOnly(g: Graph, events: seq<Event>) {
    forall e :: e in events && e.FastForward? ==> Ancestor(g, e.from, e.to)
  }

  lemma ExtendsOn(g: Graph, mid: Graph, later: Graph)
    requires Extends(g, mid) && Extends(mid, later)
    ensures Extends(g, later)
  {
  }

  lemma ForwardExtends(g: Graph, later: Graph, events: seq<Event>)
    requires ForwardOnly(g, events) && Extends(g, later)
    ensures ForwardOnly(later, events)
  {
    hide Ancestor, Extends;
    forall e | e in events && e.FastForward? ensures Ancestor(later, e.from, e.to) {
      AncestorExtends(g, later, e.from, e.to);
    }
  }

  // ---------------------------------------------------------------------------------------------
  // A new commit
  // ---------------------------------------------------------------------------------------------

  function Below(h: History, parents: seq<Id>): set<Id> {
    set p, d | p in parents && p in h && d in h[p] :: d
  }

  lemma NewCommit(h: History, g: Graph, id: Id, c: Commit)
    requires Pictures(h, g) && id !in g && forall p :: p in c.parents ==> p in g
    ensures Pictures(h[id := Below(h, c.parents) + {id}], g[id := c])
    ensures Extends(g, g[id := c])
  {
    hide Ancestor;
    var h', g' := h[id := Below(h, c.parents) + {id}], g[id := c];
    forall a: Id, b: Id ensures Reached(h', a, b) <==> Ancestor(g', a, b) {
      if b == id {
        NewAncestors(g, id, c, a);
        assert a in Below(h, c.parents) <==> exists p :: p in c.parents && Reached(h, a, p);
      } else if b in g {
        OldAncestors(g, id, c, a, b);
      } else if Ancestor(g', a, b) {
        AncestorInGraph(g', a, b);
      }
    }
  }

  lemma NewCommitNoCycle(h: History, g: Graph, id: Id, c: Commit)
    requires Pictures(h, g) && NoCycles(h) && id !in g
    ensures NoCycles(h[id := Below(h, c.parents) + {id}])
  {
    hide Ancestor, Below;
    var h' := h[id := Below(h, c.parents) + {id}];
    forall a: Id, b: Id | Reached(h', a, b) && Reached(h', b, a) ensures a == b {
      if a != id && b != id {
        assert Reached(h, a, b) && Reached(h, b, a);
      } else if a == id && b != id {
        assert Reached(h, id, b);
        AncestorInGraph(g, id, b);
      } else if b == id && a != id {
        assert Reached(h, id, a);
        AncestorInGraph(g, id, a);
      }
    }
  }

  // ---------------------------------------------------------------------------------------------
  // The repository
  // ---------------------------------------------------------------------------------------------

  /** The host repository and one linked worktree, both shared with other actors. */
  class Git {
    /** Nobody else acts, every command is run to its end and every query answered. */
    const calm: bool
    ghost var graph: Graph
    var history: History
    var branches: map<string, Id>
    var attached: Option<string>
    var detachedAt: Id
    var holding: set<Check>
    var baseSha: Option<Id>
    var trace: seq<Event>

    ghost predicate Valid()
      reads this
    {
      Pictures(history, graph) && NoCycles(history) && ForwardOnly(graph, trace)
    }

    /** What HEAD of the worktree resolves to. */
    function Head(): Option<Id>
      reads this
    {
      if attached.None? then Some(detachedAt)
      else if attached.value in branches then Some(branches[attached.value])
      else None
    }

    predicate Holds(check: Check, branch: string)
      reads this
    {
      if check == OnBranch then attached == Some(branch) else check in holding
    }

    /** What other actors may change. */
    ghost function Shared(): (Graph, map<string, Id>, Option<string>, Id, set<Check>, Option<Id>)
      reads this
    {
      (graph, branches, attached, detachedAt, holding, baseSha)
    }

    ghost function Refs(): (Graph, map<string, Id>, Option<string>, Id, set<Check>)
      reads this
    {
      (graph, branches, attached, detachedAt, holding)
    }

    /** A managed worktree whose branch can be fast-forwarded to the target branch. */
    ghost predicate IsBehind(branch: string, targetBranch: string)
      reads this
    {
      && (forall check: Check :: Holds(check, branch))
      && branch in branches && targetBranch in branches
      && branches[branch] != branches[targetBranch]
      && Ancestor(graph, branches[branch], branches[targetBranch])
    }

    constructor (calm: bool)
      ensures Valid() && trace == [] && this.calm == calm
    {
      this.calm := calm;
      graph, history, branches, attached, detachedAt, holding, baseSha, trace :=
        map[], map[], map[], None, 0, {}, None, [];
      new;
      forall a: Id, b: Id ensures Reached(history, a, b) <==> Ancestor(graph, a, b) {
        if Ancestor(graph, a, b) {
          AncestorInGraph(graph, a, b);
        }
      }
    }

    /** Other actors: they may move, add or delete any ref, change the worktree and add commits. */
    method Interfere()
      requires Valid()
      modifies this`graph, this`history, this`branches, this`attached, this`detachedAt, this`holding, this`baseSha
      ensures Valid() && Extends(old(graph), graph)
      ensures calm ==> Shared() == old(Shared())
    {
      hide Ancestor, Pictures, Below, NoCycles;
      if calm {
        return;
      }
      var id: Id := *;
      var c: Commit := *;
      assert history.Keys == graph.Keys by { KeysAgree(history, graph); }
      if id !in history && forall p :: p in c.parents ==> p in history {
        NewCommit(history, graph, id, c);
        NewCommitNoCycle(history, graph, id, c);
        ForwardExtends(graph, graph[id := c], trace);
        history, graph := history[id := Below(history, c.parents) + {id}], graph[id := c];
      }
      branches := *;
      attached := *;
      detachedAt := *;
      holding := *;
      baseSha := *;
    }

    /** One of the checks on the worktree; a query that fails counts as a no. */
    method Ask(check: Check, branch: string) returns (answer: bool)
      requires Valid()
      modifies this
      ensures Valid() && Extends(old(graph), graph)
      ensures trace == old(trace) + [Checked(check, answer, Holds(check, branch))]
      ensures answer ==> Holds(check, branch)
      ensures calm ==> Shared() == old(Shared()) && answer == old(Holds(check, branch))
    {
      Interfere();
      var answered: bool := *;
      answer := (calm || answered) && Holds(check, branch);
      trace := trace + [Checked(check, answer, Holds(check, branch))];
    }

    /** git rev-parse HEAD in the worktree; None when the query fails. */
    method ReadHead() returns (sha: Option<Id>)
      requires Valid()
      modifies this
      ensures Valid() && Extends(old(graph), graph)
      ensures trace == old(trace) + [HeadRead(sha)]
      ensures sha.Some? ==> sha == Head()
      ensures calm ==> Shared() == old(Shared()) && sha == old(Head())
    {
      Interfere();
      var answered: bool := *;
      sha := if calm || answered then Head() else None;
      trace := trace + [HeadRead(sha)];
    }

    /** git rev-parse refs/heads/<branch> in the host repository. */
    method ReadBranch(branch: string) returns (sha: Option<Id>)
      requires Valid()
      modifies this
      ensures Valid() && Extends(old(graph), graph)
      ensures trace == old(trace) + [BranchRead(sha)]
      ensures sha.Some? ==> branch in branches && branches[branch] == sha.value
      ensures calm ==> Shared() == old(Shared()) && (sha.Some? <==> branch in old(branches))
    {
      Interfere();
      var answered: bool := *;
      sha := if (calm || answered) && branch in branches then Some(branches[branch]) else None;
      trace := trace + [BranchRead(sha)];
    }

    /** git merge-base --is-ancestor a b. */
    method AskAncestor(a: Id, b: Id) returns (answer: bool)
      requires Valid()
      modifies this
      ensures Valid() && Extends(old(graph), graph)
      ensures trace == old(trace) + [AncestorRead(answer)]
      ensures answer ==> Ancestor(graph, a, b)
      ensures calm ==> Shared() == old(Shared()) && (answer <==> Ancestor(old(graph), a, b))
    {
      Interfere();
      var answered: bool := *;
      answer := (calm || answered) && Reached(history, a, b);
      trace := trace + [AncestorRead(answer)];
    }

    /**
     git merge --ff-only target: whatever branch HEAD is on by then moves, and only to a descendant.
     None stands for a command that could not be run to its end. `refs` and `from` are the branches
     and HEAD that the merge found.
     */
    method MergeFastForward(target: Id)
      returns (returnCode: Option<int>, ghost refs: map<string, Id>, ghost from: Option<Id>)
      requires Valid()
      modifies this
      ensures Valid() && Extends(old(graph), graph)
      // It moved HEAD, and nothing but the branch HEAD is on; or it moved nothing.
      ensures if from.Some? && trace == old(trace) + [MergeTried, FastForward(from.value, target)] then
                && Ancestor(graph, from.value, target) && Head() == Some(target)
                && branches == (if attached.Some? then refs[attached.value := target] else refs)
              else
                trace == old(trace) + [MergeTried] && branches == refs && Head() == from
      // An error code means that nothing moved; zero, that HEAD is at the target or beyond.
      ensures returnCode.Some? && returnCode != Some(0) ==> trace == old(trace) + [MergeTried]
      ensures returnCode == Some(0) ==> Head().Some? && Ancestor(graph, target, Head().value)
      // Undisturbed, a branch below the target is moved to it.
      ensures calm && old(attached).Some? && old(Head()).Some? && Ancestor(old(graph), old(Head()).value, target) ==>
                && returnCode == Some(0) && baseSha == old(baseSha)
                && (old(Head()) != Some(target) ==>
                      Refs() == (old(graph), old(branches)[old(attached).value := target], old(attached),
                                 old(detachedAt), old(holding)))
    {
      hide Ancestor, Closed;
      Interfere();
      refs, from := branches, Head();
      trace := trace + [MergeTried];
      var failed: bool := *;
      var head := Head();
      if (failed && !calm) || head.None? || target !in history {
        return Some(1), refs, from;
      }
      if Reached(history, target, head.value) {
        return Some(0), refs, from;
      }
      if !Reached(history, head.value, target) {
        return Some(128), refs, from;
      }
      if attached.Some? {
        branches := branches[attached.value := target];
      } else {
        detachedAt := target;
      }
      AncestorSelf(graph, target);
      trace := trace + [FastForward(head.value, target)];
      assert trace == old(trace) + [MergeTried, FastForward(head.value, target)];
      var killed: bool := *;
      returnCode := if killed && !calm then None else Some(0);
    }

    method WriteConfig(key: string, base: Option<Id>) returns (ok: bool)
      requires Valid()
      modifies this
      ensures Valid() && Extends(old(graph), graph)
      ensures trace == old(trace) + [ConfigWrite(key)]
      ensures ok && base.Some? ==> baseSha == base
      ensures calm ==> ok && Refs() == old(Refs()) && (base.None? ==> baseSha == old(baseSha))
    {
      Interfere();
      ok := *;
      ok := ok || calm;
      var written: bool := *;
      if (ok || written) && base.Some? {
        baseSha := base;
      }
      trace := trace + [ConfigWrite(key)];
    }

    method ReadBaseSha() returns (sha: Option<Id>)
      requires Valid()
      modifies this
      ensures Valid() && Extends(old(graph), graph)
      ensures trace == old(trace) + [BaseShaRead(sha)]
      ensures sha.Some? ==> sha == baseSha
      ensures calm ==> Shared() == old(Shared()) && sha == old(baseSha)
    {
      Interfere();
      var answered: bool := *;
      sha := if calm || answered then baseSha else None;
      trace := trace + [BaseShaRead(sha)];
    }

    /**
     Managed topology: a linked worktree of this host, on the expected branch, and clean. The checks
     are asked in order up to the first no, and each yes before it was true when it was given.
     */
    method CheckTopology(branch: string) returns (ok: bool)
      requires Valid()
      modifies this
      ensures Valid() && Extends(old(graph), graph)
      ensures ok ==> trace == old(trace) + Passed(|CHECKS|)
      ensures !ok ==>
                exists n: nat, held: bool ::
                  n < |CHECKS| && trace == old(trace) + Passed(n) + [Checked(CHECKS[n], false, held)]
      ensures calm ==> Shared() == old(Shared()) && (ok <==> forall check: Check :: old(Holds(check, branch)))
    {
      hide Pictures, NoCycles, ForwardOnly, Extends;
      ghost var before := graph;
      assert trace == old(trace) + Passed(0);
      ExtendsItself(graph);
      for i := 0 to |CHECKS|
        invariant Valid() && Extends(before, graph)
        invariant trace == old(trace) + Passed(i)
        invariant calm ==> Shared() == old(Shared()) && forall c: Check :: c in CHECKS[..i] ==> old(Holds(c, branch))
      {
        ghost var mid := graph;
        ok := Ask(CHECKS[i], branch);
        ExtendsOn(before, mid, graph);
        if !ok {
          ghost var held := Holds(CHECKS[i], branch);
          assert trace == old(trace) + Passed(i) + [Checked(CHECKS[i], false, held)];
          assert calm ==> !old(Holds(CHECKS[i], branch));
          return;
        }
        assert Passed(i + 1) == Passed(i) + [Checked(CHECKS[i], true, true)];
      }
      forall c: Check ensures c in CHECKS[..|CHECKS|] {
        CheckListed(c);
      }
      ok := true;
    }

    /**
     _linked_worktree_refresh_plan: reads only. A plan means that every check said yes, that HEAD and
     the branch were read at the same commit, and that this was an ancestor of the target when git
     answered.
     */
    method CapturePlan(branch: string, targetBranch: string) returns (plan: Option<Plan>)
      requires Valid()
      modifies this
      ensures Valid() && Extends(old(graph), graph)
      ensures old(trace) <= trace && OnlyReads(trace[|old(trace)|..])
      ensures plan.Some? ==>
                && plan.value.branch == branch
                && plan.value.head != plan.value.target
                && Ancestor(graph, plan.value.head, plan.value.target)
                && trace == old(trace) + PlanReads(plan.value)
      ensures calm ==>
                && Shared() == old(Shared())
                && (plan.Some? <==> old(IsBehind(branch, targetBranch)))
                && (plan.Some? ==>
                      plan.value.head == old(branches)[branch] && plan.value.target == old(branches)[targetBranch])
    {
      hide Pictures, NoCycles, ForwardOnly, Ancestor;
      var managed := CheckTopology(branch);
      PassedReads();
      assert calm && managed ==> old(Holds(OnBranch, branch));
      if !managed {
        return None;
      }
      var head := ReadHead();
      var hostHead := ReadBranch(branch);
      var target := ReadBranch(targetBranch);
      if head.None? || hostHead.None? || target.None? || head != hostHead || head == target {
        return None;
      }
      var forward := AskAncestor(head.value, target.value);
      if !forward {
        return None;
      }
      plan := Some(Plan(branch, head.value, target.value));
    }

    /** The reads that must show the target, after the merge and again after the config writes. */
    method BothAt(branch: string, target: Id) returns (ok: bool)
      requires Valid()
      modifies this
      ensures Valid() && Extends(old(graph), graph)
      ensures exists head, tip :: trace == old(trace) + [HeadRead(head), BranchRead(tip)]
                && (ok <==> head == Some(target) && tip == Some(target))
      ensures calm ==>
                && Shared() == old(Shared())
                && (ok <==> old(Head()) == Some(target) && branch in old(branches) && old(branches)[branch] == target)
    {
      var head := ReadHead();
      var tip := ReadBranch(branch);
      ok := head == Some(target) && tip == Some(target);
      assert trace == old(trace) + [HeadRead(head), BranchRead(tip)];
    }

    /** The four config writes, up to the first that fails; the base sha is the one read back later. */
    method WriteConfigs(target: Id) returns (ok: bool)
      requires Valid()
      modifies this
      ensures Valid() && Extends(old(graph), graph)
      ensures exists n: nat :: 1 <= n <= |CONFIG_WRITES| && trace == old(trace) + CONFIG_WRITES[..n]
                && (ok ==> n == |CONFIG_WRITES|)
      ensures calm ==> ok && Refs() == old(Refs()) && baseSha == Some(target)
    {
      hide Pictures, NoCycles, ForwardOnly;
      ok := WriteConfig("extensions.worktreeConfig", None);
      assert trace == old(trace) + CONFIG_WRITES[..1];
      if !ok { return; }
      ok := WriteConfig("symphony.basesha", Some(target));
      assert trace == old(trace) + CONFIG_WRITES[..2];
      if !ok { return; }
      ok := WriteConfig("symphony.mergetargetbranch", None);
      assert trace == old(trace) + CONFIG_WRITES[..3];
      if !ok { return; }
      ok := WriteConfig("symphony.basebranch", None);
      assert trace == old(trace) + CONFIG_WRITES[..4];
    }

    /** Everything after a merge that returned zero: no ref moves any more. */
    method FinishRefresh(branch: string, target: Id) returns (ok: bool)
      requires Valid()
      modifies this
      ensures Valid() && Extends(old(graph), graph)
      ensures old(trace) <= trace && NoMoves(trace[|old(trace)|..])
      ensures ok ==> trace == old(trace) + AfterMerge(target)
      ensures calm ==>
                && Refs() == old(Refs())
                && (ok <==> old(Head()) == Some(target) && branch in old(branches) && old(branches)[branch] == target)
                && (ok ==> baseSha == Some(target))
    {
      hide Pictures, NoCycles, ForwardOnly, Ancestor;
      ok := BothAt(branch, target);
      if !ok {
        return;
      }
      ok := WriteConfigs(target);
      if !ok {
        return;
      }
      var sha := ReadBaseSha();
      if sha != Some(target) {
        return false;
      }
      ok := BothAt(branch, target);
    }

    /** _refresh_linked_worktree_in_place. */
    method RefreshInPlace(branch: string, targetBranch: string) returns (outcome: Outcome, plan: Option<Plan>)
      requires Valid() && trace == []
      modifies this
      // Whatever happens, refs were only moved forward.
      ensures Valid() && Extends(old(graph), graph)
      // False: git was only read.
      ensures outcome == NotRefreshed ==> OnlyReads(trace)
      // An error: a plan had been captured twice, and at most one ref moved, to the captured target.
      ensures outcome == Raised ==> plan.Some? && RaisedTrace(trace, plan.value)
      // True: the captured target was seen twice, around the config writes.
      ensures outcome == Refreshed ==>
                && plan.Some? && plan.value.branch == branch
                && Ancestor(graph, plan.value.head, plan.value.target)
                && RefreshTrace(trace, plan.value)
      // Undisturbed, a managed worktree behind the target branch is moved to it, and no other changes.
      ensures calm ==>
                && (outcome == Refreshed <==> old(IsBehind(branch, targetBranch)))
                && (outcome == NotRefreshed <==> !old(IsBehind(branch, targetBranch)))
                && (outcome == NotRefreshed ==> Shared() == old(Shared()))
                && (outcome == Refreshed ==>
                      var target := old(branches)[targetBranch];
                      Shared() == (old(graph), old(branches)[branch := target], old(attached), old(detachedAt),
                                   old(holding), Some(target)))
    {
      hide Pictures, NoCycles, ForwardOnly, Ancestor, Extends, IsMutation, AfterMerge, PlanReads;
      ghost var start := graph;
      assert IsBehind(branch, targetBranch) ==> Holds(OnBranch, branch);
      plan := CapturePlan(branch, targetBranch);
      ghost var captured := graph;
      if plan.None? {
        return NotRefreshed, plan;
      }
      forall c: Check ensures calm ==> Holds(c, branch) == old(Holds(c, branch)) {
      }
      assert calm ==> IsBehind(branch, targetBranch);
      var confirmed := CapturePlan(branch, targetBranch);
      ExtendsOn(start, captured, graph);
      assert trace[0..] == trace;
      if confirmed != plan {
        return NotRefreshed, plan;
      }
      ghost var confirmedGraph := graph;
      ghost var before := trace;
      assert before == PlanReads(plan.value) + PlanReads(plan.value);
      var merged, refs, from := MergeFastForward(plan.value.target);
      ExtendsOn(start, confirmedGraph, graph);
      ExtendsOn(captured, confirmedGraph, graph);
      ghost var merge := trace[|before|..];
      assert MergeShape(merge, plan.value.target);
      if merged != Some(0) {
        assert trace == before + merge + [];
        RaisedAfter(trace, plan.value, merge, []);
        return Raised, plan;
      }
      ghost var mergedGraph := graph;
      var ok := FinishRefresh(branch, plan.value.target);
      ExtendsOn(start, mergedGraph, graph);
      ExtendsOn(captured, mergedGraph, graph);
      ghost var after := trace[|before + merge|..];
      assert trace == before + merge + after;
      if !ok {
        RaisedAfter(trace, plan.value, merge, after);
        return Raised, plan;
      }
      AncestorExtends(captured, graph, plan.value.head, plan.value.target);
      outcome := Refreshed;
    }
  }

  lemma CheckListed(check: Check)
    ensures check in CHECKS
  {
    assert CHECKS[0] == GitFile && CHECKS[1] == LocalTarget && CHECKS[2] == OwnRoot;
    assert CHECKS[3] == SharedRepository && CHECKS[4] == OnBranch && CHECKS[5] == Clean;
    match check
    case GitFile =>
    case LocalTarget =>
    case OwnRoot =>
    case SharedRepository =>
    case OnBranch =>
    case Clean =>
  }

  lemma KeysAgree(h: History, g: Graph)
    requires Pictures(h, g)
    ensures h.Keys == g.Keys
  {
  }

  lemma ExtendsItself(g: Graph)
    ensures Extends(g, g)
  {
  }

  /** The first checks, each with a yes that was true when it was given. */
  function Passed(n: nat): seq<Event>
    requires n <= |CHECKS|
  {
    seq(n, i requires 0 <= i < n => Checked(CHECKS[i], true, true))
  }

  lemma PassedReads()
    ensures forall n: nat :: n <= |CHECKS| ==> OnlyReads(Passed(n))
  {
  }

  /** What a capture that yields this plan does. */
  function PlanReads(plan: Plan): seq<Event> {
    Passed(|CHECKS|)
    + [HeadRead(Some(plan.head)), BranchRead(Some(plan.head)), BranchRead(Some(plan.target)), AncestorRead(true)]
  }

  const CONFIG_WRITES: seq<Event> :=
    [ConfigWrite("extensions.worktreeConfig"), ConfigWrite("symphony.basesha"),
     ConfigWrite("symphony.mergetargetbranch"), ConfigWrite("symphony.basebranch")]

  function AfterMerge(target: Id): seq<Event> {
    [HeadRead(Some(target)), BranchRead(Some(target))] + CONFIG_WRITES
    + [BaseShaRead(Some(target)), HeadRead(Some(target)), BranchRead(Some(target))]
  }

  /** One merge: it moved a ref to the target, or moved nothing. */
  ghost predicate MergeShape(merge: seq<Event>, target: Id) {
    merge == [MergeTried] || exists from :: merge == [MergeTried, FastForward(from, target)]
  }

  /** The plan captured twice; then one merge; then the two checks around the config writes. */
  ghost predicate RefreshTrace(trace: seq<Event>, plan: Plan) {
    exists merge :: MergeShape(merge, plan.target)
      && trace == PlanReads(plan) + PlanReads(plan) + merge + AfterMerge(plan.target)
  }

  /** The plan captured twice; then one merge; then no more ref movements. */
  ghost predicate RaisedTrace(trace: seq<Event>, plan: Plan) {
    exists merge, after :: MergeShape(merge, plan.target) && NoMoves(after)
      && trace == PlanReads(plan) + PlanReads(plan) + merge + after
  }

  lemma RaisedAfter(trace: seq<Event>, plan: Plan, merge: seq<Event>, after: seq<Event>)
    requires MergeShape(merge, plan.target) && NoMoves(after)
    requires trace == PlanReads(plan) + PlanReads(plan) + merge + after
    ensures RaisedTrace(trace, plan)
  {
  }

  lemma RefreshedIsLikeRaised(trace: seq<Event>, plan: Plan)
    requires RefreshTrace(trace, plan)
    ensures RaisedTrace(trace, plan)
  {
    var merge :| MergeShape(merge, plan.target)
      && trace == PlanReads(plan) + PlanReads(plan) + merge + AfterMerge(plan.target);
    var after := AfterMerge(plan.target);
    assert NoMoves(after);
    assert MergeShape(merge, plan.target) && trace == PlanReads(plan) + PlanReads(plan) + merge + after;
  }

  /** Whether it succeeds or raises, at most one ref moved, and it moved forward to the captured target. */
  lemma RefreshMovesOnce(g: Graph, trace: seq<Event>, plan: Plan, i: nat, j: nat)
    requires ForwardOnly(g, trace) && (RefreshTrace(trace, plan) || RaisedTrace(trace, plan))
    requires i < |trace| && j < |trace| && trace[i].FastForward? && trace[j].FastForward?
    ensures i == j && trace[i].to == plan.target && Ancestor(g, trace[i].from, plan.target)
  {
    hide Ancestor, RefreshTrace;
    if RefreshTrace(trace, plan) {
      RefreshedIsLikeRaised(trace, plan);
    }
    var merge, after :| MergeShape(merge, plan.target) && NoMoves(after)
      && trace == PlanReads(plan) + PlanReads(plan) + merge + after;
    var before := PlanReads(plan) + PlanReads(plan);
    assert forall k :: 0 <= k < |before| ==> trace[k] == before[k] && !before[k].FastForward?;
    assert forall k :: |before| <= k < |before| + |merge| ==> trace[k] == merge[k - |before|];
    assert forall k :: |before| + |merge| <= k < |trace| ==>
             trace[k] == after[k - |before| - |merge|] && after[k - |before| - |merge|] in after;
  }
}
