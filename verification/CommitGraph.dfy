/** Commit graphs, ancestry and merge bases, as the git queries of src/symphony/workspace.py see them. */
module CommitGraph {
  import opened Prelude

  type Id = nat
  type Path = seq<string>
  type Tree = map<Path, nat>

  datatype Commit = Commit(parents: seq<Id>, tree: Tree)

  type Graph = map<Id, Commit>

  /** Every parent of a commit is in the graph. */
  ghost predicate Closed(g: Graph) {
    forall c, p {:trigger p in g[c].parents} :: c in g && p in g[c].parents ==> p in g
  }

  /** path walks from a commit to one of its ancestors, one parent at a time. */
  ghost predicate Chain(g: Graph, path: seq<Id>) {
    && path != []
    && (forall i :: 0 <= i < |path| ==> path[i] in g)
    && (forall i :: 0 < i < |path| ==> path[i] in g[path[i - 1]].parents)
  }

  ghost predicate Links(g: Graph, path: seq<Id>, a: Id, b: Id) {
    Chain(g, path) && path[0] == b && path[|path| - 1] == a
  }

  /** git merge-base --is-ancestor a b: b can reach a; a commit is an ancestor of itself. */
  ghost predicate Ancestor(g: Graph, a: Id, b: Id) {
    exists path :: Links(g, path, a, b)
  }

  /** One graph grew into another: no commit was lost or altered. */
  predicate Extends(g: Graph, h: Graph) {
    forall c :: c in g ==> c in h && h[c] == g[c]
  }

  /** A best common ancestor: no other common ancestor descends from it. */
  ghost predicate IsMergeBase(g: Graph, m: Id, a: Id, b: Id) {
    && Ancestor(g, m, a) && Ancestor(g, m, b)
    && forall c :: Ancestor(g, c, a) && Ancestor(g, c, b) && Ancestor(g, m, c) ==> c == m
  }

  lemma AncestorSelf(g: Graph, a: Id)
    requires a in g
    ensures Ancestor(g, a, a)
  {
    assert Links(g, [a], a, a);
  }

  lemma AncestorInGraph(g: Graph, a: Id, b: Id)
    requires Ancestor(g, a, b)
    ensures a in g && b in g
  {
    var path :| Links(g, path, a, b);
  }

  lemma AncestorParent(g: Graph, a: Id, b: Id)
    requires b in g && a in g && a in g[b].parents
    ensures Ancestor(g, a, b)
  {
    assert Links(g, [b, a], a, b);
  }

  lemma AncestorTransitive(g: Graph, a: Id, b: Id, c: Id)
    requires Ancestor(g, a, b) && Ancestor(g, b, c)
    ensures Ancestor(g, a, c)
  {
    var low :| Links(g, low, a, b);
    var high :| Links(g, high, b, c);
    var path := high + low[1..];
    forall i | 0 < i < |path| ensures path[i] in g[path[i - 1]].parents {
      if i >= |high| {
        assert path[i] == low[i - |high| + 1];
        assert path[i - 1] == low[i - |high|];
      }
    }
    assert Links(g, path, a, c);
  }

  lemma AncestorExtends(g: Graph, h: Graph, a: Id, b: Id)
    requires Extends(g, h) && Ancestor(g, a, b)
    ensures Ancestor(h, a, b)
  {
    var path :| Links(g, path, a, b);
    assert Links(h, path, a, b);
  }

  lemma FirstStep(g: Graph, path: seq<Id>)
    requires Chain(g, path) && |path| > 1
    ensures path[1] in g[path[0]].parents
  {
    assert path[1] in g[path[1 - 1]].parents;
  }

  /** A commit without parents has no ancestor but itself. */
  lemma RootIsAlone(g: Graph, a: Id, b: Id)
    requires b in g && g[b].parents == [] && Ancestor(g, a, b)
    ensures a == b
  {
    var path :| Links(g, path, a, b);
    if |path| > 1 {
      FirstStep(g, path);
    }
  }

  /** A walk that starts at an old commit stays among the old commits. */
  lemma {:induction false} OldWalks(g: Graph, id: Id, c: Commit, path: seq<Id>)
    requires Closed(g) && id !in g && Chain(g[id := c], path) && path[0] in g
    ensures Chain(g, path)
  {
    if |path| > 1 {
      FirstStep(g[id := c], path);
      var rest := path[1..];
      assert forall i :: 0 < i < |rest| ==> rest[i] == path[i + 1] && rest[i - 1] == path[i];
      OldWalks(g, id, c, rest);
      forall i | 0 < i < |path| ensures path[i] in g && path[i] in g[path[i - 1]].parents {
        assert i > 1 ==> path[i] == rest[i - 1] && path[i - 1] == rest[i - 2];
        assert path[i] in g[id := c][path[i - 1]].parents;
        assert path[i] == rest[i - 1];
      }
    }
  }

  lemma OldAncestors(g: Graph, id: Id, c: Commit, a: Id, b: Id)
    requires Closed(g) && id !in g && b in g
    ensures Ancestor(g[id := c], a, b) <==> Ancestor(g, a, b)
  {
    var later := g[id := c];
    if Ancestor(later, a, b) {
      var path :| Links(later, path, a, b);
      OldWalks(g, id, c, path);
      assert Links(g, path, a, b);
    }
    if Ancestor(g, a, b) {
      AncestorExtends(g, later, a, b);
    }
  }

  /** What a new commit reaches: itself, and what its parents reach. */
  lemma NewAncestors(g: Graph, id: Id, c: Commit, a: Id)
    requires Closed(g) && id !in g && forall p :: p in c.parents ==> p in g
    ensures Ancestor(g[id := c], a, id) <==> a == id || exists p :: p in c.parents && Ancestor(g, a, p)
  {
    var later := g[id := c];
    if Ancestor(later, a, id) && a != id {
      var path :| Links(later, path, a, id);
      FirstStep(later, path);
      var rest := path[1..];
      assert forall i :: 0 < i < |rest| ==> rest[i] == path[i + 1] && rest[i - 1] == path[i];
      OldWalks(g, id, c, rest);
      assert Links(g, rest, a, path[1]);
    }
    AncestorSelf(later, id);
    forall p | p in c.parents && Ancestor(g, a, p) ensures Ancestor(later, a, id) {
      AncestorExtends(g, later, a, p);
      AncestorParent(later, p, id);
      AncestorTransitive(later, a, p, id);
    }
  }

  /** A branch that lies inside the target can only have itself as merge base with it. */
  lemma MergeBaseInside(g: Graph, m: Id, head: Id, target: Id)
    requires Ancestor(g, head, target) && IsMergeBase(g, m, head, target)
    ensures m == head
  {
    AncestorInGraph(g, head, target);
    AncestorSelf(g, head);
  }
}
