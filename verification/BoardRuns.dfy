/**
 Runs of the continuous-improvement heartbeat (src/symphony/continuous_improvement.py) among ticket
 moves, cut short anywhere: a fix is created first and made a blocker of its source afterwards.
 */
module BoardRuns {
  import opened Prelude
  import opened Board

  // ---------------------------------------------------------------------
  // The link of a fix
  // ---------------------------------------------------------------------

  /** Following blockers leads from one ticket to the other; a ticket leads to itself. */
  ghost predicate Leads(b: Tickets, x: Id, y: Id) {
    exists p :: LeadsBy(b, p, x, y)
  }

  ghost predicate LeadsBy(b: Tickets, p: seq<Id>, x: Id, y: Id) {
    |p| > 0 && Path(b, p) && p[0] == x && p[|p| - 1] == y
  }

  lemma LeadsToItself(b: Tickets, x: Id)
    ensures Leads(b, x, x)
  {
    assert LeadsBy(b, [x], x, x);
  }

  lemma LeadsFurther(b: Tickets, x: Id, y: Id, z: Id)
    requires Edge(b, x, y) && Leads(b, y, z)
    ensures Leads(b, x, z)
    ensures Acyclic(b) ==> x != z
  {
    var p :| LeadsBy(b, p, y, z);
    var q := [x] + p;
    forall i | 0 <= i < |q| - 1 ensures Edge(b, q[i], q[i + 1]) {
      assert i > 0 ==> q[i] == p[i - 1] && q[i + 1] == p[i - 1 + 1];
    }
    assert LeadsBy(b, q, x, z);
  }

  lemma {:induction false} LeadsOn(b: Tickets, p: seq<Id>, x: Id, y: Id, z: Id)
    requires LeadsBy(b, p, x, y) && Leads(b, y, z)
    ensures Leads(b, x, z)
    decreases |p|
  {
    if |p| > 1 {
      PathTail(b, p);
      LeadsOn(b, p[1..], p[1], y, z);
      LeadsFurther(b, x, p[1], z);
    }
  }

  lemma PathTail(b: Tickets, p: seq<Id>)
    requires |p| > 1 && Path(b, p)
    ensures Edge(b, p[0], p[1]) && LeadsBy(b, p[1..], p[1], p[|p| - 1])
  {
    assert Edge(b, p[0], p[0 + 1]);
    var q := p[1..];
    forall i | 0 <= i < |q| - 1 ensures Edge(b, q[i], q[i + 1]) {
      assert q[i] == p[i + 1] && q[i + 1] == p[i + 1 + 1];
    }
  }

  lemma LinkedEdges(b: Tickets, x: Id, f: Id)
    requires x in b && x != f
    ensures forall y: Id, z: Id :: Edge(Linked(b, x, f), y, z) <==> Edge(b, y, z) || (y == x && z == f)
  {
  }

  /**
   A path over the linked board leads, without the link, to its end or up to the link, and to
   its end from its start or from behind the link.
   */
  lemma {:induction false} AroundLink(b: Tickets, x: Id, f: Id, p: seq<Id>)
    requires x in b && x != f && |p| > 0 && Path(Linked(b, x, f), p)
    ensures Leads(b, p[0], p[|p| - 1]) || (Leads(b, p[0], x) && Leads(b, f, p[|p| - 1]))
    decreases |p|
  {
    hide Path, Edge, Linked;
    if |p| == 1 {
      LeadsToItself(b, p[0]);
    } else {
      PathTail(Linked(b, x, f), p);
      AroundLink(b, x, f, p[1..]);
      LinkedEdges(b, x, f);
      if Edge(b, p[0], p[1]) {
        if Leads(b, p[1], p[|p| - 1]) {
          LeadsFurther(b, p[0], p[1], p[|p| - 1]);
        } else {
          LeadsFurther(b, p[0], p[1], x);
        }
      } else {
        LeadsToItself(b, x);
      }
    }
  }

  /** Blocking a ticket by its fix closes a cycle exactly when the fix already leads to it. */
  lemma LinkKeepsAcyclicIff(b: Tickets, x: Id, f: Id)
    requires Acyclic(b) && x in b && x != f
    ensures Acyclic(Linked(b, x, f)) <==> !Leads(b, f, x)
  {
    hide Path, Edge, Linked;
    var next := Linked(b, x, f);
    LinkedEdges(b, x, f);
    if Leads(b, f, x) {
      var q :| LeadsBy(b, q, f, x);
      MorePaths(b, next, q);
      assert LeadsBy(next, q, f, x);
      LeadsFurther(next, x, f, x);
    } else {
      forall p: seq<Id> | |p| >= 2 && Path(next, p) ensures p[0] != p[|p| - 1] {
        if p[0] == p[|p| - 1] {
          PathTail(next, p);
          AroundLink(b, x, f, p[1..]);
          CycleLeads(b, x, f, p[0], p[1]);
        }
      }
    }
  }

  lemma MorePaths(b: Tickets, next: Tickets, p: seq<Id>)
    requires Path(b, p) && forall y: Id, z: Id :: Edge(b, y, z) ==> Edge(next, y, z)
    ensures Path(next, p)
  {
    hide Edge;
  }

  lemma CycleLeads(b: Tickets, x: Id, f: Id, first: Id, second: Id)
    requires Acyclic(b) && x in b && x != f && Edge(Linked(b, x, f), first, second)
    requires Leads(b, second, first) || (Leads(b, second, x) && Leads(b, f, first))
    ensures Leads(b, f, x)
  {
    hide Path, Edge, Linked, Acyclic;
    LinkedEdges(b, x, f);
    if Edge(b, first, second) {
      if Leads(b, second, first) {
        LeadsFurther(b, first, second, first);
      } else {
        LeadsFurther(b, first, second, x);
        var p :| LeadsBy(b, p, f, first);
        LeadsOn(b, p, f, first, x);
      }
    }
  }

  /** A fix with no blockers of its own leads nowhere else. */
  lemma NoBlockersNoWay(b: Tickets, f: Id, x: Id)
    requires x != f && (f in b ==> b[f].blockers == [])
    ensures !Leads(b, f, x)
  {
    hide Path;
    forall p ensures !LeadsBy(b, p, f, x) {
      if LeadsBy(b, p, f, x) && |p| > 1 {
        PathTail(b, p);
      }
    }
  }

  /** If the fix is given its source as blocker before the link is written, the link closes a cycle. */
  lemma LinkAfterMoveCycles()
    ensures var fix := Ticket(Active, [0], true, {}, 1, Some(0));
            var b: Tickets := map[0 := Ticket(Blocked, [], false, {}, 0, None), 1 := fix];
            Acyclic(b) && !Acyclic(Linked(b, 0, 1))
  {
    var fix := Ticket(Active, [0], true, {}, 1, Some(0));
    var b: Tickets := map[0 := Ticket(Blocked, [], false, {}, 0, None), 1 := fix];
    forall p: seq<Id> | |p| >= 2 && Path(b, p) ensures p[0] != p[|p| - 1] {
      var last := |p| - 2;
      assert Edge(b, p[0], p[0 + 1]) && Edge(b, p[last], p[last + 1]);
    }
    assert Edge(b, 1, 0);
    LeadsToItself(b, 0);
    LeadsFurther(b, 1, 0, 0);
    LinkKeepsAcyclicIff(b, 0, 1);
  }

  // ---------------------------------------------------------------------
  // Heartbeats and ticket moves
  // ---------------------------------------------------------------------

  /** The marker and the title a fix proposal gets, from its source and the source's title then. */
  datatype Naming = Naming(marker: (Id, Key) -> Key, title: (Id, Key) -> Key)

  /** A collected proposal: its source, and the title the source had. */
  datatype Pending = Pending(source: Id, title: Key)

  datatype Link = Link(source: Id, fix: Id)

  /** The markers and titles a registration compares with. */
  datatype Names = Names(markers: set<Key>, titles: set<Key>)

  /**
   pending: collected proposals not yet filed. seen: the names the registration in progress has seen.
   linking: a fix that was created and not yet made a blocker. cut: fixes of runs that died there.
   */
  datatype World = World(
    board: Tickets, pending: seq<Pending>, seen: Option<Names>, linking: Option<Link>, cut: set<Id>)

  datatype Step =
    | Operators(next: Tickets)
    | Reopen
    | Collect(found: seq<Id>)
    | Scan
    | Create(fix: Id)
    | LinkFix
    | Drop
    | FileOther(id: Id, ticket: Ticket)
    | Crash

  function ProposalOf(n: Naming, p: Pending): Proposal {
    Proposal(n.marker(p.source, p.title), n.title(p.source, p.title), Some(p.source))
  }

  predicate SeenIn(n: Naming, p: Pending, names: Names) {
    Seen(ProposalOf(n, p), names.markers, names.titles)
  }

  ghost predicate Allowed(n: Naming, w: World, s: Step) {
    match s
    case Operators(next) => NormalMove(w.board, next)
    case Reopen => true
    case Collect(found) => w.linking.None? && forall x :: x in found ==> x in w.board && NeedsFix(w.board, x)
    case Scan => w.linking.None? && w.seen.None?
    case Create(fix) =>
      && w.linking.None? && w.seen.Some? && |w.pending| > 0
      && fix !in w.board && !SeenIn(n, w.pending[0], w.seen.value)
    case LinkFix => w.linking.Some?
    case Drop => |w.pending| > 0
    case FileOther(id, t) => id !in w.board && FreshTicket(t) && t.fixes == None
    case Crash => true
  }

  function AddNames(seen: Option<Names>, t: Ticket): Option<Names> {
    if seen.None? then None else Some(Names(seen.value.markers + t.markers, seen.value.titles + {t.title}))
  }

  ghost function Next(n: Naming, w: World, s: Step): World
    requires Allowed(n, w, s)
  {
    match s
    case Operators(next) => w.(board := next)
    case Reopen => w.(board := Reopened(w.board))
    case Collect(found) => w.(pending := Collected(w.board, found), seen := None)
    case Scan => w.(seen := Some(Names(OpenMarkers(w.board), OpenTitles(w.board))))
    case Create(fix) =>
      var t := TicketOf(ProposalOf(n, w.pending[0]));
      World(w.board[fix := t], w.pending[1..], AddNames(w.seen, t), Some(Link(w.pending[0].source, fix)), w.cut)
    case LinkFix => w.(board := Linked(w.board, w.linking.value.source, w.linking.value.fix), linking := None)
    case Drop => w.(pending := w.pending[1..])
    case FileOther(id, t) => w.(board := w.board[id := t], seen := AddNames(w.seen, t))
    case Crash =>
      World(w.board, [], None, None, if w.linking.Some? then w.cut + {w.linking.value.fix} else w.cut)
  }

  function Collected(b: Tickets, found: seq<Id>): (ps: seq<Pending>)
    requires forall x :: x in found ==> x in b
    ensures forall p :: p in ps ==> p.source in found && p.title == b[p.source].title
  {
    seq(|found|, i requires 0 <= i < |found| => Pending(found[i], b[found[i]].title))
  }

  // ---------------------------------------------------------------------
  // What every step keeps
  // ---------------------------------------------------------------------

  /** The promises of the board: no dependency cycle, and at most one open fix for each source. */
  ghost predicate Safe(b: Tickets) {
    Acyclic(b) && OneFixEach(b)
  }

  /** Every open fix blocks its source, but for one being linked and those of runs that died. */
  ghost predicate LinkedButCut(w: World) {
    forall f: Id, x: Id :: OpenFix(w.board, f, x) ==>
      Edge(w.board, x, f) || f in w.cut || w.linking == Some(Link(x, f))
  }

  ghost predicate Invariant(w: World) {
    && Safe(w.board) && SourcesPresent(w.board) && LinkedButCut(w)
    && (forall f :: f in w.board ==> w.board[f].fixes != Some(f))
    && (forall p :: p in w.pending ==> p.source in w.board)
    && (forall p, q :: p in w.pending && q in w.pending && p.source == q.source ==> p == q)
    && (w.linking.Some? ==>
          var l := w.linking.value;
          w.seen.Some? && l.source in w.board && l.fix in w.board && l.source != l.fix)
  }

  /** The ticket bears one of the names a proposal for the source would get. */
  predicate Bears(n: Naming, t: Ticket, p: Pending) {
    n.marker(p.source, p.title) in t.markers || t.title == n.title(p.source, p.title)
  }

  /** An open source's open fix that it does not list bears a name of its next proposal. */
  ghost predicate CutFixesBear(n: Naming, w: World) {
    forall f: Id, x: Id ::
      && OpenFix(w.board, f, x) && x in w.board && Open(w.board[x])
      && !Edge(w.board, x, f) && w.linking != Some(Link(x, f)) ==>
        Bears(n, w.board[f], Pending(x, w.board[x].title))
  }

  /** The open fix of a source in hand bears a name of the proposal, until the registration has seen one. */
  ghost predicate PendingAreSeen(n: Naming, w: World) {
    forall p: Pending, f: Id :: p in w.pending && OpenFix(w.board, f, p.source) ==>
      IsKnown(n, w.seen, w.board[f], p)
  }

  predicate IsKnown(n: Naming, seen: Option<Names>, t: Ticket, p: Pending) {
    if seen.None? then Bears(n, t, p) else SeenIn(n, p, seen.value)
  }

  /** What the next steps of a heartbeat rely on; they look at none of it. */
  ghost predicate Guarded(n: Naming, w: World) {
    && CutFixesBear(n, w)
    && PendingAreSeen(n, w)
    && (w.linking.Some? ==> !Leads(w.board, w.linking.value.fix, w.linking.value.source))
  }

  lemma SameWays(b: Tickets, next: Tickets, x: Id, y: Id)
    requires Leads(next, x, y) && forall u: Id, v: Id :: Edge(next, u, v) ==> Edge(b, u, v)
    ensures Leads(b, x, y)
  {
    hide Path, Edge;
    var p :| LeadsBy(next, p, x, y);
    MorePaths(next, b, p);
    assert LeadsBy(b, p, x, y);
  }

  lemma OperatorsKeep(n: Naming, w: World, next: Tickets)
    requires Invariant(w) && NormalMove(w.board, next)
    ensures Invariant(w.(board := next)) && KeepsEdges(w.board, next)
  {
    hide Acyclic;
    assert forall f: Id, x: Id :: OpenFix(next, f, x) ==> OpenFix(w.board, f, x);
    assert KeepsEdges(w.board, next);
  }

  lemma ReopenKeeps(n: Naming, w: World)
    requires Invariant(w) && Guarded(n, w)
    ensures var next := w.(board := Reopened(w.board));
            Invariant(next) && Guarded(n, next) && KeepsEdges(w.board, next.board)
  {
    hide Invariant, Guarded, Reopened, KeepsEdges;
    var b, next := w.board, Reopened(w.board);
    ReopenedSame(b);
    SameKeepsInvariant(w, next);
    SameKeepsGuarded(n, w, next);
  }

  /** The boards differ in states only: same edges, same open tickets, same names. */
  ghost predicate SameButStates(b: Tickets, next: Tickets) {
    && b.Keys == next.Keys
    && forall x :: x in b ==>
         && next[x].blockers == b[x].blockers && next[x].fixes == b[x].fixes
         && next[x].markers == b[x].markers && next[x].title == b[x].title
         && (Open(next[x]) <==> Open(b[x]))
  }

  lemma ReopenedSame(b: Tickets)
    ensures SameButStates(b, Reopened(b))
  {
  }

  lemma SameKeepsInvariant(w: World, next: Tickets)
    requires Invariant(w) && SameButStates(w.board, next)
    ensures Invariant(w.(board := next)) && KeepsEdges(w.board, next)
  {
    hide Acyclic, Open;
    assert forall x: Id, y: Id :: Edge(next, x, y) <==> Edge(w.board, x, y);
    assert forall f: Id, x: Id :: OpenFix(next, f, x) <==> OpenFix(w.board, f, x);
    SameEdgesAcyclic(w.board, next);
  }

  lemma SameKeepsGuarded(n: Naming, w: World, next: Tickets)
    requires Guarded(n, w) && SameButStates(w.board, next)
    ensures Guarded(n, w.(board := next))
  {
    hide Leads, Open, SeenIn;
    assert forall x: Id, y: Id :: Edge(next, x, y) <==> Edge(w.board, x, y);
    assert forall f: Id, x: Id :: OpenFix(next, f, x) <==> OpenFix(w.board, f, x);
    if w.linking.Some? && Leads(next, w.linking.value.fix, w.linking.value.source) {
      SameWays(w.board, next, w.linking.value.fix, w.linking.value.source);
    }
  }

  lemma CollectKeeps(n: Naming, w: World, found: seq<Id>)
    requires Invariant(w) && Guarded(n, w) && Allowed(n, w, Collect(found))
    ensures Invariant(Next(n, w, Collect(found))) && Guarded(n, Next(n, w, Collect(found)))
  {
    hide Acyclic, Bears;
    var next := Next(n, w, Collect(found));
    forall p: Pending, f: Id | p in next.pending && OpenFix(w.board, f, p.source) ensures Bears(n, w.board[f], p) {
      assert NeedsFix(w.board, p.source);
      assert p == Pending(p.source, w.board[p.source].title);
      assert !Edge(w.board, p.source, f);
    }
  }

  lemma ScanKeeps(n: Naming, w: World)
    requires Invariant(w) && Guarded(n, w) && Allowed(n, w, Scan)
    ensures Invariant(Next(n, w, Scan)) && Guarded(n, Next(n, w, Scan))
  {
    hide Acyclic, Leads, Edge;
    var next := Next(n, w, Scan);
    forall p: Pending, f: Id | p in next.pending && OpenFix(w.board, f, p.source)
      ensures SeenIn(n, p, next.seen.value)
    {
      assert Bears(n, w.board[f], p);
      assert w.board[f].title in OpenTitles(w.board);
    }
  }

  lemma CreateKeeps(n: Naming, w: World, fix: Id)
    requires Invariant(w) && Guarded(n, w) && Allowed(n, w, Create(fix))
    ensures var next := Next(n, w, Create(fix));
            Invariant(next) && Guarded(n, next) && KeepsEdges(w.board, next.board)
  {
    hide Acyclic, Leads, Bears, SeenIn, PendingAreSeen;
    var p := w.pending[0];
    var b, next := w.board, Next(n, w, Create(fix));
    assert p in w.pending;
    assert forall x: Id, y: Id :: Edge(next.board, x, y) <==> Edge(b, x, y);
    SameEdgesAcyclic(b, next.board);
    CreatedFixes(n, w, fix);
    assert forall q :: q in next.pending ==> q in w.pending;
    NoBlockersNoWay(next.board, fix, p.source);
    CreatedPending(n, w, fix);
  }

  lemma SeenGrows(n: Naming, q: Pending, seen: Names, t: Ticket)
    ensures SeenIn(n, q, seen) ==> SeenIn(n, q, AddNames(Some(seen), t).value)
    ensures t == TicketOf(ProposalOf(n, q)) ==> SeenIn(n, q, AddNames(Some(seen), t).value)
  {
  }

  /** The one new open fix; its source had none, for the registration has not seen its names. */
  lemma CreatedFixes(n: Naming, w: World, fix: Id)
    requires Invariant(w) && Guarded(n, w) && Allowed(n, w, Create(fix))
    ensures var next := Next(n, w, Create(fix)).board;
            && (forall g: Id, y: Id :: OpenFix(next, g, y) <==>
                  OpenFix(w.board, g, y) || (g == fix && y == w.pending[0].source))
            && forall g: Id :: !OpenFix(w.board, g, w.pending[0].source)
  {
    hide Acyclic, Leads, Edge, SeenIn;
    assert w.pending[0] in w.pending;
  }

  lemma CreatedPending(n: Naming, w: World, fix: Id)
    requires Invariant(w) && Guarded(n, w) && Allowed(n, w, Create(fix))
    ensures PendingAreSeen(n, Next(n, w, Create(fix)))
  {
    hide Safe, Leads, Edge, Seen, Bears, LinkedButCut, SourcesPresent, CutFixesBear, Open;
    var next := Next(n, w, Create(fix));
    CreatedFixes(n, w, fix);
    forall q: Pending, f: Id | q in next.pending && OpenFix(next.board, f, q.source)
      ensures SeenIn(n, q, next.seen.value)
    {
      var t := TicketOf(ProposalOf(n, w.pending[0]));
      assert q in w.pending && w.pending[0] in w.pending;
      assert next.seen == AddNames(Some(w.seen.value), t);
      SeenGrows(n, q, w.seen.value, t);
      if OpenFix(w.board, f, q.source) {
        assert PendingAreSeen(n, w) && w.seen.Some?;
        assert SeenIn(n, q, w.seen.value);
      } else {
        assert q.source == w.pending[0].source;
        assert q == w.pending[0];
      }
    }
  }

  lemma LinkKeeps(n: Naming, w: World)
    requires Invariant(w) && Guarded(n, w) && Allowed(n, w, LinkFix)
    ensures var next := Next(n, w, LinkFix);
            Invariant(next) && Guarded(n, next) && KeepsEdges(w.board, next.board)
  {
    hide Invariant, Guarded, KeepsEdges;
    LinkKeepsInvariant(n, w);
    LinkKeepsGuarded(n, w);
  }

  lemma LinkKeepsInvariant(n: Naming, w: World)
    requires Invariant(w) && Guarded(n, w) && Allowed(n, w, LinkFix)
    ensures var next := Next(n, w, LinkFix); Invariant(next) && KeepsEdges(w.board, next.board)
  {
    hide Acyclic, Leads, CutFixesBear, PendingAreSeen;
    var l := w.linking.value;
    var b, next := w.board, Linked(w.board, l.source, l.fix);
    LinkedEdges(b, l.source, l.fix);
    LinkKeepsAcyclicIff(b, l.source, l.fix);
    assert forall f: Id, x: Id :: OpenFix(next, f, x) <==> OpenFix(b, f, x);
  }

  lemma LinkKeepsGuarded(n: Naming, w: World)
    requires Invariant(w) && Guarded(n, w) && Allowed(n, w, LinkFix)
    ensures Guarded(n, Next(n, w, LinkFix))
  {
    hide Acyclic, Leads, Safe, LinkedButCut, SourcesPresent;
    var l := w.linking.value;
    var b, next := w.board, Linked(w.board, l.source, l.fix);
    LinkedEdges(b, l.source, l.fix);
    assert forall f: Id, x: Id :: OpenFix(next, f, x) <==> OpenFix(b, f, x);
  }

  lemma OthersKeep(n: Naming, w: World, s: Step)
    requires Invariant(w) && Guarded(n, w) && Allowed(n, w, s) && (s.Drop? || s.FileOther?)
    ensures Invariant(Next(n, w, s)) && Guarded(n, Next(n, w, s)) && KeepsEdges(w.board, Next(n, w, s).board)
  {
    hide Invariant, Guarded, KeepsEdges, FreshTicket;
    EdgesStay(w.board);
    if s.Drop? {
      DropKeeps(n, w);
    } else {
      FilingKeepsInvariant(n, w, s);
      FilingKeepsGuarded(n, w, s);
    }
  }

  lemma DropKeeps(n: Naming, w: World)
    requires Invariant(w) && Guarded(n, w) && Allowed(n, w, Drop)
    ensures Invariant(Next(n, w, Drop)) && Guarded(n, Next(n, w, Drop))
  {
    hide Acyclic, Leads, SeenIn, Bears;
    assert forall q :: q in w.pending[1..] ==> q in w.pending;
  }

  lemma FilingKeepsInvariant(n: Naming, w: World, s: Step)
    requires Invariant(w) && Allowed(n, w, s) && s.FileOther?
    ensures Invariant(Next(n, w, s)) && KeepsEdges(w.board, Next(n, w, s).board)
  {
    hide Acyclic;
    var next := Next(n, w, s);
    assert forall x: Id, y: Id :: Edge(next.board, x, y) <==> Edge(w.board, x, y);
    assert forall f: Id, x: Id :: OpenFix(next.board, f, x) <==> OpenFix(w.board, f, x);
    SameEdgesAcyclic(w.board, next.board);
  }

  /** A ticket that is no fix changes no edge and no open fix. */
  lemma FilingChanges(b: Tickets, id: Id, t: Ticket)
    requires id !in b && FreshTicket(t) && t.fixes == None
    ensures forall x: Id, y: Id :: Edge(b[id := t], x, y) <==> Edge(b, x, y)
    ensures forall f: Id, x: Id :: OpenFix(b[id := t], f, x) <==> OpenFix(b, f, x)
    ensures forall f: Id, x: Id :: OpenFix(b, f, x) ==> f in b
  {
  }

  lemma FilingKeepsGuarded(n: Naming, w: World, s: Step)
    requires Invariant(w) && Guarded(n, w) && Allowed(n, w, s) && s.FileOther?
    ensures Guarded(n, Next(n, w, s))
  {
    hide Safe, Leads, LinkedButCut, CutFixesBear, PendingAreSeen, FreshTicket;
    var next := Next(n, w, s);
    FilingChanges(w.board, s.id, s.ticket);
    FilingKeepsNamed(n, w, s);
    FilingKeepsSeen(n, w, s);
    if w.linking.Some? && Leads(next.board, w.linking.value.fix, w.linking.value.source) {
      SameWays(w.board, next.board, w.linking.value.fix, w.linking.value.source);
    }
  }

  lemma FilingKeepsNamed(n: Naming, w: World, s: Step)
    requires SourcesPresent(w.board) && CutFixesBear(n, w) && Allowed(n, w, s) && s.FileOther?
    ensures CutFixesBear(n, Next(n, w, s))
  {
  }

  lemma FilingKeepsSeen(n: Naming, w: World, s: Step)
    requires PendingAreSeen(n, w) && Allowed(n, w, s) && s.FileOther?
    ensures PendingAreSeen(n, Next(n, w, s))
  {
    hide SeenIn, Bears, Next, Allowed, AddNames;
    var next := Next(n, w, s);
    OtherFiled(n, w, s);
    forall p: Pending, f: Id | p in next.pending && OpenFix(next.board, f, p.source)
      ensures IsKnown(n, next.seen, next.board[f], p)
    {
      assert OpenFix(w.board, f, p.source);
      assert IsKnown(n, w.seen, w.board[f], p);
      if w.seen.Some? {
        SeenGrows(n, p, w.seen.value, s.ticket);
      }
    }
  }

  lemma OtherFiled(n: Naming, w: World, s: Step)
    requires Allowed(n, w, s) && s.FileOther?
    ensures var next := Next(n, w, s);
            && next.pending == w.pending && next.board == w.board[s.id := s.ticket]
            && s.id !in w.board && s.ticket.fixes == None
            && (w.seen.None? ==> next.seen.None?)
            && (w.seen.Some? ==> next.seen.Some? && next.seen == AddNames(Some(w.seen.value), s.ticket))
  {
  }

  lemma SourcesAreThere(b: Tickets)
    requires SourcesPresent(b)
    ensures forall f: Id, x: Id :: OpenFix(b, f, x) ==> x in b
  {
  }

  lemma CrashKeeps(n: Naming, w: World)
    requires Invariant(w)
    ensures Invariant(Next(n, w, Crash))
  {
    hide Acyclic;
  }

  lemma EdgesStay(b: Tickets)
    ensures KeepsEdges(b, b)
  {
  }

  lemma StepKeepsInvariant(n: Naming, w: World, s: Step)
    requires Invariant(w) && Guarded(n, w) && Allowed(n, w, s)
    ensures Invariant(Next(n, w, s)) && KeepsEdges(w.board, Next(n, w, s).board)
    ensures !s.Operators? && !s.Crash? ==> Guarded(n, Next(n, w, s))
  {
    hide Invariant, Guarded, KeepsEdges, Reopened, NormalMove, Leads;
    EdgesStay(w.board);
    match s
    case Operators(next) => OperatorsKeep(n, w, next);
    case Reopen => ReopenKeeps(n, w);
    case Collect(found) => CollectKeeps(n, w, found);
    case Scan => ScanKeeps(n, w);
    case Create(fix) => CreateKeeps(n, w, fix);
    case LinkFix => LinkKeeps(n, w);
    case Crash => CrashKeeps(n, w);
    case _ => OthersKeep(n, w, s);
  }

  // ---------------------------------------------------------------------
  // Runs
  // ---------------------------------------------------------------------

  ghost predicate Runs(n: Naming, w: World, steps: seq<Step>)
    decreases |steps|
  {
    |steps| == 0 || (Allowed(n, w, steps[0]) && Runs(n, Next(n, w, steps[0]), steps[1..]))
  }

  ghost function End(n: Naming, w: World, steps: seq<Step>): World
    requires Runs(n, w, steps)
    decreases |steps|
  {
    if |steps| == 0 then w else End(n, Next(n, w, steps[0]), steps[1..])
  }

  /** No operator move and no crash takes away what a guarded world relies on. */
  ghost predicate Careful(n: Naming, w: World, s: Step)
    requires Allowed(n, w, s)
  {
    (s.Operators? || s.Crash?) && Guarded(n, w) ==> Guarded(n, Next(n, w, s))
  }

  ghost predicate CarefulRun(n: Naming, w: World, steps: seq<Step>)
    decreases |steps|
  {
    |steps| == 0 ||
    (Allowed(n, w, steps[0]) && Careful(n, w, steps[0]) && CarefulRun(n, Next(n, w, steps[0]), steps[1..]))
  }

  lemma {:induction false} CarefulRuns(n: Naming, w: World, steps: seq<Step>)
    requires CarefulRun(n, w, steps)
    ensures Runs(n, w, steps)
    decreases |steps|
  {
    hide Allowed, Next, Careful;
    if |steps| > 0 {
      CarefulRuns(n, Next(n, w, steps[0]), steps[1..]);
    }
  }

  /**
   Any run of heartbeats, cut short anywhere, and of normal moves that leave the world guarded: the
   graph stays acyclic, every edge stays, and no source ever has two open fix tickets.
   */
  lemma {:induction false} RunKeepsBoardSound(n: Naming, w: World, steps: seq<Step>)
    requires Invariant(w) && Guarded(n, w) && CarefulRun(n, w, steps)
    ensures Runs(n, w, steps)
    ensures Invariant(End(n, w, steps)) && Guarded(n, End(n, w, steps)) && KeepsEdges(w.board, End(n, w, steps).board)
    decreases |steps|
  {
    hide Invariant, Guarded, Allowed, Next, KeepsEdges;
    if |steps| > 0 {
      var next := Next(n, w, steps[0]);
      StepKeepsInvariant(n, w, steps[0]);
      RunKeepsBoardSound(n, next, steps[1..]);
      EdgesKept(w.board, next.board, End(n, w, steps).board);
    } else {
      EdgesStay(w.board);
    }
  }

  /** Between heartbeats every open fix blocks its source, unless a run died after creating it. */
  lemma SoundUnlessCut(w: World)
    requires Invariant(w) && w.linking.None?
    ensures Sound(w.board) || exists f: Id, x: Id :: f in w.cut && OpenFix(w.board, f, x) && !Edge(w.board, x, f)
  {
    hide Acyclic;
  }

  // ---------------------------------------------------------------------
  // Moves and crashes that are not careful
  // ---------------------------------------------------------------------

  /** Whatever careful steps follow, the board keeps its promises. */
  ghost predicate StaysSafe(n: Naming, w: World) {
    forall steps :: CarefulRun(n, w, steps) && Runs(n, w, steps) ==> Safe(End(n, w, steps).board)
  }

  lemma GuardedStaysSafe(n: Naming, w: World)
    requires Invariant(w) && Guarded(n, w)
    ensures StaysSafe(n, w)
  {
    hide Guarded, CarefulRun, Runs, End, Safe;
    forall steps | CarefulRun(n, w, steps) && Runs(n, w, steps) ensures Safe(End(n, w, steps).board) {
      RunKeepsBoardSound(n, w, steps);
    }
  }

  lemma UnsafeNow(n: Naming, w: World)
    requires !Safe(w.board)
    ensures !StaysSafe(n, w)
  {
    assert CarefulRun(n, w, []) && Runs(n, w, []) && End(n, w, []) == w;
  }

  lemma UnsafeLater(n: Naming, w: World, s: Step)
    requires Allowed(n, w, s) && Careful(n, w, s) && !StaysSafe(n, Next(n, w, s))
    ensures !StaysSafe(n, w)
  {
    hide Allowed, Next, Careful, Safe;
    var rest :| CarefulRun(n, Next(n, w, s), rest) && Runs(n, Next(n, w, s), rest)
                && !Safe(End(n, Next(n, w, s), rest).board);
    var steps := [s] + rest;
    assert steps[0] == s && steps[1..] == rest;
    assert CarefulRun(n, w, steps) && Runs(n, w, steps);
  }

  /** All tickets but some closed: a normal move. */
  function Shut(b: Tickets, kept: set<Id>): Tickets {
    map z | z in b :: if z in kept then b[z] else b[z].(status := Resolved)
  }

  lemma ShutIsNormal(b: Tickets, kept: set<Id>)
    requires Acyclic(b)
    ensures NormalMove(b, Shut(b, kept)) && Acyclic(Shut(b, kept))
  {
    hide Acyclic;
    assert forall x: Id, y: Id :: Edge(Shut(b, kept), x, y) <==> Edge(b, x, y);
    SameEdgesAcyclic(b, Shut(b, kept));
  }

  lemma {:induction false} FreshId(used: set<Id>) returns (id: Id)
    ensures forall x :: x in used ==> x < id
    decreases |used|
  {
    id := 0;
    if used != {} {
      var q: Id :| q in used;
      var above := FreshId(used - {q});
      id := if q < above then above else q + 1;
      forall r | r in used ensures r < id {
        assert r == q || r in used - {q};
      }
    }
  }

  /** Only one ticket is open, a fix of the first proposal's source that bears none of its names. */
  ghost predicate OnlyThisFix(n: Naming, w: World, f: Id) {
    && w.linking.None? && w.seen.None? && |w.pending| > 0
    && OpenFix(w.board, f, w.pending[0].source) && w.pending[0].source in w.board
    && !Bears(n, w.board[f], w.pending[0])
    && forall g :: g in w.board && g != f ==> !Open(w.board[g])
  }

  lemma SecondFixAhead(n: Naming, w: World, f: Id)
    requires OnlyThisFix(n, w, f)
    ensures !StaysSafe(n, w)
  {
    hide StaysSafe, Acyclic;
    var scanned := Next(n, w, Scan);
    OnlyItsNames(w.board, f);
    assert !SeenIn(n, w.pending[0], scanned.seen.value);
    var id := FreshId(w.board.Keys);
    assert Allowed(n, scanned, Create(id));
    var created := Next(n, scanned, Create(id));
    assert OpenFix(created.board, f, w.pending[0].source) && OpenFix(created.board, id, w.pending[0].source);
    assert f in w.board && f != id;
    assert !OneFixEach(created.board);
    UnsafeNow(n, created);
    UnsafeLater(n, scanned, Create(id));
    UnsafeLater(n, w, Scan);
  }

  lemma OnlyItsNames(b: Tickets, f: Id)
    requires f in b && forall g :: g in b && g != f ==> !Open(b[g])
    ensures OpenMarkers(b) <= b[f].markers && OpenTitles(b) <= {b[f].title}
  {
  }

  /** The proposals before the one that is wanted can be dropped. */
  lemma {:induction false} DropToUnsafe(n: Naming, w: World, f: Id, k: nat)
    requires k < |w.pending| && OnlyThisFix(n, w.(pending := w.pending[k..]), f)
    ensures !StaysSafe(n, w)
    decreases k
  {
    hide StaysSafe, OnlyThisFix;
    if k == 0 {
      assert w.pending[0..] == w.pending;
      SecondFixAhead(n, w, f);
    } else {
      var dropped := Next(n, w, Drop);
      assert dropped.pending[k - 1..] == w.pending[k..];
      DropToUnsafe(n, dropped, f, k - 1);
      UnsafeLater(n, w, Drop);
    }
  }

  /** The fix of a source in hand has lost both names before the registration looks. */
  lemma UnseenPendingUnsafe(n: Naming, w: World, p: Pending, f: Id)
    requires Invariant(w) && p in w.pending && w.seen.None?
    requires OpenFix(w.board, f, p.source) && !Bears(n, w.board[f], p)
    ensures !StaysSafe(n, w)
  {
    hide StaysSafe, Acyclic, Bears, OnlyThisFix, Edge, OpenFix, Shut, NormalMove;
    var next := Shut(w.board, {f});
    ShutIsNormal(w.board, {f});
    var k :| 0 <= k < |w.pending| && w.pending[k] == p;
    ShutLeavesOne(n, w, p, f, k);
    DropToUnsafe(n, w.(board := next), f, k);
    assert !PendingAreSeen(n, w);
    UnsafeLater(n, w, Operators(next));
  }

  lemma ShutLeavesOne(n: Naming, w: World, p: Pending, f: Id, k: nat)
    requires Invariant(w) && k < |w.pending| && w.pending[k] == p && w.seen.None?
    requires OpenFix(w.board, f, p.source) && !Bears(n, w.board[f], p)
    ensures OnlyThisFix(n, w.(board := Shut(w.board, {f}), pending := w.pending[k..]), f)
  {
    hide Safe, LinkedButCut, Bears;
    assert w.pending[k..][0] == p;
  }

  /** The unlisted fix of an open source bears neither name, and no heartbeat is in progress. */
  lemma UnnamedFixUnsafe(n: Naming, w: World, f: Id, x: Id)
    requires Invariant(w) && w.linking.None?
    requires OpenFix(w.board, f, x) && x in w.board && Open(w.board[x]) && !Edge(w.board, x, f)
    requires !Bears(n, w.board[f], Pending(x, w.board[x].title))
    ensures !StaysSafe(n, w)
  {
    hide StaysSafe, Acyclic;
    var stuck := Shut(w.board, {f, x})[x := w.board[x].(status := Blocked)];
    StuckIsNormal(w.board, f, x);
    var one := w.(board := stuck);
    OperatorsKeep(n, w, stuck);
    var p := Pending(x, w.board[x].title);
    var two := Next(n, one, Collect([x]));
    assert two.pending == [p];
    CollectedInvariant(n, one, x);
    UnseenPendingUnsafe(n, two, p, f);
    UnsafeLater(n, one, Collect([x]));
    assert !CutFixesBear(n, w);
    UnsafeLater(n, w, Operators(stuck));
  }

  lemma StuckIsNormal(b: Tickets, f: Id, x: Id)
    requires Acyclic(b) && OpenFix(b, f, x) && x in b && Open(b[x]) && !Edge(b, x, f) && f != x
    ensures var stuck := Shut(b, {f, x})[x := b[x].(status := Blocked)];
            NormalMove(b, stuck) && NeedsFix(stuck, x) && OpenFix(stuck, f, x)
  {
    hide Acyclic;
    var stuck := Shut(b, {f, x})[x := b[x].(status := Blocked)];
    assert forall u: Id, v: Id :: Edge(stuck, u, v) <==> Edge(b, u, v);
    SameEdgesAcyclic(b, stuck);
    assert !Edge(b, x, x) by {
      NoSelfEdge(b, x);
    }
  }

  lemma NoSelfEdge(b: Tickets, x: Id)
    requires Acyclic(b)
    ensures !Edge(b, x, x)
  {
    if Edge(b, x, x) {
      LeadsToItself(b, x);
      LeadsFurther(b, x, x, x);
    }
  }

  lemma CollectedInvariant(n: Naming, w: World, x: Id)
    requires Invariant(w) && Allowed(n, w, Collect([x]))
    ensures Invariant(Next(n, w, Collect([x])))
  {
    hide Acyclic, Edge;
  }

  lemma UnguardedUnsafe(n: Naming, w: World)
    requires Invariant(w) && !Guarded(n, w) && (w.seen.Some? ==> PendingAreSeen(n, w))
    ensures !StaysSafe(n, w)
  {
    hide StaysSafe, Acyclic, Leads, Bears, SeenIn;
    if w.linking.Some? && Leads(w.board, w.linking.value.fix, w.linking.value.source) {
      CycleUnsafe(n, w);
    } else if !PendingAreSeen(n, w) {
      var p: Pending, f: Id :| p in w.pending && OpenFix(w.board, f, p.source) && !Bears(n, w.board[f], p);
      UnseenPendingUnsafe(n, w, p, f);
    } else {
      CutFixUnsafe(n, w);
    }
  }

  lemma CycleUnsafe(n: Naming, w: World)
    requires Invariant(w) && w.linking.Some? && Leads(w.board, w.linking.value.fix, w.linking.value.source)
    ensures !StaysSafe(n, w)
  {
    hide StaysSafe, Acyclic, Leads;
    var l := w.linking.value;
    LinkKeepsAcyclicIff(w.board, l.source, l.fix);
    UnsafeNow(n, Next(n, w, LinkFix));
    UnsafeLater(n, w, LinkFix);
  }

  lemma CutFixUnsafe(n: Naming, w: World)
    requires Invariant(w) && !CutFixesBear(n, w)
    ensures !StaysSafe(n, w)
  {
    hide StaysSafe, Acyclic, Leads, Bears;
    var f: Id, x: Id :|
      && OpenFix(w.board, f, x) && x in w.board && Open(w.board[x])
      && !Edge(w.board, x, f) && w.linking != Some(Link(x, f))
      && !Bears(n, w.board[f], Pending(x, w.board[x].title));
    if w.linking.None? {
      UnnamedFixUnsafe(n, w, f, x);
    } else {
      var crashed := Next(n, w, Crash);
      CrashKeeps(n, w);
      UnnamedFixUnsafe(n, crashed, f, x);
      UnsafeLater(n, w, Crash);
    }
  }

  /**
   Every operator move and every crash is safe in all careful continuations exactly when it leaves the
   world guarded; every other step always is.
   */
  lemma StepIsSafeIff(n: Naming, w: World, s: Step)
    requires Invariant(w) && Guarded(n, w) && Allowed(n, w, s)
    ensures StaysSafe(n, Next(n, w, s)) <==> Guarded(n, Next(n, w, s))
    ensures !s.Operators? && !s.Crash? ==> StaysSafe(n, Next(n, w, s))
  {
    hide StaysSafe, Invariant, Allowed;
    var next := Next(n, w, s);
    StepKeepsInvariant(n, w, s);
    if Guarded(n, next) {
      GuardedStaysSafe(n, next);
    } else {
      SeenStaySeen(n, w, s);
      UnguardedUnsafe(n, next);
    }
  }

  lemma SeenStaySeen(n: Naming, w: World, s: Step)
    requires Invariant(w) && Guarded(n, w) && Allowed(n, w, s) && (s.Operators? || s.Crash?)
    ensures var next := Next(n, w, s); next.seen.Some? ==> PendingAreSeen(n, next)
  {
    hide Acyclic, Leads;
    var next := Next(n, w, s);
    assert forall f: Id, x: Id :: OpenFix(next.board, f, x) ==> OpenFix(w.board, f, x);
  }

  /**
   A run that dies while it links a fix does no harm exactly when the fix, if both are still open and the
   link is not there already, bears one of the names its source would give it now.
   */
  lemma CrashIsSafeIff(n: Naming, w: World)
    requires Invariant(w) && Guarded(n, w) && w.linking.Some?
    ensures var l := w.linking.value;
            StaysSafe(n, Next(n, w, Crash)) <==>
              (OpenFix(w.board, l.fix, l.source) && Open(w.board[l.source]) && !Edge(w.board, l.source, l.fix) ==>
                 Bears(n, w.board[l.fix], Pending(l.source, w.board[l.source].title)))
  {
    hide StaysSafe, Acyclic, Leads, Bears;
    StepIsSafeIff(n, w, Crash);
  }

  function Retitled(b: Tickets, x: Id, title: Key): Tickets
    requires x in b
  {
    b[x := b[x].(title := title)]
  }

  lemma RetitlingChanges(b: Tickets, x: Id, title: Key)
    requires x in b && b[x].fixes == None && Acyclic(b)
    ensures var next := Retitled(b, x, title);
            && NormalMove(b, next)
            && (forall u: Id, v: Id :: Edge(next, u, v) <==> Edge(b, u, v))
            && (forall g: Id, y: Id :: OpenFix(next, g, y) <==> OpenFix(b, g, y))
            && (forall g: Id, y: Id :: OpenFix(next, g, y) ==> g in b && g in next && next[g] == b[g])
  {
    hide Acyclic;
    assert forall u: Id, v: Id :: Edge(Retitled(b, x, title), u, v) <==> Edge(b, u, v);
    SameEdgesAcyclic(b, Retitled(b, x, title));
  }

  lemma RetitledIsGuardedIff(n: Naming, w: World, f: Id, x: Id, title: Key)
    requires Invariant(w) && Guarded(n, w) && w.linking.None? && w.pending == []
    requires OpenFix(w.board, f, x) && x in w.board && Open(w.board[x]) && !Edge(w.board, x, f)
    requires w.board[x].fixes == None
    ensures Guarded(n, w.(board := Retitled(w.board, x, title))) <==> Bears(n, w.board[f], Pending(x, title))
  {
    hide Acyclic, Leads, Bears, Edge, OpenFix, NormalMove, LinkedButCut, SourcesPresent;
    var b, next := w.board, Retitled(w.board, x, title);
    RetitlingChanges(b, x, title);
    assert OpenFix(next, f, x) && !Edge(next, x, f) && next[x].title == title;
    SourcesAreThere(b);
    forall g: Id, y: Id | OpenFix(next, g, y) && y in next && Open(next[y]) && !Edge(next, y, g) && (y == x ==> g == f)
      ensures y == x || Bears(n, next[g], Pending(y, next[y].title))
    {
      assert OpenFix(b, g, y);
    }
  }

  /**
   With no heartbeat in progress, a source whose open fix was cut off gets a new title: no continuation
   gives it a second one exactly when the fix bears one of the names that go with the new title.
   */
  lemma RetitleIsSafeIff(n: Naming, w: World, f: Id, x: Id, title: Key)
    requires Invariant(w) && Guarded(n, w) && w.linking.None? && w.pending == []
    requires OpenFix(w.board, f, x) && x in w.board && Open(w.board[x]) && !Edge(w.board, x, f)
    requires w.board[x].fixes == None
    ensures var retitle := Operators(Retitled(w.board, x, title));
            && Allowed(n, w, retitle)
            && (StaysSafe(n, Next(n, w, retitle)) <==> Bears(n, w.board[f], Pending(x, title)))
  {
    hide StaysSafe, Acyclic, Leads, Bears, Guarded, Edge, NormalMove;
    RetitlingChanges(w.board, x, title);
    RetitledIsGuardedIff(n, w, f, x, title);
    StepIsSafeIff(n, w, Operators(Retitled(w.board, x, title)));
  }

  // ---------------------------------------------------------------------
  // Runs that do not die
  // ---------------------------------------------------------------------

  /** Every open fix blocks its source or is being linked, and sources in hand got theirs from this run. */
  ghost predicate AllLinked(w: World) {
    && (forall f: Id, x: Id :: OpenFix(w.board, f, x) ==> Edge(w.board, x, f) || w.linking == Some(Link(x, f)))
    && (w.seen.None? ==> forall p: Pending, f: Id :: p in w.pending ==> !OpenFix(w.board, f, p.source))
  }

  /** The next board keeps every edge and has no other open fix. */
  ghost predicate NoNewFix(b: Tickets, next: Tickets) {
    KeepsEdges(b, next) && forall f: Id, x: Id :: OpenFix(next, f, x) ==> OpenFix(b, f, x)
  }

  lemma NoNewFixKeepsLinked(w: World, next: World)
    requires AllLinked(w) && NoNewFix(w.board, next.board) && next.linking == w.linking
    requires next.seen.None? ==> w.seen.None? && forall p :: p in next.pending ==> p in w.pending
    ensures AllLinked(next)
  {
    hide Edge, OpenFix;
  }

  lemma OperatorsAddNoFix(b: Tickets, next: Tickets)
    requires NormalMove(b, next)
    ensures NoNewFix(b, next)
  {
    hide Acyclic;
  }

  lemma SameAddsNoFix(b: Tickets, next: Tickets)
    requires SameButStates(b, next)
    ensures NoNewFix(b, next)
  {
    hide Open;
  }

  lemma NormalStepKeepsLinked(n: Naming, w: World, s: Step)
    requires Invariant(w) && AllLinked(w) && Allowed(n, w, s) && !s.Crash?
    ensures AllLinked(Next(n, w, s))
  {
    hide AllLinked, NoNewFix, NormalMove, SameButStates, Invariant, Reopened, NeedsFix, FreshTicket;
    var next := Next(n, w, s);
    match s
    case Operators(b) =>
      OperatorsAddNoFix(w.board, b);
      NoNewFixKeepsLinked(w, next);
    case Reopen =>
      ReopenedSame(w.board);
      SameAddsNoFix(w.board, next.board);
      NoNewFixKeepsLinked(w, next);
    case Collect(found) => CollectKeepsLinked(n, w, found);
    case Create(fix) => CreateKeepsLinked(n, w, fix);
    case LinkFix => LinkKeepsLinked(n, w);
    case _ => RestKeepLinked(n, w, s);
  }

  lemma CollectKeepsLinked(n: Naming, w: World, found: seq<Id>)
    requires AllLinked(w) && Allowed(n, w, Collect(found))
    ensures AllLinked(Next(n, w, Collect(found)))
  {
    hide NeedsFix, Edge, OpenFix;
    forall x: Id, f: Id | x in found ensures !OpenFix(w.board, f, x) {
      StuckHasNone(w, x, f);
    }
  }

  lemma StuckHasNone(w: World, x: Id, f: Id)
    requires AllLinked(w) && w.linking.None? && x in w.board && NeedsFix(w.board, x)
    ensures !OpenFix(w.board, f, x)
  {
  }

  lemma CreateKeepsLinked(n: Naming, w: World, fix: Id)
    requires AllLinked(w) && Allowed(n, w, Create(fix))
    ensures AllLinked(Next(n, w, Create(fix)))
  {
    hide SeenIn;
    var next := Next(n, w, Create(fix)).board;
    assert forall x: Id, y: Id :: Edge(next, x, y) <==> Edge(w.board, x, y);
  }

  lemma LinkKeepsLinked(n: Naming, w: World)
    requires Invariant(w) && AllLinked(w) && w.linking.Some?
    ensures AllLinked(Next(n, w, LinkFix))
  {
    hide Safe, LinkedButCut;
    var l := w.linking.value;
    LinkedEdges(w.board, l.source, l.fix);
    assert forall f: Id, x: Id :: OpenFix(Linked(w.board, l.source, l.fix), f, x) ==> OpenFix(w.board, f, x);
  }

  lemma RestKeepLinked(n: Naming, w: World, s: Step)
    requires AllLinked(w) && Allowed(n, w, s) && (s.Scan? || s.Drop? || s.FileOther?)
    ensures AllLinked(Next(n, w, s))
  {
    hide Edge, OpenFix, FreshTicket, AllLinked;
    if s.FileOther? {
      FilingChanges(w.board, s.id, s.ticket);
    }
    NoNewFixKeepsLinked(w, Next(n, w, s));
  }

  /** No retitling, and no other change of names, matters to runs that do not die. */
  lemma LinkedIsNamed(n: Naming, w: World)
    requires AllLinked(w) && (w.seen.Some? ==> PendingAreSeen(n, w))
    ensures CutFixesBear(n, w) && PendingAreSeen(n, w)
  {
    hide Bears;
  }

  /** The operators put no way from a fix to its source before the link is written. */
  ghost predicate LeavesLinkOpen(n: Naming, w: World, s: Step) {
    s.Operators? && w.linking.Some? ==> !Leads(s.next, w.linking.value.fix, w.linking.value.source)
  }

  ghost predicate UncutRun(n: Naming, w: World, steps: seq<Step>)
    decreases |steps|
  {
    |steps| == 0 ||
    (Allowed(n, w, steps[0]) && !steps[0].Crash? && LeavesLinkOpen(n, w, steps[0])
     && UncutRun(n, Next(n, w, steps[0]), steps[1..]))
  }

  lemma UncutStepIsCareful(n: Naming, w: World, s: Step)
    requires Invariant(w) && Guarded(n, w) && AllLinked(w) && Allowed(n, w, s) && !s.Crash? && LeavesLinkOpen(n, w, s)
    ensures Careful(n, w, s) && AllLinked(Next(n, w, s))
  {
    hide Invariant, AllLinked, NormalMove, Leads, CutFixesBear, PendingAreSeen;
    NormalStepKeepsLinked(n, w, s);
    if s.Operators? {
      SeenStaySeen(n, w, s);
      LinkedIsNamed(n, Next(n, w, s));
    }
  }

  /**
   Whatever tickets and fixes are called meanwhile, a run of heartbeats none of which dies keeps the board
   sound: no cycle, every edge kept, one open fix for each source and that one its blocker or about to be.
   */
  lemma {:induction false} UncutRunIsSound(n: Naming, w: World, steps: seq<Step>)
    requires Invariant(w) && Guarded(n, w) && AllLinked(w) && UncutRun(n, w, steps)
    ensures CarefulRun(n, w, steps) && Runs(n, w, steps)
    ensures var end := End(n, w, steps);
            Safe(end.board) && AllLinked(end) && KeepsEdges(w.board, end.board)
    decreases |steps|
  {
    hide Invariant, Guarded, AllLinked, Allowed, Next, KeepsEdges, Careful, LeavesLinkOpen;
    if |steps| > 0 {
      var next := Next(n, w, steps[0]);
      UncutStepIsCareful(n, w, steps[0]);
      StepKeepsInvariant(n, w, steps[0]);
      CarefulIsGuarded(n, w, steps[0]);
      UncutRunIsSound(n, next, steps[1..]);
      EdgesKept(w.board, next.board, End(n, w, steps).board);
    } else {
      EdgesStay(w.board);
      InvariantIsSafe(w);
    }
  }

  lemma CarefulIsGuarded(n: Naming, w: World, s: Step)
    requires Invariant(w) && Guarded(n, w) && Allowed(n, w, s) && Careful(n, w, s)
    ensures Guarded(n, Next(n, w, s))
  {
    hide Invariant, Guarded, Allowed;
    StepKeepsInvariant(n, w, s);
  }

  lemma InvariantIsSafe(w: World)
    requires Invariant(w)
    ensures Safe(w.board)
  {
  }

  // ---------------------------------------------------------------------
  // A run that dies
  // ---------------------------------------------------------------------

  function StuckTicket(): Ticket { Ticket(Blocked, [], false, {}, 5, None) }

  function FixOfStuck(n: Naming): Ticket { TicketOf(ProposalOf(n, Pending(0, 5))) }

  /** After the crash the source does not list its fix, and the next heartbeat collects it again. */
  lemma CrashLeavesFixUnlinked(n: Naming)
    ensures var b: Tickets := map[0 := StuckTicket()];
            var steps := [Collect([0]), Scan, Create(1), Crash];
            var start := World(b, [], None, None, {});
            && n.title(0, 5) != 5 ==>
                 && Invariant(start) && Guarded(n, start) && Runs(n, start, steps)
                 && End(n, start, steps) == CutWorld(n)
                 && !Edge(CutWorld(n).board, 0, 1) && NeedsFix(CutWorld(n).board, 0)
  {
    hide Acyclic, Runs, End, Next, Allowed, Guarded, Invariant;
    if n.title(0, 5) != 5 {
      var b: Tickets := map[0 := StuckTicket()];
      var start := World(b, [], None, None, {});
      var one := World(b, [Pending(0, 5)], None, None, {});
      var two := one.(seen := Some(Names({}, {5})));
      StartIsFine(n, start);
      FirstTwoSteps(n, b);
      LastTwoSteps(n, b);
      var three := Next(n, two, Create(1));
      RunsEnd(n, CutWorld(n));
      StepThenRun(n, three, Crash, []);
      assert [Crash] + [] == [Crash];
      StepThenRun(n, two, Create(1), [Crash]);
      assert [Create(1)] + [Crash] == [Create(1), Crash];
      StepThenRun(n, one, Scan, [Create(1), Crash]);
      assert [Scan] + [Create(1), Crash] == [Scan, Create(1), Crash];
      StepThenRun(n, start, Collect([0]), [Scan, Create(1), Crash]);
      assert [Collect([0])] + [Scan, Create(1), Crash] == [Collect([0]), Scan, Create(1), Crash];
    }
  }

  function CutWorld(n: Naming): World {
    World(map[0 := StuckTicket(), 1 := FixOfStuck(n)], [], None, None, {1})
  }

  lemma StartIsFine(n: Naming, w: World)
    requires w == World(map[0 := StuckTicket()], [], None, None, {})
    ensures Invariant(w) && Guarded(n, w)
  {
    hide Acyclic, Leads;
    NoEdgesAcyclic(w.board);
  }

  lemma FirstTwoSteps(n: Naming, b: Tickets)
    requires b == map[0 := StuckTicket()]
    ensures var start, one := World(b, [], None, None, {}), World(b, [Pending(0, 5)], None, None, {});
            && Allowed(n, start, Collect([0])) && Next(n, start, Collect([0])) == one
            && Allowed(n, one, Scan) && Next(n, one, Scan) == one.(seen := Some(Names({}, {5})))
  {
    var start := World(b, [], None, None, {});
    assert Allowed(n, start, Collect([0]));
    assert Next(n, start, Collect([0])).pending == [Pending(0, 5)];
    assert OpenMarkers(b) == {};
    assert OpenTitles(b) == {5};
  }

  lemma LastTwoSteps(n: Naming, b: Tickets)
    requires b == map[0 := StuckTicket()] && n.title(0, 5) != 5
    ensures var two := World(b, [Pending(0, 5)], Some(Names({}, {5})), None, {});
            && Allowed(n, two, Create(1))
            && var three := Next(n, two, Create(1));
               Allowed(n, three, Crash) && Next(n, three, Crash) == CutWorld(n)
  {
    var two := World(b, [Pending(0, 5)], Some(Names({}, {5})), None, {});
    assert Allowed(n, two, Create(1));
    assert Next(n, two, Create(1)).board == CutWorld(n).board;
    assert [Pending(0, 5)][1..] == [];
    assert {} + {1} == {1};
  }

  lemma RunsEnd(n: Naming, w: World)
    ensures Runs(n, w, []) && End(n, w, []) == w
  {
  }

  lemma StepThenRun(n: Naming, w: World, s: Step, rest: seq<Step>)
    requires Allowed(n, w, s) && Runs(n, Next(n, w, s), rest)
    ensures Runs(n, w, [s] + rest) && End(n, w, [s] + rest) == End(n, Next(n, w, s), rest)
  {
    hide Allowed, Next;
    assert ([s] + rest)[1..] == rest;
  }

  lemma NoEdgesAcyclic(b: Tickets)
    requires forall x :: x in b ==> b[x].blockers == []
    ensures Acyclic(b)
  {
    forall p: seq<Id> | |p| >= 2 ensures !Path(b, p) {
      assert !Edge(b, p[0], p[0 + 1]);
    }
  }

  /** There the crash itself is harmless; a new title for the source that changes both names is not. */
  lemma RetitleAfterCrashIsUnsafe(n: Naming)
    requires n.marker(0, 5) != n.marker(0, 6) && n.title(0, 5) != n.title(0, 6)
    ensures var w := CutWorld(n);
            var retitle := Operators(Retitled(w.board, 0, 6));
            && StaysSafe(n, w) && Allowed(n, w, retitle) && !StaysSafe(n, Next(n, w, retitle))
  {
    hide StaysSafe, Acyclic, Leads, Allowed, Next;
    var w := CutWorld(n);
    NoEdgesAcyclic(w.board);
    CutWorldIsFine(n);
    GuardedStaysSafe(n, w);
    RetitleIsSafeIff(n, w, 1, 0, 6);
  }

  lemma CutWorldIsFine(n: Naming)
    ensures Invariant(CutWorld(n)) && Guarded(n, CutWorld(n))
    ensures var b := CutWorld(n).board;
            OpenFix(b, 1, 0) && Open(b[0]) && !Edge(b, 0, 1) && b[0].fixes == None
  {
    hide Acyclic, Leads;
    var w := CutWorld(n);
    NoEdgesAcyclic(w.board);
    assert forall f: Id, x: Id :: OpenFix(w.board, f, x) ==> f == 1 && x == 0;
  }

  /** What a registration has filed it does not file again: a proposal with one of its names is seen from then on. */
  lemma FiledIsSeen(n: Naming, w: World, s: Step, p: Pending)
    requires Allowed(n, w, s) && w.seen.Some? && (s.FileOther? || s.Create?)
    requires var t := if s.FileOther? then s.ticket else TicketOf(ProposalOf(n, w.pending[0]));
             n.marker(p.source, p.title) in t.markers || n.title(p.source, p.title) == t.title
    ensures var next := Next(n, w, s);
            next.seen.Some? && SeenIn(n, p, next.seen.value)
            && forall q: Pending :: SeenIn(n, q, w.seen.value) ==> SeenIn(n, q, next.seen.value)
  {
  }
}
