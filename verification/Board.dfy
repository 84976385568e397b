/**
 The self-filing board of the continuous-improvement heartbeat
 (src/symphony/continuous_improvement.py): filing fix tickets for stuck
 sources, linking them as blockers, and handing sources back.

 Ticket states are grouped the way the code tests them; dedupe keys and
 identifiers are compared only for equality.
 */
module Board {
  import opened Prelude

  type Id = nat
  type Key = nat

  /** Resolved: done, archive, archived, closed. Abandoned: the other closed states. */
  datatype Status = Active | Blocked | HumanReview | Resolved | Abandoned

  datatype Ticket = Ticket(
    status: Status, blockers: seq<Id>, ci: bool, markers: set<Key>, title: Key, fixes: Option<Id>)

  type Tickets = map<Id, Ticket>

  predicate Open(t: Ticket) { t.status != Resolved && t.status != Abandoned }

  predicate Edge(b: Tickets, x: Id, y: Id) { x in b && y in b[x].blockers }

  // ---------------------------------------------------------------------
  // Dependency cycles
  // ---------------------------------------------------------------------

  ghost predicate Path(b: Tickets, p: seq<Id>) {
    forall i :: 0 <= i < |p| - 1 ==> Edge(b, p[i], p[i + 1])
  }

  ghost predicate Acyclic(b: Tickets) {
    forall p: seq<Id> :: |p| >= 2 && Path(b, p) ==> p[0] != p[|p| - 1]
  }

  // ---------------------------------------------------------------------
  // Operations on the board
  // ---------------------------------------------------------------------

  /** `_link_blocker`: additive, and nothing on a self-edge, a missing source or an existing edge. */
  function Linked(b: Tickets, source: Id, fix: Id): Tickets {
    if source == fix || source !in b || fix in b[source].blockers then b
    else b[source := b[source].(blockers := b[source].blockers + [fix])]
  }

  function Filed(b: Tickets, fix: Id, t: Ticket): Tickets {
    var created := b[fix := t];
    if t.fixes.Some? then Linked(created, t.fixes.value, fix) else created
  }

  /** A fresh ticket: no blockers of its own, in an active lane. */
  predicate FreshTicket(t: Ticket) {
    t.status == Active && t.blockers == [] && t.ci
  }

  predicate Reopenable(b: Tickets, x: Id)
    requires x in b
  {
    && b[x].status == Blocked
    && |b[x].blockers| > 0
    && (forall y :: y in b[x].blockers ==> y in b && b[y].status == Resolved)
    && exists y :: y in b[x].blockers && y in b && b[y].ci
  }

  function Reopened(b: Tickets): Tickets {
    map x | x in b :: if Reopenable(b, x) then b[x].(status := Active) else b[x]
  }

  /** A stuck source nothing open is blocking yet. */
  predicate NeedsFix(b: Tickets, x: Id)
    requires x in b
  {
    && (b[x].status == Blocked || b[x].status == HumanReview)
    && forall y :: y in b[x].blockers ==> y !in b || !Open(b[y])
  }

  /**
   What operators and agents do meanwhile: move tickets, add tickets and
   edges, but keep edges, keep closed tickets closed and add no cycle.
   */
  ghost predicate NormalMove(b: Tickets, next: Tickets) {
    && b.Keys <= next.Keys
    && (forall x :: x in b ==>
          && next[x].fixes == b[x].fixes
          && (!Open(b[x]) ==> !Open(next[x]))
          && (forall y :: y in b[x].blockers ==> y in next[x].blockers))
    && (forall x :: x in next && x !in b ==> next[x].fixes == None)
    && Acyclic(next)
  }

  // ---------------------------------------------------------------------
  // What every step keeps
  // ---------------------------------------------------------------------

  ghost predicate OpenFix(b: Tickets, f: Id, x: Id) {
    f in b && Open(b[f]) && b[f].fixes == Some(x)
  }

  ghost predicate SourcesPresent(b: Tickets) {
    forall f :: f in b && b[f].fixes.Some? ==> b[f].fixes.value in b
  }

  /** Every open fix blocks its source. */
  ghost predicate FixesLinked(b: Tickets) {
    forall f: Id, x: Id :: OpenFix(b, f, x) ==> Edge(b, x, f)
  }

  ghost predicate OneFixEach(b: Tickets) {
    forall f: Id, g: Id, x: Id :: OpenFix(b, f, x) && OpenFix(b, g, x) ==> f == g
  }

  ghost predicate Sound(b: Tickets) {
    Acyclic(b) && SourcesPresent(b) && FixesLinked(b) && OneFixEach(b)
  }

  ghost predicate KeepsEdges(b: Tickets, next: Tickets) {
    forall x: Id, y: Id :: Edge(b, x, y) ==> Edge(next, x, y)
  }

  ghost predicate Unfixed(b: Tickets, x: Id) {
    x in b && forall f: Id :: !OpenFix(b, f, x)
  }

  lemma NoEdgesFromFix(b: Tickets, fix: Id, t: Ticket)
    requires fix !in b && FreshTicket(t)
    ensures forall y: Id :: !Edge(Filed(b, fix, t), fix, y)
    ensures forall x: Id, y: Id :: Edge(Filed(b, fix, t), x, y) ==>
              Edge(b, x, y) || (t.fixes == Some(x) && y == fix)
  {
  }

  /** A fresh ticket has no blockers, so blocking another by it closes no cycle. */
  lemma FilingKeepsAcyclic(b: Tickets, fix: Id, t: Ticket)
    requires Acyclic(b) && fix !in b && FreshTicket(t)
    ensures Acyclic(Filed(b, fix, t))
  {
    hide Filed, FreshTicket;
    var next := Filed(b, fix, t);
    forall p: seq<Id> | |p| >= 2 && Path(next, p) ensures p[0] != p[|p| - 1] {
      NoEdgesFromFix(b, fix, t);
      assert Edge(next, p[0], p[0 + 1]);
      assert p[0] != fix;
      if p[|p| - 1] != fix {
        forall i | 0 <= i < |p| - 1 ensures Edge(b, p[i], p[i + 1]) {
          assert Edge(next, p[i], p[i + 1]);
          if i + 1 < |p| - 1 {
            assert Edge(next, p[i + 1], p[i + 1 + 1]);
          }
          assert p[i + 1] != fix;
        }
        assert Path(b, p);
      }
    }
  }

  lemma FilingKeepsSound(b: Tickets, fix: Id, t: Ticket)
    requires Sound(b) && fix !in b && FreshTicket(t)
    requires t.fixes.Some? ==> Unfixed(b, t.fixes.value)
    ensures Sound(Filed(b, fix, t)) && KeepsEdges(b, Filed(b, fix, t))
    ensures forall x: Id :: Unfixed(b, x) && t.fixes != Some(x) ==> Unfixed(Filed(b, fix, t), x)
  {
    hide Acyclic;
    FilingKeepsAcyclic(b, fix, t);
    var next := Filed(b, fix, t);
    assert next.Keys == b.Keys + {fix};
    assert forall f: Id, x: Id :: OpenFix(next, f, x) <==> OpenFix(b, f, x) || (f == fix && t.fixes == Some(x));
    assert KeepsEdges(b, next);
  }

  lemma ReopeningKeepsSound(b: Tickets)
    requires Sound(b)
    ensures Sound(Reopened(b)) && KeepsEdges(b, Reopened(b)) && KeepsEdges(Reopened(b), b)
    ensures forall x: Id :: Unfixed(b, x) ==> Unfixed(Reopened(b), x)
  {
    hide Reopenable;
    var next := Reopened(b);
    assert forall x: Id, y: Id :: Edge(next, x, y) <==> Edge(b, x, y);
    assert forall f: Id, x: Id :: OpenFix(next, f, x) <==> OpenFix(b, f, x) by {
      ReopeningIsOpen(b);
    }
    forall p: seq<Id> | |p| >= 2 && Path(next, p) ensures p[0] != p[|p| - 1] {
      assert Path(b, p);
    }
  }

  lemma ReopeningIsOpen(b: Tickets)
    ensures forall x :: x in b ==> (Open(Reopened(b)[x]) <==> Open(b[x]))
  {
  }

  lemma NormalMoveKeepsSound(b: Tickets, next: Tickets)
    requires Sound(b) && NormalMove(b, next)
    ensures Sound(next) && KeepsEdges(b, next)
    ensures forall x: Id :: Unfixed(b, x) ==> Unfixed(next, x)
  {
    hide Acyclic;
    assert forall f: Id, x: Id :: OpenFix(next, f, x) ==> OpenFix(b, f, x);
  }

  /** A source the scan picks has no open fix: it would be an open blocker. */
  lemma NeedsFixIsUnfixed(b: Tickets, x: Id)
    requires Sound(b) && x in b && NeedsFix(b, x)
    ensures Unfixed(b, x)
  {
    hide Acyclic;
    forall f: Id ensures !OpenFix(b, f, x) {
      assert OpenFix(b, f, x) ==> Edge(b, x, f);
    }
  }

  // ---------------------------------------------------------------------
  // Reopened fixes
  // ---------------------------------------------------------------------

  ghost predicate Distinct(s: seq<Id>) {
    forall i, j :: 0 <= i < j < |s| ==> s[i] != s[j]
  }

  /**
   Reopening a closed fix keeps the board sound if and only if its source has no open
   fix and still lists it as a blocker.
   */
  lemma ReopeningFixIff(b: Tickets, f: Id)
    requires Sound(b) && f in b && !Open(b[f]) && b[f].fixes.Some?
    ensures Sound(b[f := b[f].(status := Active)])
       <==> (forall g: Id :: !OpenFix(b, g, b[f].fixes.value)) && Edge(b, b[f].fixes.value, f)
  {
    hide Acyclic, Open;
    var x := b[f].fixes.value;
    var next := b[f := b[f].(status := Active)];
    ActiveIsOpen(b[f]);
    assert Acyclic(next) by {
      SameEdgesAcyclic(b, next);
    }
    assert forall g: Id, y: Id :: OpenFix(next, g, y) <==> OpenFix(b, g, y) || (g == f && y == x);
    assert forall y: Id, g: Id :: Edge(next, y, g) <==> Edge(b, y, g);
    assert OpenFix(next, f, x) && !OpenFix(b, f, x);
  }

  lemma ActiveIsOpen(t: Ticket)
    ensures Open(t.(status := Active))
  {
  }

  lemma SameEdgesAcyclic(b: Tickets, next: Tickets)
    requires Acyclic(b) && forall x: Id, y: Id :: Edge(next, x, y) <==> Edge(b, x, y)
    ensures Acyclic(next)
  {
    forall p: seq<Id> | |p| >= 2 && Path(next, p) ensures p[0] != p[|p| - 1] {
      assert Path(b, p);
    }
  }

  /** If an operator reopens a closed fix, two open fixes for one source can remain. */
  lemma ReopenedFixDuplicates()
    ensures exists b: Tickets, f: Id, t: Ticket ::
              && Sound(b) && f in b && !Open(b[f]) && b[f].fixes == Some(0)
              && 0 in b && NeedsFix(b, 0) && FreshTicket(t) && t.fixes == Some(0) && 2 !in b
              && var filed := Filed(b, 2, t);
                 !OneFixEach(filed[f := filed[f].(status := Active)])
  {
    var fix := Ticket(Active, [], true, {}, 1, Some(0));
    var b: Tickets := map[0 := Ticket(Blocked, [1], false, {}, 0, None), 1 := fix.(status := Resolved)];
    forall p: seq<Id> | |p| >= 2 && Path(b, p) ensures p[0] != p[|p| - 1] {
      var last := |p| - 2;
      assert Edge(b, p[0], p[0 + 1]) && Edge(b, p[last], p[last + 1]);
    }
    assert Sound(b) && NeedsFix(b, 0) && FreshTicket(fix);
    var filed := Filed(b, 2, fix);
    var after := filed[1 := filed[1].(status := Active)];
    assert OpenFix(after, 1, 0) && OpenFix(after, 2, 0);
    assert !OneFixEach(after);
  }

  // ---------------------------------------------------------------------
  // Registering proposals: dedupe and cap
  // ---------------------------------------------------------------------

  datatype Proposal = Proposal(marker: Key, title: Key, blocks: Option<Id>)

  datatype Outcome = Created | Duplicate | Capped

  predicate Seen(p: Proposal, markers: set<Key>, titles: set<Key>) {
    p.marker in markers || p.title in titles
  }

  function CountOf(outcomes: seq<Outcome>, kind: Outcome): nat {
    if |outcomes| == 0 then 0
    else CountOf(outcomes[..|outcomes| - 1], kind) + if outcomes[|outcomes| - 1] == kind then 1 else 0
  }

  /** The keys a proposal is compared with: the open board's, and those filed before it. */
  ghost predicate SeenBefore(ps: seq<Proposal>, outcomes: seq<Outcome>, markers: set<Key>, titles: set<Key>, i: nat)
    requires i < |ps| && i <= |outcomes|
  {
    || Seen(ps[i], markers, titles)
    || exists j :: 0 <= j < i && outcomes[j] == Created && (ps[j].marker == ps[i].marker || ps[j].title == ps[i].title)
  }

  /**
   Each proposal is a duplicate of something seen before, or filed while under
   the cap, or left out once the cap is reached.
   */
  ghost function Verdict(
      ps: seq<Proposal>, outcomes: seq<Outcome>, markers: set<Key>, titles: set<Key>, cap: nat, i: nat): Outcome
    requires i < |ps| && i <= |outcomes|
  {
    if SeenBefore(ps, outcomes, markers, titles, i) then Duplicate
    else if CountOf(outcomes[..i], Created) >= cap then Capped
    else Created
  }

  ghost predicate Decided(ps: seq<Proposal>, outcomes: seq<Outcome>, markers: set<Key>, titles: set<Key>, cap: nat) {
    && |outcomes| <= |ps|
    && forall i :: 0 <= i < |outcomes| ==> outcomes[i] == Verdict(ps, outcomes, markers, titles, cap, i)
  }

  lemma {:induction false} CountsAddUp(outcomes: seq<Outcome>)
    ensures CountOf(outcomes, Created) + CountOf(outcomes, Duplicate) + CountOf(outcomes, Capped) == |outcomes|
  {
    if |outcomes| > 0 {
      CountsAddUp(outcomes[..|outcomes| - 1]);
    }
  }

  lemma {:induction false} CreatedWithinCap(
      ps: seq<Proposal>, outcomes: seq<Outcome>, markers: set<Key>, titles: set<Key>, cap: nat, n: nat)
    requires Decided(ps, outcomes, markers, titles, cap) && n <= |outcomes|
    ensures CountOf(outcomes[..n], Created) <= cap
  {
    if n > 0 {
      CreatedWithinCap(ps, outcomes, markers, titles, cap, n - 1);
      assert outcomes[..n][..n - 1] == outcomes[..n - 1];
    }
  }

  /**
   Filed proposals repeat neither each other nor an open ticket; the three
   counts cover every proposal.
   */
  lemma RegistrationLaws(
      ps: seq<Proposal>, outcomes: seq<Outcome>, markers: set<Key>, titles: set<Key>, cap: nat)
    requires |outcomes| == |ps| && Decided(ps, outcomes, markers, titles, cap)
    ensures CountOf(outcomes, Created) <= cap
    ensures CountOf(outcomes, Capped) == |ps| - CountOf(outcomes, Duplicate) - CountOf(outcomes, Created)
    ensures forall i :: 0 <= i < |ps| && outcomes[i] == Created ==> !Seen(ps[i], markers, titles)
    ensures forall i, j :: 0 <= i < j < |ps| && outcomes[i] == Created && outcomes[j] == Created ==>
              ps[i].marker != ps[j].marker && ps[i].title != ps[j].title
  {
    CreatedWithinCap(ps, outcomes, markers, titles, cap, |ps|);
    assert outcomes[..|ps|] == outcomes;
    CountsAddUp(outcomes);
  }

  // ---------------------------------------------------------------------
  // Which mode a filed ticket is credited to
  // ---------------------------------------------------------------------

  /** The positions of the proposals that were filed, in order. */
  function CreatedAt(outcomes: seq<Outcome>): (at: seq<nat>)
    ensures |at| == CountOf(outcomes, Created)
    ensures forall k :: 0 <= k < |at| ==> at[k] < |outcomes| && outcomes[at[k]] == Created
    ensures forall k, l :: 0 <= k < l < |at| ==> at[k] < at[l]
    ensures forall i :: 0 <= i < |outcomes| && outcomes[i] == Created ==> i in at
  {
    if |outcomes| == 0 then []
    else
      var n := |outcomes| - 1;
      CreatedAt(outcomes[..n]) + if outcomes[n] == Created then [n] else []
  }

  /**
   The k-th ticket is credited to the k-th proposal: right for every ticket
   exactly when no filed proposal comes after one that was not filed.
   */
  lemma CreditIsRightIff(outcomes: seq<Outcome>)
    ensures (forall k :: 0 <= k < |CreatedAt(outcomes)| ==> CreatedAt(outcomes)[k] == k)
       <==> (forall i, j :: 0 <= i < j < |outcomes| && outcomes[j] == Created ==> outcomes[i] == Created)
  {
    var at := CreatedAt(outcomes);
    if forall k :: 0 <= k < |at| ==> at[k] == k {
      forall i, j | 0 <= i < j < |outcomes| && outcomes[j] == Created ensures outcomes[i] == Created {
        assert j in at;
        assert at[j] == j && at[i] == i;
      }
    }
    if forall i, j :: 0 <= i < j < |outcomes| && outcomes[j] == Created ==> outcomes[i] == Created {
      forall k | 0 <= k < |at| ensures at[k] == k {
        CreditPrefix(outcomes, k);
      }
    }
  }

  lemma {:induction false} CreditPrefix(outcomes: seq<Outcome>, k: nat)
    requires k < |CreatedAt(outcomes)|
    requires forall i, j :: 0 <= i < j < |outcomes| && outcomes[j] == Created ==> outcomes[i] == Created
    ensures CreatedAt(outcomes)[k] == k
  {
    var at := CreatedAt(outcomes);
    assert outcomes[at[k]] == Created;
    if k > 0 {
      CreditPrefix(outcomes, k - 1);
      assert forall l :: 0 <= l < k ==> at[l] <= at[k - 1];
    }
    assert k <= at[k];
    assert outcomes[k] == Created;
    var l :| 0 <= l < |at| && at[l] == k;
    assert l == k;
  }

  /** The tickets a mode gets when the k-th ticket goes to the k-th of some modes. */
  function Credited(ids: seq<Id>, modes: seq<Key>, mode: Key): seq<Id> {
    if |ids| == 0 || |modes| == 0 then []
    else (if modes[0] == mode then [ids[0]] else []) + Credited(ids[1..], modes[1..], mode)
  }

  /** `_attribute_tickets`: one list per mode, filled from the front of what is left. */
  method AttributeTickets(ids: seq<Id>, modes: seq<Key>) returns (filed: map<Key, seq<Id>>)
    ensures filed.Keys == set mode | mode in modes
    ensures forall mode :: mode in filed ==> filed[mode] == Credited(ids, modes, mode)
  {
    hide Credited;
    filed := map mode | mode in modes :: [];
    var remaining, i := ids, 0;
    assert modes[0..] == modes;
    while i < |modes| && remaining != []
      invariant i <= |modes| && filed.Keys == set mode | mode in modes
      invariant forall mode :: mode in filed ==>
                  filed[mode] + Credited(remaining, modes[i..], mode) == Credited(ids, modes, mode)
    {
      forall mode | mode in filed
        ensures Credited(remaining, modes[i..], mode)
             == (if modes[i] == mode then [remaining[0]] else []) + Credited(remaining[1..], modes[i + 1..], mode)
      {
        CreditStep(remaining, modes, i, mode);
      }
      filed := filed[modes[i] := filed[modes[i]] + [remaining[0]]];
      remaining := remaining[1..];
      i := i + 1;
    }
    forall mode | mode in filed ensures Credited(remaining, modes[i..], mode) == [] {
      NothingToCredit(remaining, modes[i..], mode);
    }
  }

  lemma CreditStep(remaining: seq<Id>, modes: seq<Key>, i: nat, mode: Key)
    requires i < |modes| && remaining != []
    ensures Credited(remaining, modes[i..], mode)
         == (if modes[i] == mode then [remaining[0]] else []) + Credited(remaining[1..], modes[i + 1..], mode)
  {
    assert modes[i..][1..] == modes[i + 1..];
  }

  lemma NothingToCredit(ids: seq<Id>, modes: seq<Key>, mode: Key)
    requires ids == [] || modes == []
    ensures Credited(ids, modes, mode) == []
  {
  }

  lemma {:induction false} CreditedTo(ids: seq<Id>, modes: seq<Key>, mode: Key, k: nat)
    requires Distinct(ids) && k < |ids| <= |modes|
    ensures ids[k] in Credited(ids, modes, mode) <==> modes[k] == mode
  {
    var rest := Credited(ids[1..], modes[1..], mode);
    OnlyTheseCredited(ids[1..], modes[1..], mode);
    if k > 0 {
      assert ids[1..][k - 1] == ids[k];
      CreditedTo(ids[1..], modes[1..], mode, k - 1);
    } else {
      assert ids[0] !in ids[1..];
    }
  }

  lemma {:induction false} OnlyTheseCredited(ids: seq<Id>, modes: seq<Key>, mode: Key)
    ensures forall x :: x in Credited(ids, modes, mode) ==> x in ids
  {
    if |ids| > 0 && |modes| > 0 {
      OnlyTheseCredited(ids[1..], modes[1..], mode);
    }
  }

  lemma {:induction false} SameModesSameCredit(ids: seq<Id>, a: seq<Key>, b: seq<Key>, mode: Key)
    requires |ids| <= |a| && |ids| <= |b| && forall k :: 0 <= k < |ids| ==> a[k] == b[k]
    ensures Credited(ids, a, mode) == Credited(ids, b, mode)
  {
    if |ids| > 0 {
      SameModesSameCredit(ids[1..], a[1..], b[1..], mode);
    }
  }

  /** The modes of the proposals that were filed, in order. */
  function FiledModes(modes: seq<Key>, outcomes: seq<Outcome>): seq<Key>
    requires |modes| == |outcomes|
  {
    var at := CreatedAt(outcomes);
    seq(|at|, k requires 0 <= k < |at| => modes[at[k]])
  }

  /** Two ways to say which mode each ticket comes from that credit every mode alike. */
  ghost predicate SameCredit(ids: seq<Id>, a: seq<Key>, b: seq<Key>) {
    forall mode: Key :: Credited(ids, a, mode) == Credited(ids, b, mode)
  }

  lemma SameCreditAt(ids: seq<Id>, a: seq<Key>, b: seq<Key>, k: nat)
    requires k < |ids| == |b| <= |a| && Distinct(ids) && SameCredit(ids, a, b)
    ensures a[k] == b[k]
  {
    hide Credited, Distinct;
    CreditedTo(ids, a, a[k], k);
    CreditedTo(ids, b, a[k], k);
  }

  lemma SameCreditIff(ids: seq<Id>, a: seq<Key>, b: seq<Key>)
    requires |ids| == |b| <= |a| && Distinct(ids)
    ensures SameCredit(ids, a, b) <==> b <= a
  {
    hide Credited, Distinct, SameCredit;
    if SameCredit(ids, a, b) {
      forall k: nat | k < |b| ensures b[k] == a[k] {
        SameCreditAt(ids, a, b, k);
      }
    }
    if b <= a {
      SamePrefixSameCredit(ids, a, b);
    }
  }

  lemma SamePrefixSameCredit(ids: seq<Id>, a: seq<Key>, b: seq<Key>)
    requires |ids| == |b| && b <= a
    ensures SameCredit(ids, a, b)
  {
    hide Credited;
    forall mode: Key ensures Credited(ids, a, mode) == Credited(ids, b, mode) {
      SameModesSameCredit(ids, a, b, mode);
    }
  }

  /**
   Every mode is credited with exactly the tickets filed for its proposals if and
   only if the modes of the filed proposals are, in order, those of the first ones.
   */
  lemma ModeCreditIsRightIff(ids: seq<Id>, modes: seq<Key>, outcomes: seq<Outcome>)
    requires |modes| == |outcomes| && |ids| == CountOf(outcomes, Created) && Distinct(ids)
    ensures SameCredit(ids, modes, FiledModes(modes, outcomes)) <==> FiledModes(modes, outcomes) <= modes
  {
    hide SameCredit, Distinct, CountOf;
    CountsAddUp(outcomes);
    SameCreditIff(ids, modes, FiledModes(modes, outcomes));
  }

  /**
   A duplicate of one mode before a filed proposal of another: the ticket goes to
   the mode that filed nothing.
   */
  lemma WrongModeCredited(id: Id)
    ensures Credited([id], [0, 1], 0) == [id] && Credited([id], FiledModes([0, 1], [Duplicate, Created]), 0) == []
  {
    var outcomes := [Duplicate, Created];
    var at := CreatedAt(outcomes);
    assert outcomes[..1] == [Duplicate] && [Duplicate][..0] == [];
    assert CountOf(outcomes, Created) == 1;
    assert 1 in at;
    assert FiledModes([0, 1], outcomes) == [1];
    assert [id][1..] == [] && [0, 1][1..] == [1];
    assert Credited([id], [1], 0) == [] + Credited([], [], 0);
  }

  // ---------------------------------------------------------------------
  // The board's methods
  // ---------------------------------------------------------------------

  /** The first free number: `next_request_id` and ticket allocation. */
  method FirstFree(used: set<nat>, start: nat) returns (n: nat)
    ensures start <= n && n !in used
    ensures forall k :: start <= k < n ==> k in used
  {
    n := start;
    while n in used
      invariant start <= n && forall k :: start <= k < n ==> k in used
      decreases set k | k in used && k >= n
    {
      ghost var before := set k | k in used && k >= n;
      n := n + 1;
      assert (set k | k in used && k >= n) == before - {n - 1};
    }
  }

  ghost function OpenMarkers(b: Tickets): set<Key> {
    set x, m | x in b && Open(b[x]) && m in b[x].markers :: m
  }

  ghost function OpenTitles(b: Tickets): set<Key> {
    set x | x in b && Open(b[x]) :: b[x].title
  }

  function TicketOf(p: Proposal): Ticket {
    Ticket(Active, [], true, {p.marker}, p.title, p.blocks)
  }

  /** The board after filing some proposals under the given identifiers. */
  ghost function FiledAll(b: Tickets, ps: seq<Proposal>, ids: seq<Id>): Tickets
    requires |ps| == |ids|
  {
    if |ps| == 0 then b
    else Filed(FiledAll(b, ps[..|ps| - 1], ids[..|ps| - 1]), ids[|ps| - 1], TicketOf(ps[|ps| - 1]))
  }

  ghost function Picked(ps: seq<Proposal>, at: seq<nat>): (picked: seq<Proposal>)
    requires forall k :: 0 <= k < |at| ==> at[k] < |ps|
    ensures |picked| == |at|
  {
    seq(|at|, k requires 0 <= k < |at| => ps[at[k]])
  }

  /** Proposals of one collection: each source once, and without an open fix. */
  ghost predicate FreshSources(b: Tickets, ps: seq<Proposal>) {
    && (forall i :: 0 <= i < |ps| && ps[i].blocks.Some? ==> Unfixed(b, ps[i].blocks.value))
    && (forall i, j :: 0 <= i < j < |ps| && ps[i].blocks.Some? ==> ps[i].blocks != ps[j].blocks)
  }

  ghost predicate NewIds(b: Tickets, ids: seq<Id>) {
    Distinct(ids) && forall k :: 0 <= k < |ids| ==> ids[k] !in b
  }

  /** Filing adds these tickets and, beyond them, only blockers. */
  lemma {:induction false} FiledAllShape(b: Tickets, ps: seq<Proposal>, ids: seq<Id>)
    requires |ps| == |ids| && NewIds(b, ids)
    ensures var now := FiledAll(b, ps, ids);
            && KeepsEdges(b, now)
            && (forall x :: x in now <==> x in b || x in ids)
            && (forall f: Id, x: Id :: OpenFix(now, f, x) <==>
                  OpenFix(b, f, x) || exists k :: 0 <= k < |ids| && ids[k] == f && ps[k].blocks == Some(x))
  {
    if |ps| > 0 {
      var n := |ps| - 1;
      var before, now := FiledAll(b, ps[..n], ids[..n]), FiledAll(b, ps, ids);
      FiledAllShape(b, ps[..n], ids[..n]);
      assert ids == ids[..n] + [ids[n]];
      assert ids[n] !in before;
      FiledShape(before, ids[n], TicketOf(ps[n]));
      EdgesKept(b, before, now);
      forall f: Id, x: Id
        ensures OpenFix(now, f, x) <==>
                  OpenFix(b, f, x) || exists k :: 0 <= k < |ids| && ids[k] == f && ps[k].blocks == Some(x)
      {
        assert forall k :: 0 <= k < n ==> ids[..n][k] == ids[k] && ps[..n][k] == ps[k];
      }
    }
  }

  lemma FiledShape(b: Tickets, id: Id, t: Ticket)
    requires id !in b && t.status == Active
    ensures var now := Filed(b, id, t);
            && KeepsEdges(b, now) && now.Keys == b.Keys + {id}
            && (forall f: Id, x: Id :: OpenFix(now, f, x) <==> OpenFix(b, f, x) || (f == id && t.fixes == Some(x)))
  {
  }

  /**
   Filing a list of proposals for sources on the board keeps it sound if and only
   if no two are for one source and none is for a source that has an open fix.
   */
  lemma {:induction false} FilingAllSoundIff(b: Tickets, ps: seq<Proposal>, ids: seq<Id>)
    requires |ps| == |ids| && NewIds(b, ids) && Sound(b)
    requires forall k :: 0 <= k < |ps| && ps[k].blocks.Some? ==> ps[k].blocks.value in b
    ensures Sound(FiledAll(b, ps, ids)) <==> FreshSources(b, ps)
  {
    hide Acyclic, FiledAll, KeepsEdges;
    var now := FiledAll(b, ps, ids);
    FiledAllShape(b, ps, ids);
    if FreshSources(b, ps) {
      FilingAllKeepsSound(b, ps, ids);
    } else if exists i :: 0 <= i < |ps| && ps[i].blocks.Some? && !Unfixed(b, ps[i].blocks.value) {
      var i :| 0 <= i < |ps| && ps[i].blocks.Some? && !Unfixed(b, ps[i].blocks.value);
      var x := ps[i].blocks.value;
      var f: Id :| OpenFix(b, f, x);
      assert OpenFix(now, f, x) && OpenFix(now, ids[i], x) && f != ids[i];
    } else {
      var i, j :| 0 <= i < j < |ps| && ps[i].blocks.Some? && ps[i].blocks == ps[j].blocks;
      assert OpenFix(now, ids[i], ps[i].blocks.value) && OpenFix(now, ids[j], ps[i].blocks.value);
    }
  }

  lemma {:induction false} FilingAllKeepsSound(b: Tickets, ps: seq<Proposal>, ids: seq<Id>)
    requires |ps| == |ids| && NewIds(b, ids) && Sound(b) && FreshSources(b, ps)
    ensures Sound(FiledAll(b, ps, ids))
  {
    hide Sound, Filed;
    if |ps| > 0 {
      var n := |ps| - 1;
      var before := FiledAll(b, ps[..n], ids[..n]);
      FilingAllKeepsSound(b, ps[..n], ids[..n]);
      FiledAllShape(b, ps[..n], ids[..n]);
      assert ids[n] !in before;
      FilingKeepsSound(before, ids[n], TicketOf(ps[n]));
    }
  }

  lemma FreshPicked(b: Tickets, ps: seq<Proposal>, outcomes: seq<Outcome>)
    requires |outcomes| <= |ps| && FreshSources(b, ps)
    ensures FreshSources(b, Picked(ps, CreatedAt(outcomes)))
  {
    hide Unfixed, CreatedAt, CountOf;
    var at := CreatedAt(outcomes);
    var picked := Picked(ps, at);
    forall i, j | 0 <= i < j < |picked| && picked[i].blocks.Some? ensures picked[i].blocks != picked[j].blocks {
      assert at[i] < at[j] && picked[i] == ps[at[i]] && picked[j] == ps[at[j]];
    }
  }

  /** The registration loop after some proposals. */
  ghost predicate Registered(
      b: Tickets, ps: seq<Proposal>, outcomes: seq<Outcome>, created: seq<Id>, now: Tickets)
  {
    && |outcomes| <= |ps| && |created| == CountOf(outcomes, Created)
    && NewIds(b, created)
    && now == FiledAll(b, Picked(ps, CreatedAt(outcomes)), created)
  }

  ghost predicate KeysSeen(
      ps: seq<Proposal>, outcomes: seq<Outcome>, markers: set<Key>, titles: set<Key>,
      seenMarkers: set<Key>, seenTitles: set<Key>)
  {
    && |outcomes| <= |ps|
    && (forall m :: m in seenMarkers <==>
          m in markers || exists j :: 0 <= j < |outcomes| && outcomes[j] == Created && ps[j].marker == m)
    && (forall t :: t in seenTitles <==>
          t in titles || exists j :: 0 <= j < |outcomes| && outcomes[j] == Created && ps[j].title == t)
  }

  lemma DecidedStep(
      ps: seq<Proposal>, outcomes: seq<Outcome>, markers: set<Key>, titles: set<Key>, cap: nat, o: Outcome)
    requires |outcomes| < |ps| && Decided(ps, outcomes, markers, titles, cap)
    requires o == Verdict(ps, outcomes, markers, titles, cap, |outcomes|)
    ensures Decided(ps, outcomes + [o], markers, titles, cap)
  {
    hide Seen, CountOf;
    var more := outcomes + [o];
    forall i | 0 <= i < |more| ensures more[i] == Verdict(ps, more, markers, titles, cap, i) {
      assert more[..i] == outcomes[..i];
      assert SeenBefore(ps, more, markers, titles, i) <==> SeenBefore(ps, outcomes, markers, titles, i);
    }
  }

  lemma KeysStep(
      ps: seq<Proposal>, outcomes: seq<Outcome>, markers: set<Key>, titles: set<Key>,
      seenMarkers: set<Key>, seenTitles: set<Key>, o: Outcome)
    requires |outcomes| < |ps| && KeysSeen(ps, outcomes, markers, titles, seenMarkers, seenTitles)
    ensures SeenBefore(ps, outcomes, markers, titles, |outcomes|)
       <==> Seen(ps[|outcomes|], seenMarkers, seenTitles)
    ensures var p := ps[|outcomes|];
            KeysSeen(ps, outcomes + [o], markers, titles,
                     if o == Created then seenMarkers + {p.marker} else seenMarkers,
                     if o == Created then seenTitles + {p.title} else seenTitles)
  {
    var more := outcomes + [o];
    assert forall j :: 0 <= j < |outcomes| ==> more[j] == outcomes[j];
    assert more[|outcomes|] == o;
  }

  lemma CountStep(outcomes: seq<Outcome>, o: Outcome, kind: Outcome)
    ensures CountOf(outcomes + [o], kind) == CountOf(outcomes, kind) + if o == kind then 1 else 0
  {
    assert (outcomes + [o])[..|outcomes|] == outcomes;
  }

  lemma RegisteredStart(b: Tickets, ps: seq<Proposal>)
    ensures Registered(b, ps, [], [], b)
  {
  }

  lemma RegisteredSkip(
      b: Tickets, ps: seq<Proposal>, outcomes: seq<Outcome>, created: seq<Id>, now: Tickets, o: Outcome)
    requires Registered(b, ps, outcomes, created, now) && |outcomes| < |ps| && o != Created
    ensures Registered(b, ps, outcomes + [o], created, now)
  {
    hide FiledAll, NewIds;
    CountStep(outcomes, o, Created);
    assert (outcomes + [o])[..|outcomes|] == outcomes;
    assert CreatedAt(outcomes + [o]) == CreatedAt(outcomes);
  }

  lemma FiledAllStep(b: Tickets, ps: seq<Proposal>, outcomes: seq<Outcome>, created: seq<Id>, id: Id)
    requires |outcomes| < |ps| && |created| == CountOf(outcomes, Created)
    ensures |created + [id]| == CountOf(outcomes + [Created], Created)
    ensures FiledAll(b, Picked(ps, CreatedAt(outcomes + [Created])), created + [id])
         == Filed(FiledAll(b, Picked(ps, CreatedAt(outcomes)), created), id, TicketOf(ps[|outcomes|]))
  {
    hide Filed, TicketOf;
    var p, more, ids := ps[|outcomes|], outcomes + [Created], created + [id];
    CountStep(outcomes, Created, Created);
    assert more[..|outcomes|] == outcomes;
    var picked, before := Picked(ps, CreatedAt(more)), Picked(ps, CreatedAt(outcomes));
    assert CreatedAt(more) == CreatedAt(outcomes) + [|outcomes|];
    assert picked == before + [p];
    assert picked[..|created|] == before && ids[..|created|] == created;
  }

  lemma EdgesKept(a: Tickets, b: Tickets, c: Tickets)
    requires KeepsEdges(a, b) && KeepsEdges(b, c)
    ensures KeepsEdges(a, c)
  {
  }

  lemma RegisteredFile(
      b: Tickets, ps: seq<Proposal>, outcomes: seq<Outcome>, created: seq<Id>, now: Tickets, id: Id)
    requires Registered(b, ps, outcomes, created, now) && |outcomes| < |ps| && id !in now
    ensures Registered(b, ps, outcomes + [Created], created + [id], Filed(now, id, TicketOf(ps[|outcomes|])))
  {
    hide Filed, FiledAll, Picked, CountOf, CreatedAt;
    FiledAllShape(b, Picked(ps, CreatedAt(outcomes)), created);
    assert id !in b && id !in created;
    FiledAllStep(b, ps, outcomes, created, id);
  }

  class FileBoard {
    var tickets: Tickets

    /** Filing is create, then link. */
    method FileProposal(p: Proposal) returns (id: Id)
      modifies this
      ensures id !in old(tickets)
      ensures tickets == Filed(old(tickets), id, TicketOf(p))
    {
      var start: nat := *;
      id := FirstFree(tickets.Keys, start);
      tickets := tickets[id := TicketOf(p)];
      if p.blocks.Some? {
        LinkBlocker(p.blocks.value, id);
      }
    }

    method LinkBlocker(source: Id, fix: Id)
      modifies this
      ensures tickets == Linked(old(tickets), source, fix)
    {
      if source == fix { return; }
      if source !in tickets { return; }
      var current := tickets[source].blockers;
      if fix in current { return; }
      tickets := tickets[source := tickets[source].(blockers := current + [fix])];
    }

    method ReopenResolvedBlockedSources() returns (reopened: seq<Id>)
      modifies this
      ensures tickets == Reopened(old(tickets))
      ensures Distinct(reopened)
      ensures forall x: Id :: x in reopened <==> x in old(tickets) && Reopenable(old(tickets), x)
    {
      hide Reopenable;
      var everything := tickets;
      reopened := [];
      var left := everything.Keys;
      while left != {}
        invariant left <= everything.Keys && everything == old(tickets)
        invariant tickets == map x | x in everything ::
                    if x !in left && Reopenable(everything, x) then everything[x].(status := Active) else everything[x]
        invariant Distinct(reopened)
        invariant forall x: Id :: x in reopened <==> x in everything && x !in left && Reopenable(everything, x)
        decreases |left|
      {
        var x :| x in left;
        left := left - {x};
        if Reopenable(everything, x) {
          tickets := tickets[x := tickets[x].(status := Active)];
          reopened := reopened + [x];
        }
      }
    }

    method CollectBlockedFixProposals() returns (found: seq<Id>)
      ensures Distinct(found)
      ensures forall x: Id :: x in found <==> x in tickets && NeedsFix(tickets, x)
    {
      hide NeedsFix;
      found := [];
      var left := tickets.Keys;
      while left != {}
        invariant left <= tickets.Keys && Distinct(found)
        invariant forall x: Id :: x in found <==> x in tickets && x !in left && NeedsFix(tickets, x)
        decreases |left|
      {
        var x :| x in left;
        left := left - {x};
        if NeedsFix(tickets, x) {
          found := found + [x];
        }
      }
    }

    method RegisterProposals(ps: seq<Proposal>, limit: int)
      returns (created: seq<Id>, duplicates: nat, skipped: nat, ghost outcomes: seq<Outcome>)
      modifies this
      ensures |outcomes| == |ps|
      ensures Decided(ps, outcomes, OpenMarkers(old(tickets)), OpenTitles(old(tickets)), if limit < 1 then 1 else limit)
      ensures duplicates == CountOf(outcomes, Duplicate) && skipped == CountOf(outcomes, Capped)
      ensures |created| == CountOf(outcomes, Created) && NewIds(old(tickets), created)
      ensures tickets == FiledAll(old(tickets), Picked(ps, CreatedAt(outcomes)), created)
      ensures KeepsEdges(old(tickets), tickets)
      ensures Sound(old(tickets)) && FreshSources(old(tickets), ps) ==> Sound(tickets)
    {
      hide Sound, FreshSources, Decided, Registered, KeysSeen, Verdict, SeenBefore, Seen, CountOf, FiledAll, Filed,
        CreatedAt, Picked, TicketOf, KeepsEdges, NewIds;
      var cap := if limit < 1 then 1 else limit;
      ghost var markers, titles := OpenMarkers(tickets), OpenTitles(tickets);
      var seenMarkers := set x, m | x in tickets && Open(tickets[x]) && m in tickets[x].markers :: m;
      var seenTitles := set x | x in tickets && Open(tickets[x]) :: tickets[x].title;
      created, duplicates, outcomes := [], 0, [];
      RegistrationStart(tickets, ps, markers, titles, cap);
      for i := 0 to |ps|
        invariant |outcomes| == i && Decided(ps, outcomes, markers, titles, cap)
        invariant KeysSeen(ps, outcomes, markers, titles, seenMarkers, seenTitles)
        invariant Registered(old(tickets), ps, outcomes, created, tickets)
        invariant duplicates == CountOf(outcomes, Duplicate) && |created| == CountOf(outcomes, Created)
      {
        var p := ps[i];
        ghost var o := Verdict(ps, outcomes, markers, titles, cap, i);
        VerdictMeans(ps, outcomes, markers, titles, cap, i);
        DecidedStep(ps, outcomes, markers, titles, cap, o);
        KeysStep(ps, outcomes, markers, titles, seenMarkers, seenTitles, o);
        CountStep(outcomes, o, Duplicate);
        CountStep(outcomes, o, Created);
        if Seen(p, seenMarkers, seenTitles) {
          duplicates := duplicates + 1;
          RegisteredSkip(old(tickets), ps, outcomes, created, tickets, o);
        } else if |created| >= cap {
          RegisteredSkip(old(tickets), ps, outcomes, created, tickets, o);
        } else {
          ghost var before := tickets;
          var id := FileProposal(p);
          RegisteredFile(old(tickets), ps, outcomes, created, before, id);
          created := created + [id];
          seenMarkers := seenMarkers + {p.marker};
          seenTitles := seenTitles + {p.title};
        }
        outcomes := outcomes + [o];
      }
      CountsAddUp(outcomes);
      skipped := |ps| - duplicates - |created|;
      RegisteredMeans(old(tickets), ps, outcomes, created, tickets);
    }
  }

  lemma RegistrationStart(b: Tickets, ps: seq<Proposal>, markers: set<Key>, titles: set<Key>, cap: nat)
    ensures Decided(ps, [], markers, titles, cap) && KeysSeen(ps, [], markers, titles, markers, titles)
    ensures Registered(b, ps, [], [], b)
    ensures CountOf([], Duplicate) == CountOf([], Created) == 0
  {
    hide Registered;
    RegisteredStart(b, ps);
  }

  lemma VerdictMeans(
      ps: seq<Proposal>, outcomes: seq<Outcome>, markers: set<Key>, titles: set<Key>, cap: nat, i: nat)
    requires i < |ps| && i == |outcomes|
    ensures Verdict(ps, outcomes, markers, titles, cap, i)
         == if SeenBefore(ps, outcomes, markers, titles, i) then Duplicate
            else if CountOf(outcomes, Created) >= cap then Capped else Created
  {
    assert outcomes[..i] == outcomes;
  }

  lemma RegisteredMeans(b: Tickets, ps: seq<Proposal>, outcomes: seq<Outcome>, created: seq<Id>, now: Tickets)
    requires Registered(b, ps, outcomes, created, now)
    ensures |created| == |CreatedAt(outcomes)| && NewIds(b, created) && KeepsEdges(b, now)
    ensures now == FiledAll(b, Picked(ps, CreatedAt(outcomes)), created)
    ensures Sound(b) && FreshSources(b, ps) ==> Sound(now)
  {
    hide Sound, KeepsEdges, FreshSources, FiledAll, Picked, NewIds;
    FiledAllShape(b, Picked(ps, CreatedAt(outcomes)), created);
    if Sound(b) && FreshSources(b, ps) {
      FreshPicked(b, ps, outcomes);
      FilingAllKeepsSound(b, Picked(ps, CreatedAt(outcomes)), created);
    }
  }

  // ---------------------------------------------------------------------
  // The life of one fix
  // ---------------------------------------------------------------------

  predicate Closed(status: Status) { status == Resolved || status == Abandoned }

  /** The board once a fix filed for `x` has reached a status. */
  function FixAt(b: Tickets, id: Id, p: Proposal, status: Status): Tickets {
    var filed := Filed(b, id, TicketOf(p));
    filed[id := filed[id].(status := status)]
  }

  /**
   A source gets its fix as last blocker, and the fix's marker and title are seen
   from then on; nothing else changes.
   */
  lemma FilingChanges(b: Tickets, id: Id, p: Proposal)
    requires id !in b && p.blocks.Some? && p.blocks.value in b
    ensures var x, now := p.blocks.value, Filed(b, id, TicketOf(p));
            && now.Keys == b.Keys + {id}
            && now[x].blockers == (if id in b[x].blockers then b[x].blockers else b[x].blockers + [id])
            && now[x].(blockers := b[x].blockers) == b[x]
            && (forall y :: y in b && y != x ==> now[y] == b[y])
            && OpenMarkers(now) == OpenMarkers(b) + {p.marker}
            && OpenTitles(now) == OpenTitles(b) + {p.title}
            && now[id].status == Active && now[id].blockers == [] && now[id].ci && now[id].fixes == Some(x)
  {
    var x, now := p.blocks.value, Filed(b, id, TicketOf(p));
    assert now[id] == TicketOf(p);
    forall m: Key ensures m in OpenMarkers(now) <==> m in OpenMarkers(b) || m == p.marker {
      assert forall y :: y in b ==> now[y].markers == b[y].markers && now[y].status == b[y].status;
    }
    forall t: Key ensures t in OpenTitles(now) <==> t in OpenTitles(b) || t == p.title {
      assert forall y :: y in b ==> now[y].title == b[y].title && now[y].status == b[y].status;
    }
  }

  lemma FixAtIs(b: Tickets, id: Id, p: Proposal, status: Status)
    requires id !in b && p.blocks.Some? && p.blocks.value in b
    ensures var x, later := p.blocks.value, FixAt(b, id, p, status);
            && x in later && id in later && later[id].status == status && later[id].ci
            && later[x].status == b[x].status
            && (forall y :: y in later[x].blockers <==> y in b[x].blockers || y == id)
            && (forall y :: y in later <==> y in b || y == id)
            && (forall y :: y in b ==> later[y].status == b[y].status)
  {
    hide TicketOf, OpenMarkers, OpenTitles;
    FilingChanges(b, id, p);
  }

  /**
   With its fix at some status, a source is collected once more exactly when it is
   stuck and nothing that blocks it is open.
   */
  lemma CollectedAgainIff(b: Tickets, id: Id, p: Proposal, status: Status)
    requires id !in b && p.blocks.Some? && p.blocks.value in b
    ensures var x, later := p.blocks.value, FixAt(b, id, p, status);
            x in later &&
            (NeedsFix(later, x) <==>
              && (b[x].status == Blocked || b[x].status == HumanReview) && Closed(status)
              && (forall y :: y in b[x].blockers && y in b ==> Closed(b[y].status)))
  {
    hide FixAt;
    FixAtIs(b, id, p, status);
  }

  /**
   It goes back to work exactly when it is blocked and the fix and all its other
   blockers are resolved; then only its lane changes.
   */
  lemma HandedBackIff(b: Tickets, id: Id, p: Proposal, status: Status)
    requires id !in b && p.blocks.Some? && p.blocks.value in b
    ensures var x, later := p.blocks.value, FixAt(b, id, p, status);
            x in later && Reopened(later)[x] == later[x].(status :=
              if && b[x].status == Blocked && status == Resolved
                 && (forall y :: y in b[x].blockers && y != id ==> y in b && b[y].status == Resolved)
              then Active else later[x].status)
  {
    hide FixAt;
    FixAtIs(b, id, p, status);
    var x, later := p.blocks.value, FixAt(b, id, p, status);
    assert id in later[x].blockers && later[id].ci;
  }

  /** Any ticket is handed back only from blocked, with some blocker, none unresolved and one from the heartbeat. */
  lemma ReopenedIff(b: Tickets, x: Id)
    requires x in b
    ensures Reopened(b).Keys == b.Keys
    ensures Reopened(b)[x] != b[x]
       <==> && b[x].status == Blocked && b[x].blockers != []
            && (forall y :: y in b[x].blockers ==> y in b && b[y].status == Resolved)
            && !(forall y :: y in b[x].blockers && y in b ==> !b[y].ci)
    ensures Reopened(b)[x] != b[x] ==> Reopened(b)[x] == b[x].(status := Active)
  {
  }
}
