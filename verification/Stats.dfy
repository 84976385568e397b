/**
 The on-read fold of run statistics (src/symphony/stats.py).

 Every counter of the accumulator is tied to an independent tally over the
 events folded so far; the conservation laws (day rows, state rows and agent
 rows all add up to the totals, dwell times telescope) are proved about those
 tallies, for every event list.
 */
module Stats {
  import opened Prelude

  /** A parsed timestamp: the instant, and the calendar date it prints. */
  datatype Stamp = Stamp(instant: int, date: int)

  datatype Day = Unknown | Date(number: int)

  datatype GateKind = ContractFailure | ReopenBudget | BackendFallback | Unrecognised

  datatype Event =
    | Turn(ts: Option<Stamp>, state: string, agent: string, input: int, cache: int, output: int, tokens: int)
    | RunEnd(ts: Option<Stamp>, state: string, agent: string)
    | Transition(ts: Option<Stamp>, issue: string, from: string, to: string)
    | Gate(ts: Option<Stamp>, state: string, kind: GateKind, items: seq<string>)
    | Other(ts: Option<Stamp>)

  /** The board's lower-cased terminal states and its lower-cased lane order. */
  datatype Board = Board(done: set<string>, order: seq<string>)

  datatype Column =
    Input | Cache | Output | Tokens | Turns | Runs | Done | RewindsIn | RewindsOut | ContractFailures

  type Table<K(==)> = map<K, map<Column, int>>

  function Lower(s: string): string {
    seq(|s|, i requires 0 <= i < |s| => if 'A' <= s[i] <= 'Z' then s[i] + 32 as char else s[i])
  }

  function DayOf(e: Event): Day {
    if e.ts.Some? then Date(e.ts.value.date) else Unknown
  }

  /** `str(value or "?")` */
  function Name(s: string): string {
    if s == "" then "?" else s
  }

  predicate IsMove(e: Event) {
    e.Transition? && e.ts.Some? && e.issue != ""
  }

  /** The last position of a lane: a later duplicate overwrites an earlier one. */
  function LaneIndex(order: seq<string>, lane: string): Option<nat> {
    if |order| == 0 then None
    else if order[|order| - 1] == lane then Some(|order| - 1)
    else LaneIndex(order[..|order| - 1], lane)
  }

  predicate IsRewind(b: Board, e: Event) {
    && IsMove(e)
    && var from := LaneIndex(b.order, Lower(e.from));
    && var to := LaneIndex(b.order, Lower(e.to));
    && from.Some? && to.Some? && from.value > to.value
  }

  predicate IsDone(b: Board, e: Event) {
    IsMove(e) && Lower(e.to) in b.done
  }

  // ---------------------------------------------------------------------
  // What one event contributes
  // ---------------------------------------------------------------------

  function Bit(p: bool): int { if p then 1 else 0 }

  function Whole(b: Board, c: Column, e: Event): int {
    match c
    case Input => if e.Turn? then e.input else 0
    case Cache => if e.Turn? then e.cache else 0
    case Output => if e.Turn? then e.output else 0
    case Tokens => if e.Turn? then e.tokens else 0
    case Turns => Bit(e.Turn?)
    case Runs => Bit(e.RunEnd?)
    case Done => Bit(IsDone(b, e))
    case RewindsIn => Bit(IsRewind(b, e))
    case RewindsOut => Bit(IsRewind(b, e))
    case ContractFailures => Bit(e.Gate? && e.kind == ContractFailure)
  }

  /** The row a column's contribution belongs to. */
  function StateKey(c: Column, e: Event): string {
    if e.Transition? then (if c == RewindsIn then Lower(e.to) else Lower(e.from))
    else if e.Other? then "" else Name(e.state)
  }

  function AgentKey(e: Event): string {
    if e.Turn? || e.RunEnd? then Name(e.agent) else ""
  }

  predicate DayColumn(c: Column) { c == Tokens || c == Turns || c == Done }

  predicate AgentColumn(c: Column) { c == Tokens || c == Turns || c == Runs }

  predicate StateColumn(c: Column) {
    AgentColumn(c) || c == RewindsIn || c == RewindsOut || c == ContractFailures
  }

  ghost function Wholes(b: Board, c: Column): Event -> int {
    (e: Event) => Whole(b, c, e)
  }

  ghost function DayParts(b: Board, c: Column): (Day, Event) -> int {
    (d: Day, e: Event) => if DayColumn(c) && d == DayOf(e) then Whole(b, c, e) else 0
  }

  ghost function StateParts(b: Board, c: Column): (string, Event) -> int {
    (s: string, e: Event) => if StateColumn(c) && s == StateKey(c, e) then Whole(b, c, e) else 0
  }

  ghost function AgentParts(b: Board, c: Column): (string, Event) -> int {
    (a: string, e: Event) => if AgentColumn(c) && a == AgentKey(e) then Whole(b, c, e) else 0
  }

  ghost function Tally(h: seq<Event>, whole: Event -> int): int {
    if |h| == 0 then 0 else Tally(h[..|h| - 1], whole) + whole(h[|h| - 1])
  }

  ghost function TallyAt<K(!new)>(h: seq<Event>, part: (K, Event) -> int, k: K): int {
    if |h| == 0 then 0 else TallyAt(h[..|h| - 1], part, k) + part(k, h[|h| - 1])
  }

  // ---------------------------------------------------------------------
  // Sums over finite sets
  // ---------------------------------------------------------------------

  ghost function SumSet<K(!new)>(ks: set<K>, f: K -> int): int {
    if ks == {} then 0 else
      var k :| k in ks;
      f(k) + SumSet(ks - {k}, f)
  }

  lemma {:induction false} SumSetRemove<K(!new)>(ks: set<K>, f: K -> int, k: K)
    requires k in ks
    ensures SumSet(ks, f) == f(k) + SumSet(ks - {k}, f)
    decreases |ks|
  {
    var first :| first in ks && SumSet(ks, f) == f(first) + SumSet(ks - {first}, f);
    if first != k {
      SumSetRemove(ks - {first}, f, k);
      SumSetRemove(ks - {k}, f, first);
      assert ks - {first} - {k} == ks - {k} - {first};
    }
  }

  lemma {:induction false} SumSetSplit<K(!new)>(ks: set<K>, f: K -> int, g: K -> int, h: K -> int)
    requires forall k :: k in ks ==> f(k) == g(k) + h(k)
    ensures SumSet(ks, f) == SumSet(ks, g) + SumSet(ks, h)
    decreases |ks|
  {
    if ks != {} {
      var k :| k in ks;
      SumSetSplit(ks - {k}, f, g, h);
      SumSetRemove(ks, f, k);
      SumSetRemove(ks, g, k);
      SumSetRemove(ks, h, k);
    }
  }

  lemma {:induction false} SumSetZero<K(!new)>(ks: set<K>, f: K -> int)
    requires forall k :: k in ks ==> f(k) == 0
    ensures SumSet(ks, f) == 0
    decreases |ks|
  {
    if ks != {} {
      var k :| k in ks;
      SumSetRemove(ks, f, k);
      SumSetZero(ks - {k}, f);
    }
  }

  lemma SumSetPoint<K(!new)>(ks: set<K>, f: K -> int, key: K)
    requires forall k :: k in ks && k != key ==> f(k) == 0
    requires key !in ks ==> f(key) == 0
    ensures SumSet(ks, f) == f(key)
  {
    if key in ks {
      SumSetRemove(ks, f, key);
      SumSetZero(ks - {key}, f);
    } else {
      SumSetZero(ks, f);
    }
  }

  /**
   Tallies split by key add up to the tally of the whole, whatever the key set,
   as long as it holds the key of every event that contributes.
   */
  lemma {:induction false} TalliesAddUp<K(!new)>(
      h: seq<Event>, ks: set<K>, part: (K, Event) -> int, key: Event -> K, whole: Event -> int)
    requires forall k, e :: part(k, e) == if k == key(e) then whole(e) else 0
    requires forall e :: e in h && whole(e) != 0 ==> key(e) in ks
    ensures SumSet(ks, (k: K) => TallyAt(h, part, k)) == Tally(h, whole)
  {
    var sums := (k: K) => TallyAt(h, part, k);
    if |h| == 0 {
      SumSetZero(ks, sums);
    } else {
      var before, e := h[..|h| - 1], h[|h| - 1];
      var rest := (k: K) => TallyAt(before, part, k);
      var now := (k: K) => part(k, e);
      TalliesAddUp(before, ks, part, key, whole);
      SumSetSplit(ks, sums, rest, now);
      SumSetPoint(ks, now, key(e));
    }
  }

  // ---------------------------------------------------------------------
  // Time spent in a state
  // ---------------------------------------------------------------------

  /** The state an issue last moved to, and when. */
  ghost function LastMove(h: seq<Event>, issue: string): Option<(string, int)> {
    if |h| == 0 then None
    else
      var e := h[|h| - 1];
      if IsMove(e) && e.issue == issue then Some((e.to, e.ts.value.instant))
      else LastMove(h[..|h| - 1], issue)
  }

  ghost function FirstMove(h: seq<Event>, issue: string): Option<int> {
    if |h| == 0 then None
    else
      var earlier := FirstMove(h[..|h| - 1], issue);
      var e := h[|h| - 1];
      if earlier.Some? then earlier
      else if IsMove(e) && e.issue == issue then Some(e.ts.value.instant)
      else None
  }

  /** The time an event closes in state `s`: from its issue's previous move to its own. */
  ghost function Closed(h: seq<Event>, e: Event, s: string): seq<int> {
    if !IsMove(e) then []
    else
      var previous := LastMove(h, e.issue);
      if previous.Some? && previous.value.0 == s then [e.ts.value.instant - previous.value.1] else []
  }

  ghost function DwellIn(h: seq<Event>, s: string): seq<int> {
    if |h| == 0 then [] else DwellIn(h[..|h| - 1], s) + Closed(h[..|h| - 1], h[|h| - 1], s)
  }

  ghost function SumSeq(s: seq<int>): int {
    if |s| == 0 then 0 else SumSeq(s[..|s| - 1]) + s[|s| - 1]
  }

  /** First to last move of an issue; negative when the log is out of order. */
  ghost function Span(h: seq<Event>, issue: string): int {
    var last, first := LastMove(h, issue), FirstMove(h, issue);
    if last.Some? && first.Some? then last.value.1 - first.value else 0
  }

  lemma {:induction false} MovedTogether(h: seq<Event>, issue: string)
    ensures FirstMove(h, issue).Some? <==> LastMove(h, issue).Some?
  {
    if |h| > 0 {
      MovedTogether(h[..|h| - 1], issue);
    }
  }

  ghost function DwellSum(h: seq<Event>): string -> int {
    (s: string) => SumSeq(DwellIn(h, s))
  }

  ghost function Spans(h: seq<Event>): string -> int {
    (issue: string) => Span(h, issue)
  }

  /**
   All dwell times together are the issues' first-to-last spans, even when
   timestamps run backwards.
   */
  lemma {:induction false} DwellTelescopes(h: seq<Event>, states: set<string>, issues: set<string>)
    requires forall s :: DwellIn(h, s) != [] ==> s in states
    requires forall i :: LastMove(h, i).Some? ==> i in issues
    ensures SumSet(states, DwellSum(h)) == SumSet(issues, Spans(h))
  {
    if |h| == 0 {
      SumSetZero(states, DwellSum(h));
      SumSetZero(issues, Spans(h));
    } else {
      var before, e := h[..|h| - 1], h[|h| - 1];
      assert forall s :: DwellIn(before, s) != [] ==> DwellIn(h, s) != [];
      DwellTelescopes(before, states, issues);
      var closed := (s: string) => SumSeq(Closed(before, e, s));
      var grown := (i: string) => Span(h, i) - Span(before, i);
      forall s ensures DwellSum(h)(s) == DwellSum(before)(s) + closed(s) {
        SumSeqAppend(DwellIn(before, s), Closed(before, e, s));
      }
      SumSetSplit(states, DwellSum(h), DwellSum(before), closed);
      SumSetSplit(issues, Spans(h), Spans(before), grown);
      MoveBalance(h, states, issues, closed, grown);
    }
  }

  lemma SumSeqAppend(a: seq<int>, b: seq<int>)
    requires |b| <= 1
    ensures SumSeq(a + b) == SumSeq(a) + SumSeq(b)
  {
    if |b| == 0 {
      assert a + b == a;
    } else {
      assert (a + b)[..|a|] == a && b[..0] == [];
    }
  }

  lemma SpanGrowth(h: seq<Event>, issue: string)
    requires |h| > 0
    ensures var before, e := h[..|h| - 1], h[|h| - 1];
            Span(h, issue) - Span(before, issue)
            == (if IsMove(e) && e.issue == issue && LastMove(before, issue).Some?
                then e.ts.value.instant - LastMove(before, issue).value.1 else 0)
  {
    MovedTogether(h[..|h| - 1], issue);
  }

  /** One event closes exactly the time by which it lengthens its issue's span. */
  lemma MoveBalance(
      h: seq<Event>, states: set<string>, issues: set<string>, closed: string -> int, grown: string -> int)
    requires |h| > 0
    requires forall s :: closed(s) == SumSeq(Closed(h[..|h| - 1], h[|h| - 1], s))
    requires forall i :: grown(i) == Span(h, i) - Span(h[..|h| - 1], i)
    requires forall s :: DwellIn(h, s) != [] ==> s in states
    requires forall i :: LastMove(h, i).Some? ==> i in issues
    ensures SumSet(states, closed) == SumSet(issues, grown)
  {
    hide Span, DwellIn, FirstMove, LastMove;
    var before, e := h[..|h| - 1], h[|h| - 1];
    if IsMove(e) && LastMove(before, e.issue).Some? {
      var left := LastMove(before, e.issue).value.0;
      var time := e.ts.value.instant - LastMove(before, e.issue).value.1;
      assert closed(left) == time && left in states by {
        ClosedTime(h);
      }
      SumSetPoint(states, closed, left);
      forall i ensures grown(i) == if i == e.issue then time else 0 {
        SpanGrowth(h, i);
      }
      assert e.issue in issues by { assert LastMove(h, e.issue).Some? by { MoveIsLast(h); } }
      SumSetPoint(issues, grown, e.issue);
    } else {
      SumSetZero(states, closed);
      forall i ensures grown(i) == 0 {
        SpanGrowth(h, i);
      }
      SumSetZero(issues, grown);
    }
  }

  lemma ClosedTime(h: seq<Event>)
    requires |h| > 0 && IsMove(h[|h| - 1]) && LastMove(h[..|h| - 1], h[|h| - 1].issue).Some?
    ensures var before, e := h[..|h| - 1], h[|h| - 1];
            var (left, at) := LastMove(before, e.issue).value;
            && SumSeq(Closed(before, e, left)) == e.ts.value.instant - at
            && DwellIn(h, left) != []
  {
    var before, e := h[..|h| - 1], h[|h| - 1];
    var (left, at) := LastMove(before, e.issue).value;
    assert Closed(before, e, left)[..0] == [];
  }

  lemma MoveIsLast(h: seq<Event>)
    requires |h| > 0 && IsMove(h[|h| - 1])
    ensures LastMove(h, h[|h| - 1].issue).Some?
  {
  }

  // ---------------------------------------------------------------------
  // The accumulator
  // ---------------------------------------------------------------------

  function Count(row: map<Column, int>, c: Column): int {
    if c in row then row[c] else 0
  }

  function At<K(==)>(t: Table<K>, k: K, c: Column): int {
    if k in t then Count(t[k], c) else 0
  }

  function Inc(row: map<Column, int>, c: Column, n: int): map<Column, int> {
    row[c := Count(row, c) + n]
  }

  /** `table[k][c] += n` on a defaultdict: the row appears when first touched. */
  function Add<K(==)>(t: Table<K>, k: K, c: Column, n: int): Table<K> {
    t[k := Inc(if k in t then t[k] else map[], c, n)]
  }

  ghost predicate Tallied<K(!new)>(t: Table<K>, h: seq<Event>, c: Column, part: (K, Event) -> int) {
    forall k :: At(t, k, c) == TallyAt(h, part, k)
  }

  /** Every key an event contributes to has a row. */
  ghost predicate Keyed<K(!new)>(t: Table<K>, h: seq<Event>, key: Event -> K, whole: Event -> int) {
    forall e :: e in h && whole(e) != 0 ==> key(e) in t
  }

  ghost function StateKeys(c: Column): Event -> string {
    (e: Event) => StateKey(c, e)
  }

  ghost function Misses(h: seq<Event>): multiset<(string, string)> {
    if |h| == 0 then multiset{} else Misses(h[..|h| - 1]) + MissesOf(h[|h| - 1])
  }

  ghost function MissesOf(e: Event): multiset<(string, string)> {
    if e.Gate? && e.kind == ContractFailure
    then multiset(seq(|e.items|, i requires 0 <= i < |e.items| => (Name(e.state), e.items[i])))
    else multiset{}
  }

  ghost function Gates(h: seq<Event>, kind: GateKind): nat {
    if |h| == 0 then 0
    else Gates(h[..|h| - 1], kind) + if h[|h| - 1].Gate? && h[|h| - 1].kind == kind then 1 else 0
  }

  /** What each table becomes after one event. */
  function DayAfter(b: Board, t: Table<Day>, e: Event): Table<Day> {
    if e.Turn? then Add(Add(t, DayOf(e), Tokens, e.tokens), DayOf(e), Turns, 1)
    else if IsDone(b, e) then Add(t, DayOf(e), Done, 1)
    else t
  }

  function StateAfter(b: Board, t: Table<string>, e: Event): Table<string> {
    if e.Turn? then Add(Add(t, Name(e.state), Tokens, e.tokens), Name(e.state), Turns, 1)
    else if e.RunEnd? then Add(t, Name(e.state), Runs, 1)
    else if IsRewind(b, e) then Add(Add(t, Lower(e.from), RewindsOut, 1), Lower(e.to), RewindsIn, 1)
    else if e.Gate? && e.kind == ContractFailure then Add(t, Name(e.state), ContractFailures, 1)
    else t
  }

  function AgentAfter(t: Table<string>, e: Event): Table<string> {
    if e.Turn? then Add(Add(t, Name(e.agent), Tokens, e.tokens), Name(e.agent), Turns, 1)
    else if e.RunEnd? then Add(t, Name(e.agent), Runs, 1)
    else t
  }

  function TotalsAfter(b: Board, t: map<Column, int>, e: Event): map<Column, int> {
    if e.Turn? then
      Inc(Inc(Inc(Inc(Inc(t, Input, e.input), Cache, e.cache), Output, e.output), Tokens, e.tokens), Turns, 1)
    else if e.RunEnd? then Inc(t, Runs, 1)
    else if IsDone(b, e) then Inc(t, Done, 1)
    else t
  }

  lemma TableStep<K(!new)>(t: Table<K>, next: Table<K>, h: seq<Event>, e: Event, c: Column, part: (K, Event) -> int)
    requires Tallied(t, h, c, part)
    requires forall k :: At(next, k, c) == At(t, k, c) + part(k, e)
    ensures Tallied(next, h + [e], c, part)
  {
    assert (h + [e])[..|h|] == h;
  }

  lemma KeyStep<K(!new)>(t: Table<K>, next: Table<K>, h: seq<Event>, e: Event, key: Event -> K, whole: Event -> int)
    requires Keyed(t, h, key, whole)
    requires t.Keys <= next.Keys
    requires whole(e) != 0 ==> key(e) in next
    ensures Keyed(next, h + [e], key, whole)
  {
    forall x | x in h + [e] && whole(x) != 0 ensures key(x) in next {
      if x in h { assert key(x) in t.Keys; }
    }
  }

  lemma AddAt<K>(t: Table<K>, k: K, c: Column, n: int, key: K, column: Column)
    ensures At(Add(t, k, c, n), key, column) == At(t, key, column) + if k == key && c == column then n else 0
  {
  }

  lemma DayStep(b: Board, t: Table<Day>, h: seq<Event>, e: Event, c: Column)
    requires Tallied(t, h, c, DayParts(b, c))
    ensures Tallied(DayAfter(b, t, e), h + [e], c, DayParts(b, c))
  {
    forall d ensures At(DayAfter(b, t, e), d, c) == At(t, d, c) + DayParts(b, c)(d, e) {
      DayCell(b, t, e, d, c);
    }
    TableStep(t, DayAfter(b, t, e), h, e, c, DayParts(b, c));
  }

  lemma DayCell(b: Board, t: Table<Day>, e: Event, d: Day, c: Column)
    ensures At(DayAfter(b, t, e), d, c) == At(t, d, c) + DayParts(b, c)(d, e)
  {
    hide Lower, IsRewind;
    var day := DayOf(e);
    if e.Turn? {
      var first := Add(t, day, Tokens, e.tokens);
      assert DayAfter(b, t, e) == Add(first, day, Turns, 1);
      AddAt(t, day, Tokens, e.tokens, d, c);
      AddAt(first, day, Turns, 1, d, c);
      assert DayColumn(c) ==> Whole(b, c, e) == if c == Tokens then e.tokens else if c == Turns then 1 else 0;
    } else {
      AddAt(t, day, Done, 1, d, c);
      assert DayColumn(c) ==> Whole(b, c, e) == if c == Done && IsDone(b, e) then 1 else 0;
    }
  }

  lemma StateStep(b: Board, t: Table<string>, h: seq<Event>, e: Event, c: Column)
    requires Tallied(t, h, c, StateParts(b, c))
    ensures Tallied(StateAfter(b, t, e), h + [e], c, StateParts(b, c))
  {
    hide IsDone, Lower, Name, LaneIndex, IsRewind, At, StateAfter, StateParts;
    forall s ensures At(StateAfter(b, t, e), s, c) == At(t, s, c) + StateParts(b, c)(s, e) {
      StateCell(b, t, e, s, c);
    }
    TableStep(t, StateAfter(b, t, e), h, e, c, StateParts(b, c));
  }

  lemma StateCell(b: Board, t: Table<string>, e: Event, s: string, c: Column)
    ensures At(StateAfter(b, t, e), s, c) == At(t, s, c) + StateParts(b, c)(s, e)
  {
    hide IsDone, Lower, Name, LaneIndex;
    if e.Turn? {
      var first := Add(t, Name(e.state), Tokens, e.tokens);
      assert StateAfter(b, t, e) == Add(first, Name(e.state), Turns, 1);
      AddAt(t, Name(e.state), Tokens, e.tokens, s, c);
      AddAt(first, Name(e.state), Turns, 1, s, c);
      assert StateColumn(c) ==> Whole(b, c, e) == if c == Tokens then e.tokens else if c == Turns then 1 else 0;
    } else if e.RunEnd? {
      AddAt(t, Name(e.state), Runs, 1, s, c);
      assert StateColumn(c) ==> Whole(b, c, e) == if c == Runs then 1 else 0;
    } else if e.Transition? {
      var first := Add(t, Lower(e.from), RewindsOut, 1);
      AddAt(t, Lower(e.from), RewindsOut, 1, s, c);
      AddAt(first, Lower(e.to), RewindsIn, 1, s, c);
      assert StateColumn(c) ==> Whole(b, c, e) == if c == RewindsIn || c == RewindsOut then Bit(IsRewind(b, e)) else 0;
    } else if e.Gate? {
      AddAt(t, Name(e.state), ContractFailures, 1, s, c);
      assert StateColumn(c) ==> Whole(b, c, e) == if c == ContractFailures then Bit(e.kind == ContractFailure) else 0;
    } else {
      assert StateColumn(c) ==> Whole(b, c, e) == 0;
    }
  }

  lemma AgentStep(b: Board, t: Table<string>, h: seq<Event>, e: Event, c: Column)
    requires Tallied(t, h, c, AgentParts(b, c))
    ensures Tallied(AgentAfter(t, e), h + [e], c, AgentParts(b, c))
  {
    hide IsDone, Lower, Name, LaneIndex, IsRewind, At, AgentAfter, AgentParts;
    forall a ensures At(AgentAfter(t, e), a, c) == At(t, a, c) + AgentParts(b, c)(a, e) {
      AgentCell(b, t, e, a, c);
    }
    TableStep(t, AgentAfter(t, e), h, e, c, AgentParts(b, c));
  }

  lemma AgentCell(b: Board, t: Table<string>, e: Event, a: string, c: Column)
    ensures At(AgentAfter(t, e), a, c) == At(t, a, c) + AgentParts(b, c)(a, e)
  {
    hide IsDone, Lower, Name, IsRewind;
    if e.Turn? {
      var first := Add(t, Name(e.agent), Tokens, e.tokens);
      assert AgentAfter(t, e) == Add(first, Name(e.agent), Turns, 1);
      AddAt(t, Name(e.agent), Tokens, e.tokens, a, c);
      AddAt(first, Name(e.agent), Turns, 1, a, c);
      assert AgentColumn(c) ==> Whole(b, c, e) == if c == Tokens then e.tokens else if c == Turns then 1 else 0;
    } else if e.RunEnd? {
      AddAt(t, Name(e.agent), Runs, 1, a, c);
      assert AgentColumn(c) ==> Whole(b, c, e) == if c == Runs then 1 else 0;
    } else {
      assert AgentColumn(c) ==> Whole(b, c, e) == 0;
    }
  }

  lemma TotalsStep(b: Board, t: map<Column, int>, h: seq<Event>, e: Event, c: Column)
    requires Count(t, c) == Tally(h, Wholes(b, c))
    requires DayColumn(c) || AgentColumn(c) || c == Input || c == Cache || c == Output
    ensures Count(TotalsAfter(b, t, e), c) == Tally(h + [e], Wholes(b, c))
  {
    hide Lower, IsRewind, LaneIndex;
    assert (h + [e])[..|h|] == h;
  }

  function Lookup<V>(m: map<string, V>, k: string): Option<V> {
    if k in m then Some(m[k]) else None
  }

  function Listed(m: map<string, seq<int>>, k: string): seq<int> {
    if k in m then m[k] else []
  }

  function FirstSeenAfter(m: map<string, int>, e: Event): map<string, int> {
    if IsMove(e) && e.issue !in m then m[e.issue := e.ts.value.instant] else m
  }

  function EnteredAfter(m: map<string, (string, int)>, e: Event): map<string, (string, int)> {
    if IsMove(e) then m[e.issue := (e.to, e.ts.value.instant)] else m
  }

  function DwellAfter(m: map<string, seq<int>>, entered: map<string, (string, int)>, e: Event): map<string, seq<int>> {
    if IsMove(e) && e.issue in entered then
      var (left, at) := entered[e.issue];
      m[left := Listed(m, left) + [e.ts.value.instant - at]]
    else m
  }

  function DoneAtAfter(b: Board, m: map<string, int>, e: Event): map<string, int> {
    if IsDone(b, e) then m[e.issue := e.ts.value.instant] else m
  }

  function GatesAfter(m: map<GateKind, nat>, e: Event): map<GateKind, nat> {
    if e.Gate? && e.kind in m then m[e.kind := m[e.kind] + 1] else m
  }

  predicate TotalColumn(c: Column) {
    DayColumn(c) || AgentColumn(c) || c == Input || c == Cache || c == Output
  }

  /** The totals are the tallies of the events folded so far. */
  ghost predicate Counted(b: Board, h: seq<Event>, totals: map<Column, int>, rewinds: int) {
    && (forall c :: TotalColumn(c) ==> Count(totals, c) == Tally(h, Wholes(b, c)))
    && rewinds == Tally(h, Wholes(b, RewindsIn))
  }

  /** So is every cell of every row. */
  ghost predicate RowsCounted(
      b: Board, h: seq<Event>, byDay: Table<Day>, byState: Table<string>, byAgent: Table<string>)
  {
    && (forall c :: Tallied(byDay, h, c, DayParts(b, c)))
    && (forall c :: Tallied(byState, h, c, StateParts(b, c)))
    && (forall c :: Tallied(byAgent, h, c, AgentParts(b, c)))
  }

  ghost predicate Rowed(
      b: Board, h: seq<Event>, byDay: Table<Day>, byState: Table<string>, byAgent: Table<string>)
  {
    && (forall c :: DayColumn(c) ==> Keyed(byDay, h, DayOf, Wholes(b, c)))
    && (forall c :: StateColumn(c) ==> Keyed(byState, h, StateKeys(c), Wholes(b, c)))
    && (forall c :: AgentColumn(c) ==> Keyed(byAgent, h, AgentKey, Wholes(b, c)))
  }

  ghost predicate Timed(
      h: seq<Event>, firstSeen: map<string, int>, entered: map<string, (string, int)>, dwell: map<string, seq<int>>)
  {
    && (forall i :: Lookup(firstSeen, i) == FirstMove(h, i))
    && (forall i :: Lookup(entered, i) == LastMove(h, i))
    && (forall s :: Listed(dwell, s) == DwellIn(h, s))
  }

  ghost predicate Gated(h: seq<Event>, gates: map<GateKind, nat>, misses: multiset<(string, string)>) {
    && gates.Keys == {ContractFailure, ReopenBudget, BackendFallback}
    && (forall k :: k in gates ==> gates[k] == Gates(h, k))
    && misses == Misses(h)
  }

  lemma GateKinds(h: seq<Event>, gates: map<GateKind, nat>, misses: multiset<(string, string)>)
    requires Gated(h, gates, misses)
    ensures gates.Keys == {ContractFailure, ReopenBudget, BackendFallback}
  {
  }

  lemma CountedStep(b: Board, h: seq<Event>, e: Event, totals: map<Column, int>, rewinds: int)
    requires Counted(b, h, totals, rewinds)
    ensures Counted(b, h + [e], TotalsAfter(b, totals, e), rewinds + Bit(IsRewind(b, e)))
  {
    hide TotalsAfter, IsRewind, IsDone;
    forall c | TotalColumn(c) ensures Count(TotalsAfter(b, totals, e), c) == Tally(h + [e], Wholes(b, c)) {
      TotalsStep(b, totals, h, e, c);
    }
    assert (h + [e])[..|h|] == h;
  }

  lemma RowsCountedStep(
      b: Board, h: seq<Event>, e: Event, byDay: Table<Day>, byState: Table<string>, byAgent: Table<string>)
    requires RowsCounted(b, h, byDay, byState, byAgent)
    ensures RowsCounted(b, h + [e], DayAfter(b, byDay, e), StateAfter(b, byState, e), AgentAfter(byAgent, e))
  {
    hide Tallied, DayAfter, StateAfter, AgentAfter;
    forall c
      ensures Tallied(DayAfter(b, byDay, e), h + [e], c, DayParts(b, c))
      ensures Tallied(StateAfter(b, byState, e), h + [e], c, StateParts(b, c))
      ensures Tallied(AgentAfter(byAgent, e), h + [e], c, AgentParts(b, c))
    {
      DayStep(b, byDay, h, e, c);
      StateStep(b, byState, h, e, c);
      AgentStep(b, byAgent, h, e, c);
    }
  }

  lemma RowedStep(
      b: Board, h: seq<Event>, e: Event, byDay: Table<Day>, byState: Table<string>, byAgent: Table<string>)
    requires Rowed(b, h, byDay, byState, byAgent)
    ensures Rowed(b, h + [e], DayAfter(b, byDay, e), StateAfter(b, byState, e), AgentAfter(byAgent, e))
  {
    hide Keyed, Lower, Name, LaneIndex, Inc;
    forall c | DayColumn(c) ensures Keyed(DayAfter(b, byDay, e), h + [e], DayOf, Wholes(b, c)) {
      KeyStep(byDay, DayAfter(b, byDay, e), h, e, DayOf, Wholes(b, c));
    }
    forall c | StateColumn(c) ensures Keyed(StateAfter(b, byState, e), h + [e], StateKeys(c), Wholes(b, c)) {
      KeyStep(byState, StateAfter(b, byState, e), h, e, StateKeys(c), Wholes(b, c));
    }
    forall c | AgentColumn(c) ensures Keyed(AgentAfter(byAgent, e), h + [e], AgentKey, Wholes(b, c)) {
      KeyStep(byAgent, AgentAfter(byAgent, e), h, e, AgentKey, Wholes(b, c));
    }
  }

  lemma TimedStep(
      h: seq<Event>, e: Event,
      firstSeen: map<string, int>, entered: map<string, (string, int)>, dwell: map<string, seq<int>>)
    requires Timed(h, firstSeen, entered, dwell)
    ensures Timed(h + [e], FirstSeenAfter(firstSeen, e), EnteredAfter(entered, e), DwellAfter(dwell, entered, e))
  {
    hide DwellAfter, FirstSeenAfter, EnteredAfter, FirstMove, LastMove, DwellIn;
    forall i
      ensures Lookup(FirstSeenAfter(firstSeen, e), i) == FirstMove(h + [e], i)
      ensures Lookup(EnteredAfter(entered, e), i) == LastMove(h + [e], i)
    {
      MoveStep(h, e, firstSeen, entered, i);
    }
    forall s ensures Listed(DwellAfter(dwell, entered, e), s) == DwellIn(h + [e], s) {
      DwellStep(h, e, entered, dwell, s);
    }
  }

  lemma MoveStep(h: seq<Event>, e: Event, firstSeen: map<string, int>, entered: map<string, (string, int)>, i: string)
    requires Lookup(firstSeen, i) == FirstMove(h, i) && Lookup(entered, i) == LastMove(h, i)
    ensures Lookup(FirstSeenAfter(firstSeen, e), i) == FirstMove(h + [e], i)
    ensures Lookup(EnteredAfter(entered, e), i) == LastMove(h + [e], i)
  {
    assert (h + [e])[..|h|] == h;
  }

  lemma DwellStep(h: seq<Event>, e: Event, entered: map<string, (string, int)>, dwell: map<string, seq<int>>, s: string)
    requires Listed(dwell, s) == DwellIn(h, s)
    requires IsMove(e) ==> Lookup(entered, e.issue) == LastMove(h, e.issue)
    ensures Listed(DwellAfter(dwell, entered, e), s) == DwellIn(h + [e], s)
  {
    hide IsMove, LastMove;
    assert (h + [e])[..|h|] == h;
  }

  lemma GatedStep(h: seq<Event>, e: Event, gates: map<GateKind, nat>, misses: multiset<(string, string)>)
    requires Gated(h, gates, misses)
    ensures Gated(h + [e], GatesAfter(gates, e), misses + MissesOf(e))
  {
    assert (h + [e])[..|h|] == h;
  }

  // ---------------------------------------------------------------------
  // Conservation, for every event list
  // ---------------------------------------------------------------------

  ghost function Cells<K(!new)>(t: Table<K>, c: Column): K -> int {
    (k: K) => At(t, k, c)
  }

  lemma {:induction false} SumSetSame<K(!new)>(ks: set<K>, f: K -> int, g: K -> int)
    requires forall k :: k in ks ==> f(k) == g(k)
    ensures SumSet(ks, f) == SumSet(ks, g)
  {
    var zero := (k: K) => 0;
    SumSetSplit(ks, f, g, zero);
    SumSetZero(ks, zero);
  }

  /** A table whose cells are tallies has rows that add up to the whole tally. */
  lemma RowsAddUp<K(!new)>(
      t: Table<K>, h: seq<Event>, c: Column, part: (K, Event) -> int, key: Event -> K, whole: Event -> int)
    requires Tallied(t, h, c, part) && Keyed(t, h, key, whole)
    requires forall k, e :: part(k, e) == if k == key(e) then whole(e) else 0
    ensures SumSet(t.Keys, Cells(t, c)) == Tally(h, whole)
  {
    TalliesAddUp(h, t.Keys, part, key, whole);
    SumSetSame(t.Keys, Cells(t, c), (k: K) => TallyAt(h, part, k));
  }

  /** Days, states and agents each add up to the totals. */
  lemma RowsMatchTotals(
      b: Board, h: seq<Event>, totals: map<Column, int>, rewinds: int,
      byDay: Table<Day>, byState: Table<string>, byAgent: Table<string>, c: Column)
    requires Counted(b, h, totals, rewinds)
    requires RowsCounted(b, h, byDay, byState, byAgent) && Rowed(b, h, byDay, byState, byAgent)
    ensures DayColumn(c) ==> SumSet(byDay.Keys, Cells(byDay, c)) == Count(totals, c)
    ensures AgentColumn(c) ==>
              SumSet(byState.Keys, Cells(byState, c)) == SumSet(byAgent.Keys, Cells(byAgent, c)) == Count(totals, c)
  {
    hide Tallied, Keyed, Whole, Cells, Lower, Name;
    if DayColumn(c) {
      RowsAddUp(byDay, h, c, DayParts(b, c), DayOf, Wholes(b, c));
    }
    if AgentColumn(c) {
      RowsAddUp(byState, h, c, StateParts(b, c), StateKeys(c), Wholes(b, c));
      RowsAddUp(byAgent, h, c, AgentParts(b, c), AgentKey, Wholes(b, c));
    }
  }

  /** Every rewind leaves one lane and enters one. */
  lemma RewindsMatch(
      b: Board, h: seq<Event>, totals: map<Column, int>, rewinds: int,
      byDay: Table<Day>, byState: Table<string>, byAgent: Table<string>)
    requires Counted(b, h, totals, rewinds)
    requires RowsCounted(b, h, byDay, byState, byAgent) && Rowed(b, h, byDay, byState, byAgent)
    ensures SumSet(byState.Keys, Cells(byState, RewindsIn)) == rewinds
    ensures SumSet(byState.Keys, Cells(byState, RewindsOut)) == rewinds
  {
    hide Tallied, Keyed, Cells, Lower, Name, IsRewind;
    RowsAddUp(byState, h, RewindsIn, StateParts(b, RewindsIn), StateKeys(RewindsIn), Wholes(b, RewindsIn));
    RowsAddUp(byState, h, RewindsOut, StateParts(b, RewindsOut), StateKeys(RewindsOut), Wholes(b, RewindsOut));
    SameTally(h, Wholes(b, RewindsIn), Wholes(b, RewindsOut));
  }

  lemma {:induction false} SameTally(h: seq<Event>, f: Event -> int, g: Event -> int)
    requires forall e :: f(e) == g(e)
    ensures Tally(h, f) == Tally(h, g)
  {
    if |h| > 0 {
      SameTally(h[..|h| - 1], f, g);
    }
  }

  /** Contract failures per lane add up to the gate count. */
  lemma ContractFailuresMatch(
      b: Board, h: seq<Event>, byDay: Table<Day>, byState: Table<string>, byAgent: Table<string>,
      gates: map<GateKind, nat>, misses: multiset<(string, string)>)
    requires RowsCounted(b, h, byDay, byState, byAgent) && Rowed(b, h, byDay, byState, byAgent)
    requires Gated(h, gates, misses)
    ensures SumSet(byState.Keys, Cells(byState, ContractFailures)) == gates[ContractFailure]
  {
    hide Tallied, Keyed, Cells, Lower, Name, IsRewind;
    RowsAddUp(byState, h, ContractFailures, StateParts(b, ContractFailures), StateKeys(ContractFailures),
              Wholes(b, ContractFailures));
    GateTally(b, h);
  }

  lemma {:induction false} GateTally(b: Board, h: seq<Event>)
    ensures Tally(h, Wholes(b, ContractFailures)) == Gates(h, ContractFailure)
  {
    if |h| > 0 {
      GateTally(b, h[..|h| - 1]);
    }
  }

  /**
   The day list the result shows drops undated events, so it falls short of
   the totals by exactly their share.
   */
  lemma ShownDaysFallShort(
      b: Board, h: seq<Event>, totals: map<Column, int>, rewinds: int,
      byDay: Table<Day>, byState: Table<string>, byAgent: Table<string>, c: Column)
    requires Counted(b, h, totals, rewinds) && DayColumn(c)
    requires RowsCounted(b, h, byDay, byState, byAgent) && Rowed(b, h, byDay, byState, byAgent)
    ensures SumSet(byDay.Keys - {Unknown}, Cells(byDay, c)) == Count(totals, c) - TallyAt(h, DayParts(b, c), Unknown)
  {
    hide TallyAt, DayParts, Wholes;
    RowsMatchTotals(b, h, totals, rewinds, byDay, byState, byAgent, c);
    assert Tallied(byDay, h, c, DayParts(b, c));
    if Unknown in byDay {
      SumSetRemove(byDay.Keys, Cells(byDay, c), Unknown);
    } else {
      assert byDay.Keys - {Unknown} == byDay.Keys;
      assert At(byDay, Unknown, c) == 0;
    }
  }

  ghost function DwellTimes(dwell: map<string, seq<int>>): string -> int {
    (s: string) => SumSeq(Listed(dwell, s))
  }

  ghost function Elapsed(firstSeen: map<string, int>, entered: map<string, (string, int)>): string -> int {
    (i: string) => if i in firstSeen && i in entered then entered[i].1 - firstSeen[i] else 0
  }

  /** All dwell times are the issues' last minus first transition times. */
  lemma DwellMatchesSpans(
      h: seq<Event>, firstSeen: map<string, int>, entered: map<string, (string, int)>, dwell: map<string, seq<int>>)
    requires Timed(h, firstSeen, entered, dwell)
    ensures SumSet(dwell.Keys, DwellTimes(dwell)) == SumSet(firstSeen.Keys, Elapsed(firstSeen, entered))
    ensures entered.Keys == firstSeen.Keys
  {
    hide DwellIn, FirstMove, LastMove, SumSeq;
    forall i ensures i in entered <==> i in firstSeen {
      MovedTogether(h, i);
      assert Lookup(firstSeen, i) == FirstMove(h, i) && Lookup(entered, i) == LastMove(h, i);
    }
    forall s ensures Listed(dwell, s) == DwellIn(h, s) {
    }
    forall i ensures Elapsed(firstSeen, entered)(i) == Spans(h)(i) {
      assert Lookup(firstSeen, i) == FirstMove(h, i) && Lookup(entered, i) == LastMove(h, i);
    }
    DwellTelescopes(h, dwell.Keys, firstSeen.Keys);
    SumSetSame(dwell.Keys, DwellTimes(dwell), DwellSum(h));
    SumSetSame(firstSeen.Keys, Elapsed(firstSeen, entered), Spans(h));
  }

  class Accumulator {
    const board: Board
    ghost var history: seq<Event>
    var totals: map<Column, int>
    var byDay: Table<Day>
    var byState: Table<string>
    var byAgent: Table<string>
    var gates: map<GateKind, nat>
    var rewinds: int
    var misses: multiset<(string, string)>
    var firstSeen: map<string, int>
    var doneAt: map<string, int>
    var entered: map<string, (string, int)>
    var dwell: map<string, seq<int>>

    ghost predicate Valid()
      reads this
    {
      && Counted(board, history, totals, rewinds)
      && RowsCounted(board, history, byDay, byState, byAgent)
      && Rowed(board, history, byDay, byState, byAgent)
      && Timed(history, firstSeen, entered, dwell)
      && Gated(history, gates, misses)
    }

    constructor (board: Board)
      ensures Valid() && this.board == board && history == []
    {
      this.board := board;
      history := [];
      totals, byDay, byState, byAgent := map[], map[], map[], map[];
      gates := map[ContractFailure := 0, ReopenBudget := 0, BackendFallback := 0];
      rewinds, misses := 0, multiset{};
      firstSeen, doneAt, entered, dwell := map[], map[], map[], map[];
    }

    /** Folding an event accounts for it, and for nothing else. */
    method Fold(e: Event)
      requires Valid()
      modifies this
      ensures Valid() && history == old(history) + [e]
    {
      hide Counted, RowsCounted, Rowed, Timed, Gated, TotalsAfter, DayAfter, StateAfter, AgentAfter, MissesOf,
        FirstSeenAfter, EnteredAfter, DwellAfter, GatesAfter, IsRewind, DoneAtAfter;
      GateKinds(history, gates, misses);
      Dispatch(e);
      history := history + [e];
      CountedStep(board, old(history), e, old(totals), old(rewinds));
      RowsCountedStep(board, old(history), e, old(byDay), old(byState), old(byAgent));
      RowedStep(board, old(history), e, old(byDay), old(byState), old(byAgent));
      TimedStep(old(history), e, old(firstSeen), old(entered), old(dwell));
      GatedStep(old(history), e, old(gates), old(misses));
    }

    method Dispatch(e: Event)
      requires gates.Keys == {ContractFailure, ReopenBudget, BackendFallback}
      modifies `totals, `rewinds, `byDay, `byState, `byAgent, `gates, `misses
      modifies `firstSeen, `doneAt, `entered, `dwell
      ensures totals == TotalsAfter(board, old(totals), e)
      ensures rewinds == old(rewinds) + Bit(IsRewind(board, e))
      ensures byDay == DayAfter(board, old(byDay), e)
      ensures byState == StateAfter(board, old(byState), e)
      ensures byAgent == AgentAfter(old(byAgent), e)
      ensures firstSeen == FirstSeenAfter(old(firstSeen), e)
      ensures entered == EnteredAfter(old(entered), e)
      ensures dwell == DwellAfter(old(dwell), old(entered), e)
      ensures doneAt == DoneAtAfter(board, old(doneAt), e)
      ensures gates == GatesAfter(old(gates), e)
      ensures misses == old(misses) + MissesOf(e)
    {
      hide LaneIndex, Lower, Name, Add, Inc, DayOf;
      if e.Turn? {
        FoldTurn(e);
      } else if e.RunEnd? {
        FoldRunEnd(e);
      } else if e.Transition? && e.ts.Some? {
        FoldTransition(e);
      } else if e.Gate? {
        FoldGate(e);
      }
    }

    method FoldTurn(e: Event)
      requires e.Turn?
      modifies `totals, `byDay, `byState, `byAgent
      ensures totals == TotalsAfter(board, old(totals), e)
      ensures byDay == DayAfter(board, old(byDay), e)
      ensures byState == StateAfter(board, old(byState), e)
      ensures byAgent == AgentAfter(old(byAgent), e)
    {
      totals := Inc(totals, Input, e.input);
      totals := Inc(totals, Cache, e.cache);
      totals := Inc(totals, Output, e.output);
      totals := Inc(totals, Tokens, e.tokens);
      totals := Inc(totals, Turns, 1);
      byDay := Add(byDay, DayOf(e), Tokens, e.tokens);
      byDay := Add(byDay, DayOf(e), Turns, 1);
      byState := Add(byState, Name(e.state), Tokens, e.tokens);
      byState := Add(byState, Name(e.state), Turns, 1);
      byAgent := Add(byAgent, Name(e.agent), Tokens, e.tokens);
      byAgent := Add(byAgent, Name(e.agent), Turns, 1);
    }

    method FoldRunEnd(e: Event)
      requires e.RunEnd?
      modifies `totals, `byState, `byAgent
      ensures totals == TotalsAfter(board, old(totals), e)
      ensures byState == StateAfter(board, old(byState), e)
      ensures byAgent == AgentAfter(old(byAgent), e)
    {
      totals := Inc(totals, Runs, 1);
      byState := Add(byState, Name(e.state), Runs, 1);
      byAgent := Add(byAgent, Name(e.agent), Runs, 1);
    }

    method FoldTransition(e: Event)
      requires e.Transition? && e.ts.Some?
      modifies `totals, `rewinds, `byDay, `byState, `firstSeen, `doneAt, `entered, `dwell
      ensures totals == TotalsAfter(board, old(totals), e)
      ensures rewinds == old(rewinds) + Bit(IsRewind(board, e))
      ensures byDay == DayAfter(board, old(byDay), e)
      ensures byState == StateAfter(board, old(byState), e)
      ensures firstSeen == FirstSeenAfter(old(firstSeen), e)
      ensures entered == EnteredAfter(old(entered), e)
      ensures dwell == DwellAfter(old(dwell), old(entered), e)
      ensures doneAt == DoneAtAfter(board, old(doneAt), e)
    {
      hide LaneIndex, Lower, Add, Inc, DayOf;
      if e.issue == "" { return; }
      EnterState(e);
      CountMove(e);
    }

    method EnterState(e: Event)
      requires IsMove(e)
      modifies `firstSeen, `entered, `dwell
      ensures firstSeen == FirstSeenAfter(old(firstSeen), e)
      ensures entered == EnteredAfter(old(entered), e)
      ensures dwell == DwellAfter(old(dwell), old(entered), e)
    {
      var ts := e.ts.value.instant;
      if e.issue !in firstSeen {
        firstSeen := firstSeen[e.issue := ts];
      }
      if e.issue in entered {
        var (left, at) := entered[e.issue];
        entered := entered - {e.issue};
        dwell := dwell[left := Listed(dwell, left) + [ts - at]];
      }
      entered := entered[e.issue := (e.to, ts)];
    }

    method CountMove(e: Event)
      requires IsMove(e)
      modifies `totals, `rewinds, `byDay, `byState, `doneAt
      ensures totals == TotalsAfter(board, old(totals), e)
      ensures rewinds == old(rewinds) + Bit(IsRewind(board, e))
      ensures byDay == DayAfter(board, old(byDay), e)
      ensures byState == StateAfter(board, old(byState), e)
      ensures doneAt == DoneAtAfter(board, old(doneAt), e)
    {
      hide LaneIndex, Lower, Add, Inc, DayOf;
      var from := LaneIndex(board.order, Lower(e.from));
      var to := LaneIndex(board.order, Lower(e.to));
      if from.Some? && to.Some? && from.value > to.value {
        rewinds := rewinds + 1;
        byState := Add(byState, Lower(e.from), RewindsOut, 1);
        byState := Add(byState, Lower(e.to), RewindsIn, 1);
      }
      if Lower(e.to) in board.done {
        totals := Inc(totals, Done, 1);
        byDay := Add(byDay, DayOf(e), Done, 1);
        doneAt := doneAt[e.issue := e.ts.value.instant];
      }
    }

    method FoldGate(e: Event)
      requires e.Gate?
      requires gates.Keys == {ContractFailure, ReopenBudget, BackendFallback}
      modifies `gates, `byState, `misses
      ensures gates == GatesAfter(old(gates), e)
      ensures byState == StateAfter(board, old(byState), e)
      ensures misses == old(misses) + MissesOf(e)
    {
      if e.kind == Unrecognised { return; }
      gates := gates[e.kind := gates[e.kind] + 1];
      if e.kind == ContractFailure {
        byState := Add(byState, Name(e.state), ContractFailures, 1);
        CountMisses(e);
      }
    }

    method CountMisses(e: Event)
      requires e.Gate? && e.kind == ContractFailure
      modifies `misses
      ensures misses == old(misses) + MissesOf(e)
    {
      var state := Name(e.state);
      ghost var pairs := seq(|e.items|, i requires 0 <= i < |e.items| => (state, e.items[i]));
      for i := 0 to |e.items|
        invariant misses == old(misses) + multiset(pairs[..i])
      {
        misses := misses + multiset{(state, e.items[i])};
        assert pairs[..i + 1] == pairs[..i] + [pairs[i]];
      }
      assert pairs[..|e.items|] == pairs;
    }
  }

  /** One pass over the log: what the stats page shows accounts for every event. */
  method Aggregate(board: Board, events: seq<Event>) returns (acc: Accumulator)
    ensures fresh(acc) && acc.Valid() && acc.board == board && acc.history == events
  {
    hide Counted, RowsCounted, Rowed, Timed, Gated;
    acc := new Accumulator(board);
    for i := 0 to |events|
      invariant fresh(acc) && acc.Valid() && acc.board == board && acc.history == events[..i]
    {
      acc.Fold(events[i]);
    }
  }

  // ---------------------------------------------------------------------
  // What one more event adds, by its own fields
  // ---------------------------------------------------------------------

  predicate LastAt(order: seq<string>, lane: string, i: nat) {
    i < |order| && order[i] == lane && forall j :: i < j < |order| ==> order[j] != lane
  }

  lemma {:induction false} LaneIndexIff(order: seq<string>, lane: string, i: nat)
    ensures LaneIndex(order, lane) == Some(i) <==> LastAt(order, lane, i)
    ensures LaneIndex(order, lane) == None <==> lane !in order
  {
    if |order| > 0 {
      var n := |order| - 1;
      LaneIndexIff(order[..n], lane, i);
      assert order == order[..n] + [order[n]];
      if i < n && order[n] != lane {
        assert LastAt(order, lane, i) <==> LastAt(order[..n], lane, i);
      }
    }
  }

  /** A move is a rewind exactly when its lanes are on the board and the later one stands left of the earlier one. */
  lemma RewindIff(b: Board, e: Event)
    ensures IsRewind(b, e)
       <==> && IsMove(e)
            && exists i, j :: j < i && LastAt(b.order, Lower(e.from), i) && LastAt(b.order, Lower(e.to), j)
  {
    hide LaneIndex, Lower;
    if IsMove(e) {
      forall lane: string, i: nat ensures LaneIndex(b.order, lane) == Some(i) <==> LastAt(b.order, lane, i) {
        LaneIndexIff(b.order, lane, i);
      }
    }
  }

  lemma LowerLetters()
    ensures Lower("ABCDEFGHIJKLMNOPQRSTUVWXYZ") == "abcdefghijklmnopqrstuvwxyz"
  {
  }

  /** Lower-casing works letter by letter, changes nothing twice, and leaves no capital. */
  lemma LowerIs(s: string, t: string)
    ensures Lower(s + t) == Lower(s) + Lower(t) && Lower(Lower(s)) == Lower(s)
    ensures Lower(s) == s <==> forall i :: 0 <= i < |s| ==> !('A' <= s[i] <= 'Z')
  {
    assert forall i :: 0 <= i < |s| ==> (Lower(s)[i] == s[i] <==> !('A' <= s[i] <= 'Z'));
  }

  ghost function DayAt(h: seq<Event>, b: Board, c: Column, d: Day): int { TallyAt(h, DayParts(b, c), d) }

  ghost function StateAt(h: seq<Event>, b: Board, c: Column, s: string): int { TallyAt(h, StateParts(b, c), s) }

  ghost function AgentAt(h: seq<Event>, b: Board, c: Column, a: string): int { TallyAt(h, AgentParts(b, c), a) }

  ghost function Total(h: seq<Event>, b: Board, c: Column): int { Tally(h, Wholes(b, c)) }

  function Amount(turn: Event, c: Column): int
    requires turn.Turn?
  {
    match c
    case Input => turn.input
    case Cache => turn.cache
    case Output => turn.output
    case Tokens => turn.tokens
    case Turns => 1
    case _ => 0
  }

  lemma OneMoreEvent(h: seq<Event>, e: Event, b: Board, c: Column, d: Day, s: string)
    ensures Total(h + [e], b, c) == Total(h, b, c) + Whole(b, c, e)
    ensures DayAt(h + [e], b, c, d) == DayAt(h, b, c, d) +
              if DayColumn(c) && d == DayOf(e) then Whole(b, c, e) else 0
    ensures StateAt(h + [e], b, c, s) == StateAt(h, b, c, s) +
              if StateColumn(c) && s == StateKey(c, e) then Whole(b, c, e) else 0
    ensures AgentAt(h + [e], b, c, s) == AgentAt(h, b, c, s) +
              if AgentColumn(c) && s == AgentKey(e) then Whole(b, c, e) else 0
  {
    assert (h + [e])[..|h|] == h;
  }

  /** A turn adds its amounts to the totals, to its own date, and to the rows of its state and agent, or of "?". */
  lemma TurnCounts(h: seq<Event>, e: Event, b: Board, c: Column, d: Day, s: string)
    requires e.Turn?
    ensures Total(h + [e], b, c) == Total(h, b, c) + Amount(e, c)
    ensures c in {Tokens, Turns, Done} ==>
              DayAt(h + [e], b, c, d) == DayAt(h, b, c, d) +
                (if (e.ts.None? && d == Unknown) || (e.ts.Some? && d == Date(e.ts.value.date)) then Amount(e, c) else 0)
    ensures c in {Tokens, Turns, Runs} ==>
              && StateAt(h + [e], b, c, s) == StateAt(h, b, c, s) +
                  (if s == (if e.state == "" then "?" else e.state) then Amount(e, c) else 0)
              && AgentAt(h + [e], b, c, s) == AgentAt(h, b, c, s) +
                  (if s == (if e.agent == "" then "?" else e.agent) then Amount(e, c) else 0)
  {
    hide Total, DayAt, StateAt, AgentAt;
    OneMoreEvent(h, e, b, c, d, s);
  }

  /**
   A transition with a time and an issue is done by where it goes to; a rewind is
   charged once to the lane it goes to and once to the lane it leaves.
   */
  lemma TransitionCounts(h: seq<Event>, e: Event, b: Board, c: Column, d: Day, s: string)
    requires e.Transition? && e.ts.Some? && e.issue != ""
    ensures Total(h + [e], b, Done) == Total(h, b, Done) + Bit(Lower(e.to) in b.done)
    ensures DayAt(h + [e], b, Done, d) == DayAt(h, b, Done, d) +
              Bit(Lower(e.to) in b.done && d == Date(e.ts.value.date))
    ensures StateAt(h + [e], b, RewindsIn, s) == StateAt(h, b, RewindsIn, s) + Bit(IsRewind(b, e) && s == Lower(e.to))
    ensures StateAt(h + [e], b, RewindsOut, s) == StateAt(h, b, RewindsOut, s) +
              Bit(IsRewind(b, e) && s == Lower(e.from))
    ensures c in {Input, Cache, Output, Tokens, Turns, Runs, ContractFailures} ==>
              Total(h + [e], b, c) == Total(h, b, c)
  {
    hide Total, DayAt, StateAt, AgentAt, IsRewind, Lower;
    OneMoreEvent(h, e, b, Done, d, s);
    OneMoreEvent(h, e, b, RewindsIn, d, s);
    OneMoreEvent(h, e, b, RewindsOut, d, s);
    OneMoreEvent(h, e, b, c, d, s);
  }

  /** The end of a run counts one run; a gate counts one failure exactly when the contract failed. */
  lemma RunAndGateCount(h: seq<Event>, e: Event, b: Board, c: Column, d: Day, s: string)
    requires e.RunEnd? || e.Gate?
    ensures var state := if e.state == "" then "?" else e.state;
            && Total(h + [e], b, Runs) == Total(h, b, Runs) + Bit(e.RunEnd?)
            && StateAt(h + [e], b, Runs, s) == StateAt(h, b, Runs, s) + Bit(e.RunEnd? && s == state)
            && AgentAt(h + [e], b, Runs, s) == AgentAt(h, b, Runs, s) +
                 Bit(e.RunEnd? && s == (if e.agent == "" then "?" else e.agent))
            && Total(h + [e], b, ContractFailures) == Total(h, b, ContractFailures) +
                 Bit(e.Gate? && e.kind == ContractFailure)
            && StateAt(h + [e], b, ContractFailures, s) == StateAt(h, b, ContractFailures, s) +
                 Bit(e.Gate? && e.kind == ContractFailure && s == state)
            && (c !in {Runs, ContractFailures} ==> Total(h + [e], b, c) == Total(h, b, c))
  {
    hide Total, DayAt, StateAt, AgentAt;
    OneMoreEvent(h, e, b, Runs, d, s);
    OneMoreEvent(h, e, b, ContractFailures, d, s);
    OneMoreEvent(h, e, b, c, d, s);
  }
}
