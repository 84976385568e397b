/**
 The lockfile lease between orchestrator processes
 (src/symphony/continuous_improvement.py, FileLease). Each call is one step;
 the clock readings inside it, and whether its reads and writes succeed, are
 the environment's choice.
 */
module Lease {
  import opened Prelude

  type Token = nat

  datatype File = Absent | Corrupt | Lock(token: Token, at: int)

  /** What one process remembers, and when it last wrote the file. */
  datatype Hold = Hold(held: bool, written: int)

  /** The readings of one call: the clock at the staleness check and at the write. */
  datatype Call =
    | Acquire(readable: bool, writable: bool, checked: int, now: int)
    | Refresh(readable: bool, writable: bool, now: int)
    | Release(readable: bool, now: int)

  /** An unreadable or corrupt lockfile counts as abandoned. */
  predicate Stale(file: File, readable: bool, now: int, ttl: int)
    requires file != Absent
  {
    !readable || file == Corrupt || now - file.at >= ttl
  }

  predicate Owns(file: File, token: Token, readable: bool) {
    readable && file.Lock? && file.token == token
  }

  /** The file and the caller's memory after one call. */
  function Performed(call: Call, token: Token, ttl: int, hold: Hold, file: File): (Hold, File) {
    match call
    case Acquire(readable, writable, checked, now) =>
      if hold.held || (file != Absent && !Stale(file, readable, checked, ttl)) then (hold, file)
      else if writable then (Hold(true, now), Lock(token, now))
      else (hold, Corrupt)
    case Refresh(readable, writable, now) =>
      if !hold.held then (hold, file)
      else if !Owns(file, token, readable) then (Hold(false, hold.written), file)
      else if writable then (Hold(true, now), Lock(token, now))
      else (hold, file)
    case Release(readable, now) =>
      if !hold.held then (hold, file)
      else (Hold(false, hold.written), if Owns(file, token, readable) then Absent else file)
  }

  class LockFile {
    var content: File

    constructor ()
      ensures content == Absent
    {
      content := Absent;
    }
  }

  class FileLease {
    const file: LockFile
    const token: Token
    const ttl: int
    var held: bool
    ghost var written: int

    constructor (file: LockFile, token: Token, ttl: int)
      ensures this.file == file && this.token == token && this.ttl == ttl && !held
    {
      this.file, this.token, this.ttl, held, written := file, token, ttl, false, 0;
    }

    method Acquire(readable: bool, writable: bool, checked: int, now: int) returns (acquired: bool)
      modifies this, file
      ensures (Hold(held, written), file.content)
           == Performed(Call.Acquire(readable, writable, checked, now), token, ttl,
                     old(Hold(held, written)), old(file.content))
      ensures acquired <==> held
    {
      if held { return true; }
      acquired := false;
      for tries := 0 to 2
        invariant !held && written == old(written) && !acquired
        invariant tries == 0 ==> file.content == old(file.content)
        invariant tries == 1 ==> old(file.content) != Absent && file.content == Absent
                                 && Stale(old(file.content), readable, checked, ttl)
        invariant tries < 2
      {
        if file.content == Absent {
          if writable {
            file.content := Lock(token, now);
            held, written, acquired := true, now, true;
          } else {
            file.content := Corrupt;
          }
          break;
        }
        if !Stale(file.content, readable, checked, ttl) { break; }
        file.content := Absent;
      }
    }

    method Refresh(readable: bool, writable: bool, now: int)
      modifies this, file
      ensures (Hold(held, written), file.content)
           == Performed(Call.Refresh(readable, writable, now), token, ttl,
                     old(Hold(held, written)), old(file.content))
    {
      if !held { return; }
      if !Owns(file.content, token, readable) {
        held := false;
        return;
      }
      if writable {
        file.content := Lock(token, now);
        written := now;
      }
    }

    method Release(readable: bool, now: int)
      modifies this, file
      ensures (Hold(held, written), file.content)
           == Performed(Call.Release(readable, now), token, ttl, old(Hold(held, written)), old(file.content))
    {
      if !held { return; }
      held := false;
      if !Owns(file.content, token, readable) { return; }
      file.content := Absent;
    }
  }

  // ---------------------------------------------------------------------
  // Many processes, one file
  // ---------------------------------------------------------------------

  datatype World = World(file: File, holds: map<Token, Hold>, clock: int)

  datatype Move = Move(token: Token, call: Call)

  function Finished(call: Call): int { call.now }

  function Started(call: Call): int { if call.Acquire? then call.checked else call.now }

  /** The clock never runs backwards, within a call or between calls. */
  predicate InTime(w: World, m: Move) {
    w.clock <= Started(m.call) <= Finished(m.call)
  }

  /** A staleness check that could not read the file is a failed read. */
  predicate ReadsFile(w: World, m: Move) {
    m.call.Acquire? && w.file != Absent ==> m.call.readable
  }

  function Next(w: World, m: Move, ttl: int): World
    requires m.token in w.holds
  {
    var (hold, file) := Performed(m.call, m.token, ttl, w.holds[m.token], w.file);
    World(file, w.holds[m.token := hold], Finished(m.call))
  }

  predicate Callable(w: World, moves: seq<Move>) {
    forall i :: 0 <= i < |moves| ==> moves[i].token in w.holds
  }

  ghost predicate Timely(w: World, moves: seq<Move>, ttl: int)
    requires Callable(w, moves)
    decreases |moves|
  {
    |moves| == 0 || (InTime(w, moves[0]) && Timely(Next(w, moves[0], ttl), moves[1..], ttl))
  }

  ghost predicate Readable(w: World, moves: seq<Move>, ttl: int)
    requires Callable(w, moves)
    decreases |moves|
  {
    |moves| == 0 || (ReadsFile(w, moves[0]) && Readable(Next(w, moves[0], ttl), moves[1..], ttl))
  }

  function Run(w: World, moves: seq<Move>, ttl: int): World
    requires Callable(w, moves)
    decreases |moves|
  {
    if |moves| == 0 then w else Run(Next(w, moves[0], ttl), moves[1..], ttl)
  }

  ghost predicate Start(w: World) {
    w.file == Absent && forall t :: t in w.holds ==> !w.holds[t].held
  }

  /** Held, and last written less than the time to live ago. */
  predicate Fresh(w: World, t: Token, ttl: int)
    requires t in w.holds
  {
    w.holds[t].held && w.clock - w.holds[t].written < ttl
  }

  /** A fresh holder's last payload is what the file holds. */
  ghost predicate Invariant(w: World, ttl: int) {
    forall t :: t in w.holds && Fresh(w, t, ttl) ==> w.file == Lock(t, w.holds[t].written)
  }

  lemma NextKeepsInvariant(w: World, m: Move, ttl: int)
    requires Invariant(w, ttl) && m.token in w.holds && InTime(w, m) && ReadsFile(w, m)
    ensures Invariant(Next(w, m, ttl), ttl)
  {
    var next := Next(w, m, ttl);
    forall t | t in next.holds && Fresh(next, t, ttl) ensures next.file == Lock(t, next.holds[t].written) {
      if t != m.token {
        assert Fresh(w, t, ttl);
      } else if next.holds[t] == w.holds[t] {
        assert Fresh(w, t, ttl);
      }
    }
  }

  lemma {:induction false} RunKeepsInvariant(w: World, moves: seq<Move>, ttl: int)
    requires Invariant(w, ttl) && Callable(w, moves) && Timely(w, moves, ttl) && Readable(w, moves, ttl)
    ensures Invariant(Run(w, moves, ttl), ttl)
    decreases |moves|
  {
    if |moves| > 0 {
      NextKeepsInvariant(w, moves[0], ttl);
      RunKeepsInvariant(Next(w, moves[0], ttl), moves[1..], ttl);
    }
  }

  // ---------------------------------------------------------------------
  // Any clock
  // ---------------------------------------------------------------------

  /** The call takes over a file that is there, because it finds it stale. */
  predicate TakesOver(w: World, m: Move, ttl: int)
    requires m.token in w.holds
  {
    && m.call.Acquire? && !w.holds[m.token].held && w.file != Absent
    && Stale(w.file, m.call.readable, m.call.checked, ttl)
  }

  function Later(a: Option<int>, b: Option<int>): Option<int> {
    if a.None? then b else if b.None? || a.value >= b.value then a else b
  }

  /** The highest clock reading at which a file was found stale and taken over. */
  function HighestTakeover(w: World, moves: seq<Move>, ttl: int): Option<int>
    requires Callable(w, moves)
    decreases |moves|
  {
    if |moves| == 0 then None
    else
      Later(if TakesOver(w, moves[0], ttl) then Some(moves[0].call.checked) else None,
            HighestTakeover(Next(w, moves[0], ttl), moves[1..], ttl))
  }

  /** Whoever holds has its last payload in the file, or was taken over at a reading past its end. */
  ghost predicate Accounted(w: World, high: Option<int>, ttl: int) {
    forall t :: t in w.holds && w.holds[t].held ==>
      || w.file == Lock(t, w.holds[t].written)
      || (high.Some? && w.holds[t].written + ttl <= high.value)
  }

  lemma NextStaysAccounted(w: World, m: Move, high: Option<int>, ttl: int)
    requires Accounted(w, high, ttl) && m.token in w.holds && ReadsFile(w, m)
    ensures Accounted(Next(w, m, ttl), Later(high, if TakesOver(w, m, ttl) then Some(m.call.checked) else None), ttl)
  {
    var next := Next(w, m, ttl);
    var high' := Later(high, if TakesOver(w, m, ttl) then Some(m.call.checked) else None);
    forall t | t in next.holds && next.holds[t].held
      ensures next.file == Lock(t, next.holds[t].written) || (high'.Some? && next.holds[t].written + ttl <= high'.value)
    {
      if t != m.token || next.holds[t] == w.holds[t] {
        assert w.holds[t].held;
      }
    }
  }

  lemma LaterAgain(a: Option<int>, b: Option<int>, c: Option<int>)
    ensures Later(Later(a, b), c) == Later(a, Later(b, c))
    ensures Later(None, a) == a && Later(a, None) == a
  {
  }

  lemma {:induction false} RunStaysAccounted(w: World, moves: seq<Move>, high: Option<int>, ttl: int)
    requires Accounted(w, high, ttl) && Callable(w, moves) && Readable(w, moves, ttl)
    ensures Accounted(Run(w, moves, ttl), Later(high, HighestTakeover(w, moves, ttl)), ttl)
    decreases |moves|
  {
    hide Accounted, Later;
    if |moves| == 0 {
      LaterAgain(high, None, None);
    } else {
      var first := if TakesOver(w, moves[0], ttl) then Some(moves[0].call.checked) else None;
      var next := Next(w, moves[0], ttl);
      NextStaysAccounted(w, moves[0], high, ttl);
      RunStaysAccounted(next, moves[1..], Later(high, first), ttl);
      LaterAgain(high, first, HighestTakeover(next, moves[1..], ttl));
    }
  }

  /**
   Whatever the clock does: with successful staleness reads two leases are fresh at
   once only if the clock ends below the highest reading of a takeover.
   */
  lemma TwoFreshMeansStepBack(w: World, moves: seq<Move>, ttl: int, a: Token, b: Token)
    requires Start(w) && Callable(w, moves) && Readable(w, moves, ttl)
    requires var end := Run(w, moves, ttl);
             a != b && a in end.holds && b in end.holds && Fresh(end, a, ttl) && Fresh(end, b, ttl)
    ensures var high := HighestTakeover(w, moves, ttl);
            high.Some? && Run(w, moves, ttl).clock < high.value
  {
    RunStaysAccounted(w, moves, None, ttl);
  }

  /** A run with successful staleness reads that ends with two fresh leases. */
  ghost predicate EndsTwoFresh(w: World, moves: seq<Move>, ttl: int, a: Token, b: Token) {
    && Start(w) && Callable(w, moves) && Readable(w, moves, ttl)
    && (var end := Run(w, moves, ttl);
        a != b && a in end.holds && b in end.holds && Fresh(end, a, ttl) && Fresh(end, b, ttl))
  }

  /**
   And each such pair of readings is reached: runs whose highest takeover reading and
   last reading are these can end with two fresh leases exactly when the last is lower.
   */
  lemma TwoFreshIff(ttl: int, high: int, last: int)
    requires ttl > 0
    ensures (exists w, moves, a, b ::
               && EndsTwoFresh(w, moves, ttl, a, b)
               && HighestTakeover(w, moves, ttl) == Some(high) && Run(w, moves, ttl).clock == last)
       <==> last < high
  {
    hide Start, Readable, Fresh, HighestTakeover;
    forall w, moves, a, b |
      && EndsTwoFresh(w, moves, ttl, a, b)
      && HighestTakeover(w, moves, ttl) == Some(high) && Run(w, moves, ttl).clock == last
      ensures last < high
    {
      TwoFreshMeansStepBack(w, moves, ttl, a, b);
    }
    if last < high {
      StepBackRun(ttl, high, last);
    }
  }

  lemma StepBackRun(ttl: int, high: int, last: int)
    requires ttl > 0 && last < high
    ensures var w := World(Absent, map[0 := Hold(false, 0), 1 := Hold(false, 0)], high - ttl);
            var moves := [Move(0, Acquire(true, true, high - ttl, high - ttl)),
                          Move(1, Acquire(true, true, high, last))];
            && EndsTwoFresh(w, moves, ttl, 0, 1)
            && HighestTakeover(w, moves, ttl) == Some(high) && Run(w, moves, ttl).clock == last
  {
    var w := World(Absent, map[0 := Hold(false, 0), 1 := Hold(false, 0)], high - ttl);
    var moves := [Move(0, Acquire(true, true, high - ttl, high - ttl)),
                  Move(1, Acquire(true, true, high, last))];
    var middle := Next(w, moves[0], ttl);
    var end := Next(middle, moves[1], ttl);
    assert moves[1..] == [moves[1]] && moves[1..][1..] == [];
    assert Run(middle, moves[1..], ttl) == end;
    assert Run(w, moves, ttl) == end;
    assert HighestTakeover(end, [], ttl) == None;
    assert HighestTakeover(middle, moves[1..], ttl) == Some(high);
    assert Readable(end, [], ttl) && Readable(middle, moves[1..], ttl);
  }

  /** A forward clock is never below a takeover. */
  lemma {:induction false} ForwardClockIsAhead(w: World, moves: seq<Move>, ttl: int)
    requires Callable(w, moves) && Timely(w, moves, ttl)
    ensures w.clock <= Run(w, moves, ttl).clock
    ensures var high := HighestTakeover(w, moves, ttl);
            high.Some? ==> high.value <= Run(w, moves, ttl).clock
    decreases |moves|
  {
    if |moves| > 0 {
      ForwardClockIsAhead(Next(w, moves[0], ttl), moves[1..], ttl);
    }
  }

  /**
   Over every run with a forward clock and successful staleness reads, no two
   leases are fresh at once.
   */
  lemma OneFreshHolder(w: World, moves: seq<Move>, ttl: int, a: Token, b: Token)
    requires Start(w) && Callable(w, moves) && Timely(w, moves, ttl) && Readable(w, moves, ttl)
    ensures var end := Run(w, moves, ttl);
            a in end.holds && b in end.holds && Fresh(end, a, ttl) && Fresh(end, b, ttl) ==> a == b
  {
    var end := Run(w, moves, ttl);
    if a != b && a in end.holds && b in end.holds && Fresh(end, a, ttl) && Fresh(end, b, ttl) {
      TwoFreshMeansStepBack(w, moves, ttl, a, b);
      ForwardClockIsAhead(w, moves, ttl);
    }
  }

  /**
   No single call need take the file of a fresh lease: a takeover in order, then a clock
   that steps back.
   */
  lemma StepBackAfterTakeover()
    ensures var w := World(Absent, map[0 := Hold(false, 0), 1 := Hold(false, 0), 2 := Hold(false, 0)], 0);
            var one := Next(w, Move(0, Acquire(true, true, 0, 0)), 10);
            var two := Next(one, Move(1, Acquire(true, true, 20, 20)), 10);
            var end := Next(two, Move(2, Release(true, 5)), 10);
            && Start(w) && !Fresh(two, 0, 10) && end.file == two.file
            && Fresh(end, 0, 10) && Fresh(end, 1, 10)
  {
  }

  // ---------------------------------------------------------------------
  // Losing the file
  // ---------------------------------------------------------------------

  /**
   Exactly when a call by one process ends another's fresh hold of the file:
   it acquires over a file it failed to read.
   */
  lemma StolenFreshIff(w: World, m: Move, ttl: int, victim: Token)
    requires Invariant(w, ttl) && m.token in w.holds && InTime(w, m)
    requires victim in w.holds && victim != m.token && Fresh(Next(w, m, ttl), victim, ttl)
    ensures Next(w, m, ttl).file != w.file
       <==> m.call.Acquire? && !w.holds[m.token].held && !m.call.readable
  {
    assert Fresh(w, victim, ttl);
    assert w.file == Lock(victim, w.holds[victim].written);
  }

  /** A fresh lease and an acquire that cannot read the file: the file is the thief's. */
  lemma UnreadableStealsFresh(ttl: int)
    requires ttl > 0
    ensures var w := World(Lock(0, 5), map[0 := Hold(true, 5), 1 := Hold(false, 0)], 5);
            var next := Next(w, Move(1, Acquire(false, true, 5, 5)), ttl);
            && Invariant(w, ttl) && next.file == Lock(1, 5) && Fresh(next, 0, ttl) && Fresh(next, 1, ttl)
  {
    var w := World(Lock(0, 5), map[0 := Hold(true, 5), 1 := Hold(false, 0)], 5);
    assert forall t :: t in w.holds && Fresh(w, t, ttl) ==> t == 0;
  }

  /**
   With a file that can be read, whatever the clock does: a call by another takes
   the file of a lease that is fresh afterwards exactly when it acquires and the clock
   is past the lease's end at the check and before it at the write.
   */
  lemma TakenWhileFreshIff(w: World, m: Move, ttl: int, victim: Token)
    requires m.token in w.holds && victim in w.holds && victim != m.token && ReadsFile(w, m)
    requires w.holds[victim].held && w.file == Lock(victim, w.holds[victim].written)
    ensures Next(w, m, ttl).file != w.file && Fresh(Next(w, m, ttl), victim, ttl)
       <==> && m.call.Acquire? && !w.holds[m.token].held
            && m.call.now < w.holds[victim].written + ttl <= m.call.checked
  {
  }

  /** No step of `t` changes the file. */
  ghost predicate Harmless(w: World, moves: seq<Move>, ttl: int, t: Token)
    requires Callable(w, moves)
    decreases |moves|
  {
    |moves| == 0 ||
    (var next := Next(w, moves[0], ttl);
     && (moves[0].token == t ==> next.file == w.file)
     && Harmless(next, moves[1..], ttl, t))
  }

  /**
   A lease whose file was stolen never overwrites or deletes a thief's file,
   whatever anyone does, until it acquires again.
   */
  lemma {:induction false} LostLeaseIsHarmless(w: World, moves: seq<Move>, ttl: int, t: Token)
    requires Callable(w, moves) && !Owns(w.file, t, true)
    requires forall i :: 0 <= i < |moves| && moves[i].token == t ==> !moves[i].call.Acquire?
    ensures Harmless(w, moves, ttl, t)
    decreases |moves|
  {
    if |moves| > 0 {
      LostLeaseIsHarmless(Next(w, moves[0], ttl), moves[1..], ttl, t);
    }
  }

  /**
   The other calls that replace another's file: only an acquire that does not
   hold already, over a file that is stale or unreadable.
   */
  lemma FileReplacedIff(w: World, m: Move, ttl: int)
    requires m.token in w.holds && w.file.Lock? && w.file.token != m.token
    ensures Next(w, m, ttl).file != w.file
       <==> m.call.Acquire? && !w.holds[m.token].held && Stale(w.file, m.call.readable, m.call.checked, ttl)
  {
  }

  /**
   Acquiring when already held answers yes without looking: the answer is
   wrong exactly when the file was taken meanwhile.
   */
  lemma AcquireAnswer(w: World, m: Move, ttl: int)
    requires m.token in w.holds && m.call.Acquire? && Next(w, m, ttl).holds[m.token].held
    ensures Owns(Next(w, m, ttl).file, m.token, true)
       <==> !(w.holds[m.token].held && !Owns(w.file, m.token, true))
  {
  }

  /** A held lease whose file is another's: acquiring it again answers yes. */
  lemma HeldAnswersBlindly(ttl: int, at: int)
    ensures var w := World(Lock(1, at), map[0 := Hold(true, 0), 1 := Hold(true, at)], at);
            var next := Next(w, Move(0, Acquire(true, true, at, at)), ttl);
            next.holds[0].held && !Owns(next.file, 0, true)
  {
  }

  /** With a clock that steps back, two leases can be fresh at once. */
  lemma BackwardClockBreaks()
    ensures exists w: World, moves: seq<Move> ::
              && Start(w) && |moves| == 2 && moves[0].token in w.holds && moves[1].token in w.holds
              && moves[0].token != moves[1].token
              && var middle := Next(w, moves[0], 10);
                 var end := Next(middle, moves[1], 10);
                 && InTime(w, moves[0]) && ReadsFile(w, moves[0]) && ReadsFile(middle, moves[1])
                 && Fresh(end, moves[0].token, 10) && Fresh(end, moves[1].token, 10)
  {
    var w := World(Absent, map[0 := Hold(false, 0), 1 := Hold(false, 0)], 0);
    var moves := [Move(0, Acquire(true, true, 0, 0)), Move(1, Acquire(true, true, 20, 5))];
    var middle := Next(w, moves[0], 10);
    var end := Next(middle, moves[1], 10);
    assert Fresh(end, 0, 10) && Fresh(end, 1, 10);
  }

  // ---------------------------------------------------------------------
  // Keeping and giving up a lease
  // ---------------------------------------------------------------------

  predicate Abandoned(file: File, readable: bool, checked: int, ttl: int) {
    file == Absent || !readable || file == Corrupt || (file.Lock? && file.at + ttl <= checked)
  }

  /**
   Who holds after a call, and what it leaves in the file: an acquire gets a lease
   that is free, lapsed, corrupt or unreadable; a refresh keeps only its own; a
   release holds no more and removes only its own file.
   */
  lemma HeldIff(w: World, m: Move, ttl: int)
    requires m.token in w.holds
    ensures var was, file, next := w.holds[m.token].held, w.file, Next(w, m, ttl);
            var own := file.Lock? && file.token == m.token && m.call.readable;
            && (next.holds[m.token].held <==>
                && !m.call.Release?
                && (m.call.Refresh? ==> was && own)
                && (m.call.Acquire? ==>
                      was || (Abandoned(file, m.call.readable, m.call.checked, ttl) && m.call.writable)))
            && (next.file == Absent <==>
                if was && own && m.call.Release? then true
                else file == Absent && (m.call.Acquire? ==> was))
            && (next.file == Corrupt && file != Corrupt <==>
                && m.call.Acquire? && !was && !m.call.writable && file != Corrupt
                && Abandoned(file, m.call.readable, m.call.checked, ttl))
            && (was && own && m.call.Refresh? && m.call.writable ==>
                next.file == Lock(m.token, m.call.now) && next.holds[m.token].written == m.call.now)
  {
  }

  /** The holder only refreshes, and no other looks at the file as late as a lease's length after. */
  predicate KeepsUp(w: World, moves: seq<Move>, ttl: int, t: Token)
    requires Callable(w, moves) && t in w.holds
    decreases |moves|
  {
    |moves| == 0 ||
    (var m := moves[0];
     && (m.token == t ==> m.call.Refresh? && m.call.readable && m.call.writable)
     && (m.token != t && m.call.Acquire? ==> m.call.readable && m.call.checked < w.holds[t].written + ttl)
     && KeepsUp(Next(w, m, ttl), moves[1..], ttl, t))
  }

  /** The clock at the last refresh, or `first` without one. */
  function LastRefresh(moves: seq<Move>, t: Token, first: int): int {
    if |moves| == 0 then first
    else LastRefresh(moves[1..], t, if moves[0].token == t then moves[0].call.now else first)
  }

  /**
   A holder that refreshes in time keeps its lease over any run: the file is its last
   refresh, and no process that did not hold gets to hold.
   */
  lemma {:induction false} RefreshingKeepsLease(w: World, moves: seq<Move>, ttl: int, t: Token)
    requires Callable(w, moves) && t in w.holds && KeepsUp(w, moves, ttl, t)
    requires w.holds[t].held && w.file == Lock(t, w.holds[t].written)
    ensures var end := Run(w, moves, ttl);
            && end.holds.Keys == w.holds.Keys && end.holds[t].held
            && end.holds[t].written == LastRefresh(moves, t, w.holds[t].written)
            && end.file == Lock(t, end.holds[t].written)
            && (forall u :: u in w.holds && u != t && !w.holds[u].held ==> !end.holds[u].held)
    decreases |moves|
  {
    if |moves| > 0 {
      RefreshingKeepsLease(Next(w, moves[0], ttl), moves[1..], ttl, t);
    }
  }

  /** A lease its holder releases is there for the next to take, whatever the clock says. */
  lemma ReleaseHandsOver(w: World, ttl: int, t: Token, u: Token, at: int, readable: bool, checked: int, now: int)
    requires t in w.holds && u in w.holds && t != u && !w.holds[u].held
    requires w.holds[t].held && w.file == Lock(t, w.holds[t].written)
    ensures var released := Next(w, Move(t, Release(true, at)), ttl);
            var taken := Next(released, Move(u, Acquire(readable, true, checked, now)), ttl);
            && !released.holds[t].held && released.file == Absent
            && taken.holds[u].held && !taken.holds[t].held && taken.file == Lock(u, now)
  {
  }
}
