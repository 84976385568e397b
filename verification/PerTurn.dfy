/**
 Child ownership in PerTurnCliBackend (src/symphony/backends/per_turn.py): any number of run_turn and
 stop calls interleaved at their awaits, against every spawn, publish, cancel and reap outcome.
 */
module PerTurn {
  import opened Prelude

  /** A child process group; ids are never reused. */
  type Proc = nat

  /** One run_turn call. */
  type Call = nat

  /** Where a run_turn call in progress is waiting. */
  datatype TurnPc =
    | Launching
    | LaunchTracked(proc: Proc)
    | Publishing(proc: Proc)
    | LaunchCleanup(proc: Proc)
    | ClosedReap(proc: Proc)
    | Driving(proc: Proc)
    | FinalReap(proc: Proc)

  /** The answer of terminate_process_tree: a status, None, or an exception such as a cancellation. */
  datatype Reap = Confirmed | Unconfirmed | Interrupted

  /**
   What happens next. The environment picks the event; one that does not fit the state is a no-op.
   Tracked is the early registration of a Windows supervisor; LaunchFails covers every failure and
   cancellation inside _spawn but a FileNotFoundError, which skips the cleanup: LaunchNotFound;
   DriveEnds covers success, failure, timeout and cancellation.
   */
  datatype Event =
    | BeginTurn(call: Call)
    | Tracked(call: Call, proc: Proc)
    | ChildCreated(call: Call, proc: Proc)
    | LaunchFails(call: Call)
    | LaunchNotFound(call: Call)
    | Published(call: Call)
    | DriveEnds(call: Call)
    | TurnReaped(call: Call, reap: Reap)
    | ResumeSession
    | StopCalled(id: nat)
    | StopReaped(id: nat, reap: Reap)

  /**
   closed, active and unconfirmed are the fields _closed, _active_proc and _cleanup_unconfirmed; turns
   holds the run_turn calls in progress, stops the stop calls that wait for a reap. spawned and gone
   record what really happened.
   */
  datatype State = State(
    closed: bool,
    active: Option<Proc>,
    unconfirmed: bool,
    turns: map<Call, TurnPc>,
    stops: map<nat, Proc>,
    spawned: set<Proc>,
    gone: set<Proc>)

  const INIT := State(false, None, false, map[], map[], {}, {})

  /** run_turn looks at the two fields only. */
  predicate Accepts(s: State, c: Call) {
    c !in s.turns && !s.closed && s.active.None?
  }

  predicate IsLaunching(s: State, c: Call) {
    c in s.turns && s.turns[c].Launching?
  }

  function At(s: State, c: Call, pc: TurnPc): State {
    s.(turns := s.turns[c := pc])
  }

  function Left(s: State, c: Call): State {
    s.(turns := s.turns - {c})
  }

  function Step(s: State, e: Event): State {
    match e
    case BeginTurn(c) =>
      if Accepts(s, c) then At(s, c, Launching) else s
    case Tracked(c, p) =>
      if IsLaunching(s, c) && p !in s.spawned then
        At(s, c, LaunchTracked(p)).(active := Some(p), spawned := s.spawned + {p})
      else s
    case ChildCreated(c, p) =>
      if IsLaunching(s, c) && p !in s.spawned then
        At(s, c, Publishing(p)).(active := Some(p), spawned := s.spawned + {p})
      else if c in s.turns && s.turns[c] == LaunchTracked(p) then
        At(s, c, Publishing(p)).(active := Some(p))
      else s
    case LaunchFails(c) =>
      if c !in s.turns then s
      else
        (match s.turns[c] {
           case Publishing(p) => At(s, c, LaunchCleanup(p))
           case Launching => if s.active.None? then Left(s, c) else At(s, c, LaunchCleanup(s.active.value))
           case LaunchTracked(_) => if s.active.None? then Left(s, c) else At(s, c, LaunchCleanup(s.active.value))
           case _ => s
         })
    case LaunchNotFound(c) =>
      if c in s.turns && (s.turns[c].Launching? || s.turns[c].LaunchTracked? || s.turns[c].Publishing?) then Left(s, c)
      else s
    case Published(c) =>
      if c in s.turns && s.turns[c].Publishing? then
        At(s, c, if s.closed then ClosedReap(s.turns[c].proc) else Driving(s.turns[c].proc))
      else s
    case DriveEnds(c) =>
      if c in s.turns && s.turns[c].Driving? then At(s, c, FinalReap(s.turns[c].proc)) else s
    case TurnReaped(c, reap) =>
      if c in s.turns && (s.turns[c].LaunchCleanup? || s.turns[c].ClosedReap? || s.turns[c].FinalReap?) then
        if reap.Confirmed? then
          Left(s, c).(active := None, gone := s.gone + {s.turns[c].proc},
                      unconfirmed := if s.turns[c].FinalReap? then false else s.unconfirmed)
        else
          Left(s, c).(unconfirmed := s.unconfirmed || !s.turns[c].ClosedReap?)
      else s
    case ResumeSession => s
    case StopCalled(id) =>
      if id in s.stops || (s.closed && s.active.None?) then s
      else if s.active.None? then s.(closed := true)
      else s.(closed := true, stops := s.stops[id := s.active.value])
    case StopReaped(id, reap) =>
      if id !in s.stops then s
      else
        var waiting := s.stops - {id};
        (match reap {
           case Confirmed =>
             s.(active := None, unconfirmed := false, stops := waiting, gone := s.gone + {s.stops[id]})
           case Unconfirmed => s.(unconfirmed := true, stops := waiting)
           case Interrupted => s.(stops := waiting)
         })
  }

  function Run(s: State, events: seq<Event>): State {
    if events == [] then s else Step(Run(s, events[..|events| - 1]), events[|events| - 1])
  }

  // ---------------------------------------------------------------------------------------------
  // The class: one method per section of code between two awaits
  // ---------------------------------------------------------------------------------------------

  class PerTurnBackend {
    var closed: bool
    var active: Option<Proc>
    var cleanupUnconfirmed: bool
    var turns: map<Call, TurnPc>
    var stops: map<nat, Proc>
    ghost var spawned: set<Proc>
    ghost var gone: set<Proc>

    ghost function View(): State
      reads this
    {
      State(closed, active, cleanupUnconfirmed, turns, stops, spawned, gone)
    }

    constructor ()
      ensures View() == INIT
    {
      closed, active, cleanupUnconfirmed, turns, stops := false, None, false, map[], map[];
      spawned, gone := {}, {};
    }

    /** run_turn up to the await inside _spawn; refused when closed or when a child is still held. */
    method EnterRunTurn(call: Call) returns (accepted: bool)
      requires call !in turns
      modifies this
      ensures View() == Step(old(View()), BeginTurn(call))
      ensures accepted <==> !old(closed) && old(active).None?
    {
      accepted := !closed && active.None?;
      if accepted {
        turns := turns[call := Launching];
      }
    }

    /** _track_windows_process, called back while the launch is still in progress. */
    method TrackProcess(call: Call, proc: Proc)
      requires call in turns && turns[call].Launching? && proc !in spawned
      modifies this
      ensures View() == Step(old(View()), Tracked(call, proc))
    {
      active := Some(proc);
      turns := turns[call := LaunchTracked(proc)];
      spawned := spawned + {proc};
    }

    /** create_subprocess_exec or spawn_backend returned: ownership is recorded before the next await. */
    method SpawnReturned(call: Call, proc: Proc)
      requires call in turns
      requires (turns[call].Launching? && proc !in spawned) || turns[call] == LaunchTracked(proc)
      modifies this
      ensures View() == Step(old(View()), ChildCreated(call, proc))
    {
      if turns[call].Launching? {
        spawned := spawned + {proc};
      }
      active := Some(proc);
      turns := turns[call := Publishing(proc)];
    }

    /** The except clause of _spawn: clean up the child of this launch, or the one held. */
    method SpawnRaised(call: Call)
      requires call in turns && (turns[call].Launching? || turns[call].LaunchTracked? || turns[call].Publishing?)
      modifies this
      ensures View() == Step(old(View()), LaunchFails(call))
    {
      var proc := if turns[call].Publishing? then Some(turns[call].proc) else active;
      if proc.Some? {
        turns := turns[call := LaunchCleanup(proc.value)];
      } else {
        turns := turns - {call};
      }
    }

    /** The clause for FileNotFoundError: a child created before it stays held. */
    method SpawnFoundNothing(call: Call)
      requires call in turns && (turns[call].Launching? || turns[call].LaunchTracked? || turns[call].Publishing?)
      modifies this
      ensures View() == Step(old(View()), LaunchNotFound(call))
    {
      turns := turns - {call};
    }

    /** The launch was published: run_turn looks at _closed again before it drives the turn. */
    method LaunchPublished(call: Call)
      requires call in turns && turns[call].Publishing?
      modifies this
      ensures View() == Step(old(View()), Published(call))
    {
      turns := turns[call := if closed then ClosedReap(turns[call].proc) else Driving(turns[call].proc)];
    }

    method DriveEnded(call: Call)
      requires call in turns && turns[call].Driving?
      modifies this
      ensures View() == Step(old(View()), DriveEnds(call))
    {
      turns := turns[call := FinalReap(turns[call].proc)];
    }

    /** The reap that a launch failure, a late close or the finally clause of run_turn waits for. */
    method ReapReturned(call: Call, reap: Reap)
      requires call in turns && (turns[call].LaunchCleanup? || turns[call].ClosedReap? || turns[call].FinalReap?)
      modifies this
      ensures View() == Step(old(View()), TurnReaped(call, reap))
    {
      var pc := turns[call];
      if reap.Confirmed? {
        gone := gone + {pc.proc};
        active := None;
        if pc.FinalReap? {
          cleanupUnconfirmed := false;
        }
      } else if !pc.ClosedReap? {
        cleanupUnconfirmed := true;
      }
      turns := turns - {call};
    }

    /** stop up to its await. */
    method Stop(id: nat) returns (waits: bool)
      requires id !in stops
      modifies this
      ensures View() == Step(old(View()), StopCalled(id))
      ensures waits <==> id in stops
    {
      if closed && active.None? {
        return false;
      }
      closed := true;
      waits := active.Some?;
      if waits {
        stops := stops[id := active.value];
      }
    }

    /** stop after its await; it raises unless the reap was confirmed. */
    method StopReturned(id: nat, reap: Reap) returns (raises: bool)
      requires id in stops
      modifies this
      ensures View() == Step(old(View()), StopReaped(id, reap))
      ensures raises <==> !reap.Confirmed?
    {
      if reap.Confirmed? {
        gone := gone + {stops[id]};
        active := None;
        cleanupUnconfirmed := false;
      } else if reap.Unconfirmed? {
        cleanupUnconfirmed := true;
      }
      stops := stops - {id};
      raises := !reap.Confirmed?;
    }
  }

  // ---------------------------------------------------------------------------------------------
  // Safety over all runs
  // ---------------------------------------------------------------------------------------------

  /** The property: every child not confirmed gone is the one held in _active_proc. */
  predicate Owned(s: State) {
    forall p :: p in s.spawned && p !in s.gone ==> s.active == Some(p)
  }

  /** p is the only child that can still be alive. */
  predicate Sole(s: State, p: Proc) {
    p in s.spawned && forall q :: q in s.spawned && q !in s.gone ==> q == p
  }

  /** No turn is accepted while another call is in progress. */
  predicate Orderly(s: State, events: seq<Event>) {
    events != [] ==>
      var before, e := Run(s, events[..|events| - 1]), events[|events| - 1];
      && Orderly(s, events[..|events| - 1])
      && (e.BeginTurn? && Accepts(before, e.call) ==> before.turns == map[])
  }

  predicate Invariant(s: State) {
    && Owned(s)
    && s.gone <= s.spawned
    && (s.active.Some? ==> Sole(s, s.active.value))
    && (forall c, d :: c in s.turns && d in s.turns ==> c == d)
    && (forall c :: c in s.turns ==>
          if s.turns[c].Launching? then s.active.None?
          else Sole(s, s.turns[c].proc) && (!s.closed ==> s.active == Some(s.turns[c].proc)))
    && (forall id :: id in s.stops ==> Sole(s, s.stops[id]))
    && (s.stops != map[] ==> s.closed && forall c :: c in s.turns ==> !s.turns[c].Launching?)
  }

  lemma StepKeepsInvariant(s: State, e: Event)
    requires Invariant(s) && (e.BeginTurn? && Accepts(s, e.call) ==> s.turns == map[])
    ensures Invariant(Step(s, e))
  {
    hide Invariant, Step;
    match e
    case StopCalled(_) => StopKeepsInvariant(s, e);
    case StopReaped(_, _) => StopKeepsInvariant(s, e);
    case TurnReaped(_, _) => ReapKeepsInvariant(s, e);
    case Tracked(_, _) => LaunchKeepsInvariant(s, e);
    case ChildCreated(_, _) => LaunchKeepsInvariant(s, e);
    case LaunchFails(_) => LaunchKeepsInvariant(s, e);
    case _ => TurnKeepsInvariant(s, e);
  }

  lemma StopKeepsInvariant(s: State, e: Event)
    requires Invariant(s) && (e.StopCalled? || e.StopReaped?)
    ensures Invariant(Step(s, e))
  {
  }

  lemma ReapKeepsInvariant(s: State, e: Event)
    requires Invariant(s) && e.TurnReaped?
    ensures Invariant(Step(s, e))
  {
  }

  lemma LaunchKeepsInvariant(s: State, e: Event)
    requires Invariant(s) && (e.Tracked? || e.ChildCreated? || e.LaunchFails?)
    ensures Invariant(Step(s, e))
  {
  }

  lemma TurnKeepsInvariant(s: State, e: Event)
    requires Invariant(s) && (e.BeginTurn? && Accepts(s, e.call) ==> s.turns == map[])
    requires e.BeginTurn? || e.LaunchNotFound? || e.Published? || e.DriveEnds? || e.ResumeSession?
    ensures Invariant(Step(s, e))
  {
  }

  lemma {:induction false} RunKeepsInvariant(s: State, events: seq<Event>)
    requires Invariant(s) && Orderly(s, events)
    ensures Invariant(Run(s, events))
  {
    hide Invariant, Step;
    if events != [] {
      RunKeepsInvariant(s, events[..|events| - 1]);
      StepKeepsInvariant(Run(s, events[..|events| - 1]), events[|events| - 1]);
    }
  }

  lemma InvariantAtStart()
    ensures Invariant(INIT)
  {
  }

  /** In every such run, at every point: what may be alive is held, and at most one child may be alive. */
  lemma ChildrenAreOwned(events: seq<Event>, p: Proc, q: Proc)
    requires Orderly(INIT, events)
    requires var s := Run(INIT, events); p in s.spawned - s.gone && q in s.spawned - s.gone
    ensures Run(INIT, events).active == Some(p) && p == q
  {
    InvariantAtStart();
    RunKeepsInvariant(INIT, events);
  }

  /** A child comes into being only while every earlier one is confirmed gone and none is held. */
  lemma SpawnOnlyWhenFree(events: seq<Event>, e: Event)
    requires Orderly(INIT, events)
    requires var s := Run(INIT, events); Step(s, e).spawned != s.spawned
    ensures var s := Run(INIT, events); s.active.None? && s.spawned <= s.gone
  {
    InvariantAtStart();
    RunKeepsInvariant(INIT, events);
  }

  // ---------------------------------------------------------------------------------------------
  // A second turn
  // ---------------------------------------------------------------------------------------------

  /** A process id larger than all used so far. */
  lemma {:induction false} Unused(used: set<Proc>) returns (p: Proc)
    ensures forall q :: q in used ==> q < p
    decreases |used|
  {
    p := 0;
    if used != {} {
      var q: Proc :| q in used;
      var above := Unused(used - {q});
      p := if q < above then above else q + 1;
      forall r | r in used ensures r < p {
        assert r == q || r in used - {q};
      }
    }
  }

  /** Two launches at once: the second child takes the place of the first, which nothing holds any more. */
  lemma SecondLaunchLosesFirst(s: State, c: Call, d: Call, p: Proc, q: Proc)
    requires Accepts(s, c) && IsLaunching(s, d) && p !in s.spawned && q !in s.spawned && p != q && s.gone <= s.spawned
    ensures !Owned(Step(Step(Step(s, BeginTurn(c)), ChildCreated(d, p)), ChildCreated(c, q)))
  {
    var end := Step(Step(Step(s, BeginTurn(c)), ChildCreated(d, p)), ChildCreated(c, q));
    assert p in end.spawned && p !in end.gone && end.active == Some(q);
  }

  lemma RunSnoc(s: State, events: seq<Event>, e: Event)
    ensures Run(s, events + [e]) == Step(Run(s, events), e)
    ensures !e.BeginTurn? && Orderly(s, events) ==> Orderly(s, events + [e])
  {
    assert (events + [e])[..|events|] == events;
  }

  /**
   A turn that is accepted keeps every child owned, whatever orderly events follow, exactly when no other
   call is in progress; the code itself does not look.
   */
  lemma TurnIsSafeIff(events: seq<Event>, c: Call)
    requires Orderly(INIT, events) && Accepts(Run(INIT, events), c)
    ensures var begun := Step(Run(INIT, events), BeginTurn(c));
            (forall more :: Orderly(begun, more) ==> Owned(Run(begun, more))) <==> Run(INIT, events).turns == map[]
  {
    hide Step, Invariant, Owned;
    var s := Run(INIT, events);
    var begun := Step(s, BeginTurn(c));
    InvariantAtStart();
    RunKeepsInvariant(INIT, events);
    if s.turns == map[] {
      StepKeepsInvariant(s, BeginTurn(c));
      forall more | Orderly(begun, more) ensures Owned(Run(begun, more)) {
        RunKeepsInvariant(begun, more);
        InvariantOwns(Run(begun, more));
      }
    } else {
      OnlyLaunching(s);
      var d :| d in s.turns;
      var p := Unused(s.spawned);
      SecondLaunchLosesFirst(s, c, d, p, p + 1);
      RunSnoc(begun, [], ChildCreated(d, p));
      RunSnoc(begun, [ChildCreated(d, p)], ChildCreated(c, p + 1));
      var more := [ChildCreated(d, p)] + [ChildCreated(c, p + 1)];
      assert [] + [ChildCreated(d, p)] == [ChildCreated(d, p)];
      assert Orderly(begun, more) && !Owned(Run(begun, more));
    }
  }

  lemma InvariantOwns(s: State)
    requires Invariant(s)
    ensures Owned(s)
  {
  }

  lemma OnlyLaunching(s: State)
    requires Invariant(s) && !s.closed && s.active.None?
    ensures s.gone <= s.spawned && forall c :: c in s.turns ==> s.turns[c].Launching?
  {
  }

  // ---------------------------------------------------------------------------------------------
  // After a stop
  // ---------------------------------------------------------------------------------------------

  /** Once closed with no launch in flight, no turn is accepted and no child is created again. */
  lemma {:induction false} ClosedForGood(s: State, more: seq<Event>)
    requires s.closed && forall c :: c in s.turns ==> !s.turns[c].Launching?
    ensures var t := Run(s, more);
            t.closed && t.spawned == s.spawned && forall c :: c in t.turns ==> !t.turns[c].Launching?
  {
    if more != [] {
      ClosedForGood(s, more[..|more| - 1]);
    }
  }

  /** Closed and at rest with nothing held: every child there ever was is confirmed gone, and stays so. */
  lemma {:induction false} StoppedMeansGone(events: seq<Event>, more: seq<Event>)
    requires Orderly(INIT, events)
    requires var s := Run(INIT, events); s.closed && s.turns == map[] && s.active.None?
    ensures var s := Run(INIT, events);
            var t := Run(s, more);
            t.spawned == s.spawned && s.spawned <= t.gone && t.active.None? && t.turns == map[] && t.closed
  {
    InvariantAtStart();
    RunKeepsInvariant(INIT, events);
    if more != [] {
      StoppedMeansGone(events, more[..|more| - 1]);
    }
  }

  // ---------------------------------------------------------------------------------------------
  // Every child is let go of by a reap
  // ---------------------------------------------------------------------------------------------

  /** The call waits for something while it has this child. */
  predicate HasChild(s: State, c: Call, p: Proc) {
    c in s.turns && !s.turns[c].Launching? && s.turns[c].proc == p
  }

  predicate Reaping(s: State, c: Call, p: Proc) {
    HasChild(s, c, p) && (s.turns[c].LaunchCleanup? || s.turns[c].ClosedReap? || s.turns[c].FinalReap?)
  }

  /** The call ends here without having seen its child go: its reap is not confirmed, or the launch found no file. */
  predicate GivesUp(s: State, e: Event, p: Proc) {
    match e
    case TurnReaped(c, reap) => Reaping(s, c, p) && !reap.Confirmed?
    case LaunchNotFound(c) => HasChild(s, c, p)
    case _ => false
  }

  /** A reap of this child is confirmed here, for the call that has it or for a stop. */
  predicate Confirms(s: State, e: Event, p: Proc) {
    match e
    case TurnReaped(c, reap) => Reaping(s, c, p) && reap.Confirmed?
    case StopReaped(id, reap) => id in s.stops && s.stops[id] == p && reap.Confirmed?
    case _ => false
  }

  ghost predicate GaveUp(events: seq<Event>, p: Proc) {
    exists k :: 0 <= k < |events| && GivesUp(Run(INIT, events[..k]), events[k], p)
  }

  ghost predicate WasConfirmed(events: seq<Event>, p: Proc) {
    exists k :: 0 <= k < |events| && Confirms(Run(INIT, events[..k]), events[k], p)
  }

  lemma GaveUpSnoc(events: seq<Event>, e: Event, p: Proc)
    ensures GaveUp(events + [e], p) <==> GaveUp(events, p) || GivesUp(Run(INIT, events), e, p)
    ensures WasConfirmed(events + [e], p) <==> WasConfirmed(events, p) || Confirms(Run(INIT, events), e, p)
  {
    hide GivesUp, Confirms, Step;
    var all := events + [e];
    assert all[..|events|] == events && all[|events|] == e;
    assert forall k :: 0 <= k < |events| ==> all[..k] == events[..k] && all[k] == events[k];
    if GaveUp(events, p) {
      var k :| 0 <= k < |events| && GivesUp(Run(INIT, events[..k]), events[k], p);
      assert GivesUp(Run(INIT, all[..k]), all[k], p);
    }
    if WasConfirmed(events, p) {
      var k :| 0 <= k < |events| && Confirms(Run(INIT, events[..k]), events[k], p);
      assert Confirms(Run(INIT, all[..k]), all[k], p);
    }
  }

  /** A child counts as gone exactly when one of the reaps of it was confirmed. */
  lemma {:induction false} GoneIff(events: seq<Event>, p: Proc)
    ensures p in Run(INIT, events).gone <==> WasConfirmed(events, p)
  {
    hide Step, Confirms;
    if events != [] {
      var before, e := events[..|events| - 1], events[|events| - 1];
      assert events == before + [e];
      GoneIff(before, p);
      GaveUpSnoc(before, e, p);
      GoneStep(Run(INIT, before), e, p);
    }
  }

  lemma GoneStep(s: State, e: Event, p: Proc)
    ensures p in Step(s, e).gone <==> p in s.gone || Confirms(s, e, p)
  {
  }

  /** What is held belongs to a call in progress, unless that call gave up on it. */
  ghost predicate HeldFor(s: State, gaveUp: bool, p: Proc) {
    s.active == Some(p) ==> gaveUp || exists c :: HasChild(s, c, p)
  }

  lemma StepHeldFor(s: State, e: Event, p: Proc)
    requires s.active == Some(p) ==> exists c :: HasChild(s, c, p)
    ensures HeldFor(Step(s, e), GivesUp(s, e, p), p)
  {
    var next := Step(s, e);
    if next.active == Some(p) && !GivesUp(s, e, p) {
      if s.active == Some(p) {
        var c :| HasChild(s, c, p);
        assert HasChild(next, c, p);
      } else {
        assert HasChild(next, e.call, p);
      }
    }
  }

  lemma {:induction false} HeldIsWorkedOn(events: seq<Event>, p: Proc)
    ensures HeldFor(Run(INIT, events), GaveUp(events, p), p)
  {
    hide Step, GivesUp;
    if events != [] {
      var before, e := events[..|events| - 1], events[|events| - 1];
      assert events == before + [e];
      HeldIsWorkedOn(before, p);
      GaveUpSnoc(before, e, p);
      if !GaveUp(before, p) {
        StepHeldFor(Run(INIT, before), e, p);
      }
    }
  }

  /**
   With no call in progress, a child that is held, or may be alive, is one whose own call gave up on it: the
   reap was not confirmed, or the launch found no file. Any other child was reaped, and confirmed gone.
   */
  lemma RestMeansReaped(events: seq<Event>, p: Proc)
    requires Orderly(INIT, events) && Run(INIT, events).turns == map[]
    ensures var s := Run(INIT, events);
            && (s.active == Some(p) ==> GaveUp(events, p))
            && (p in s.spawned && !GaveUp(events, p) ==> WasConfirmed(events, p) && p in s.gone)
  {
    hide GaveUp, WasConfirmed;
    HeldIsWorkedOn(events, p);
    InvariantAtStart();
    RunKeepsInvariant(INIT, events);
    GoneIff(events, p);
  }

  /** So if every reap is confirmed and no launch misses its file, nothing is held at rest and every child is gone. */
  lemma ConfirmedReapsLeaveNothing(events: seq<Event>)
    requires Orderly(INIT, events) && Run(INIT, events).turns == map[]
    requires forall p: Proc :: !GaveUp(events, p)
    ensures Run(INIT, events).active.None? && Run(INIT, events).spawned <= Run(INIT, events).gone
  {
    hide GaveUp, WasConfirmed, Run;
    var s := Run(INIT, events);
    forall p: Proc ensures s.active != Some(p) && (p in s.spawned ==> p in s.gone) {
      RestMeansReaped(events, p);
    }
  }

  /**
   A call that has its child is over only by a reap of it, or because the launch found no file; or, if the
   launch fails late, because a stop has seen the child go.
   */
  lemma CallEndsByReap(s: State, e: Event, c: Call)
    requires Invariant(s) && c in s.turns && !s.turns[c].Launching? && c !in Step(s, e).turns
    ensures || e == LaunchNotFound(c)
            || (e.TurnReaped? && e.call == c && Reaping(s, c, s.turns[c].proc))
            || (e == LaunchFails(c) && s.turns[c].LaunchTracked? && s.turns[c].proc in s.gone)
  {
  }

  // ---------------------------------------------------------------------------------------------
  // Every stop waits for a reap
  // ---------------------------------------------------------------------------------------------

  /** A stop on a held child: until its reap answers it waits for that child. */
  lemma {:induction false} StopWaitsForReap(s: State, id: nat, p: Proc, more: seq<Event>)
    requires s.active == Some(p) && id !in s.stops
    requires forall i :: 0 <= i < |more| ==> !(more[i].StopReaped? && more[i].id == id)
    ensures StopWaits(Run(Step(s, StopCalled(id)), more), id, p)
  {
    if more != [] {
      hide Step;
      StopWaitsForReap(s, id, p, more[..|more| - 1]);
      StopWaitsOn(Run(Step(s, StopCalled(id)), more[..|more| - 1]), more[|more| - 1], id, p);
    }
  }

  predicate StopWaits(s: State, id: nat, p: Proc) {
    s.closed && id in s.stops && s.stops[id] == p
  }

  lemma StopWaitsOn(s: State, e: Event, id: nat, p: Proc)
    requires StopWaits(s, id, p) && !(e.StopReaped? && e.id == id)
    ensures StopWaits(Step(s, e), id, p)
  {
  }

  /** An ordinary turn and a failed launch: once the reap is confirmed the backend takes the next turn. */
  lemma ReapedTurnMakesRoom(s: State, c: Call, p: Proc)
    requires Accepts(s, c) && p !in s.spawned
    ensures var made := Step(Step(s, BeginTurn(c)), ChildCreated(c, p));
            var done := Step(Step(Step(made, Published(c)), DriveEnds(c)), TurnReaped(c, Confirmed));
            var failed := Step(Step(made, LaunchFails(c)), TurnReaped(c, Confirmed));
            && made.active == Some(p) && Accepts(done, c) && Accepts(failed, c)
            && p in done.gone && p in failed.gone && done.stops == failed.stops == s.stops
  {
  }

  // ---------------------------------------------------------------------------------------------
  // Launches that do not come to their end
  // ---------------------------------------------------------------------------------------------

  /** The supervisor shown to the early callback is held from then on, and reaped if the launch fails. */
  lemma TrackedIsReaped(s: State, c: Call, p: Proc)
    requires Accepts(s, c) && p !in s.spawned
    ensures var tracked := Step(Step(s, BeginTurn(c)), Tracked(c, p));
            var failed := Step(tracked, LaunchFails(c));
            && tracked.active == Some(p) && p in tracked.spawned && (forall d :: !Accepts(tracked, d))
            && Reaping(failed, c, p) && failed.active == Some(p)
            && Step(failed, TurnReaped(c, Confirmed)).active.None?
            && Step(tracked, ChildCreated(c, p)) == Step(Step(s, BeginTurn(c)), ChildCreated(c, p))
  {
  }

  /** Held by no call, with no turn to be accepted. */
  predicate Stranded(s: State, p: Proc) { s.active == Some(p) && s.turns == map[] }

  lemma StrandedStays(s: State, e: Event, p: Proc)
    requires Stranded(s, p) && !(e.StopReaped? && e.reap.Confirmed?)
    ensures Stranded(Step(s, e), p) && Step(s, e).gone == s.gone
  {
  }

  /**
   A launch that finds no file after its child came up ends without a reap: the
   child stays held and every turn is refused until a stop's reap is confirmed.
   */
  lemma {:induction false} MissingFileStrands(s: State, c: Call, p: Proc, more: seq<Event>)
    requires s.active == Some(p) && s.turns == map[c := Publishing(p)]
    requires forall i :: 0 <= i < |more| ==> !(more[i].StopReaped? && more[i].reap.Confirmed?)
    ensures var t := Run(Step(s, LaunchNotFound(c)), more);
            Stranded(t, p) && t.gone == s.gone && forall d :: !Accepts(t, d)
  {
    if more == [] {
      assert map[c := Publishing(p)] - {c} == map[];
    } else {
      hide Step;
      var n := |more| - 1;
      MissingFileStrands(s, c, p, more[..n]);
      StrandedStays(Run(Step(s, LaunchNotFound(c)), more[..n]), more[n], p);
    }
  }

  // ---------------------------------------------------------------------------------------------
  // The two flags
  // ---------------------------------------------------------------------------------------------

  ghost predicate Stops(events: seq<Event>) {
    exists k :: 0 <= k < |events| && events[k].StopCalled?
  }

  /** The backend is closed from the first stop on, and before it is open. */
  lemma {:induction false} ClosedIff(events: seq<Event>)
    ensures Run(INIT, events).closed <==> Stops(events)
    ensures !Stops(events) ==> Run(INIT, events).stops == map[]
  {
    if events != [] {
      var before, e := events[..|events| - 1], events[|events| - 1];
      ClosedIff(before);
      assert events == before + [e];
      assert Stops(events) <==> Stops(before) || e.StopCalled? by {
        if Stops(before) {
          var k :| 0 <= k < |before| && before[k].StopCalled?;
          assert events[k].StopCalled?;
        }
        if e.StopCalled? {
          assert events[|before|].StopCalled?;
        }
      }
      ClosingStep(Run(INIT, before), e);
    }
  }

  lemma ClosingStep(s: State, e: Event)
    ensures Step(s, e).closed <==> s.closed || (e.StopCalled? && e.id !in s.stops)
    ensures !e.StopCalled? ==> Step(s, e).stops.Keys <= s.stops.Keys
  {
  }

  /** A reap by a turn's end or by a stop that was confirmed. */
  predicate Clears(s: State, e: Event) {
    || (e.TurnReaped? && e.reap.Confirmed? && e.call in s.turns && s.turns[e.call].FinalReap?)
    || (e.StopReaped? && e.reap.Confirmed? && e.id in s.stops)
  }

  /** A cleanup of a launch or of a turn that ended any other way, or a stop's reap that gave no confirmation. */
  predicate Doubts(s: State, e: Event) {
    || (e.TurnReaped? && !e.reap.Confirmed? && e.call in s.turns
        && (s.turns[e.call].LaunchCleanup? || s.turns[e.call].FinalReap?))
    || (e.StopReaped? && e.reap.Unconfirmed? && e.id in s.stops)
  }

  ghost predicate DoubtedAt(events: seq<Event>, k: nat)
    requires k < |events|
  {
    Doubts(Run(INIT, events[..k]), events[k])
  }

  ghost predicate ClearedAt(events: seq<Event>, k: nat)
    requires k < |events|
  {
    Clears(Run(INIT, events[..k]), events[k])
  }

  lemma DoubtStep(s: State, e: Event)
    ensures Step(s, e).unconfirmed <==> Doubts(s, e) || (s.unconfirmed && !Clears(s, e))
    ensures !(Doubts(s, e) && Clears(s, e))
  {
  }

  /** Some reap left it in doubt and none since cleared it. */
  ghost predicate Doubtful(events: seq<Event>) {
    exists k: nat :: k < |events| && DoubtedAt(events, k) && forall j: nat :: k < j < |events| ==> !ClearedAt(events, j)
  }

  lemma DoubtfulSnoc(before: seq<Event>, e: Event)
    ensures var s := Run(INIT, before);
            Doubtful(before + [e]) <==> Doubts(s, e) || (Doubtful(before) && !Clears(s, e))
  {
    hide Run, Doubts, Clears;
    var all, n := before + [e], |before|;
    assert all[..n] == before && all[n] == e;
    forall k: nat | k < n
      ensures DoubtedAt(all, k) == DoubtedAt(before, k) && ClearedAt(all, k) == ClearedAt(before, k)
    {
      assert all[..k] == before[..k] && all[k] == before[k];
    }
    assert ClearedAt(all, n) == Clears(Run(INIT, before), e);
    if Doubts(Run(INIT, before), e) {
      assert DoubtedAt(all, n);
    }
    if Doubtful(before) && !Clears(Run(INIT, before), e) {
      var k: nat :| k < n && DoubtedAt(before, k) && forall j: nat :: k < j < n ==> !ClearedAt(before, j);
      assert DoubtedAt(all, k);
    }
  }

  /** The cleanup counts as unconfirmed exactly when some reap left it in doubt and none since cleared it. */
  lemma {:induction false} UnconfirmedIff(events: seq<Event>)
    ensures Run(INIT, events).unconfirmed <==> Doubtful(events)
  {
    hide Step, Doubts, Clears, Doubtful;
    if events == [] {
      NothingDoubtful();
    } else {
      var n := |events| - 1;
      UnconfirmedIff(events[..n]);
      DoubtStep(Run(INIT, events[..n]), events[n]);
      DoubtfulSnoc(events[..n], events[n]);
      assert events == events[..n] + [events[n]];
    }
  }

  lemma NothingDoubtful()
    ensures !Doubtful([])
  {
  }

  // ---------------------------------------------------------------------------------------------
  // A stop during a launch
  // ---------------------------------------------------------------------------------------------

  predicate IsDriving(s: State, c: Call) { c in s.turns && s.turns[c].Driving? }

  /** Once closed no turn starts to run: a launch that still comes to its end is reaped at once. */
  lemma {:induction false} ClosedNeverDrives(s: State, more: seq<Event>, c: Call)
    requires s.closed
    ensures Run(s, more).closed && (IsDriving(Run(s, more), c) ==> IsDriving(s, c))
  {
    if more != [] {
      hide Step, IsDriving;
      ClosedNeverDrives(s, more[..|more| - 1], c);
      ClosedDrivesNone(Run(s, more[..|more| - 1]), more[|more| - 1], c);
    }
  }

  lemma ClosedDrivesNone(s: State, e: Event, c: Call)
    requires s.closed
    ensures Step(s, e).closed && (IsDriving(Step(s, e), c) ==> IsDriving(s, c))
  {
  }

  /** What a launch that ends goes on to: the turn, a reap of its child, or nothing without a child. */
  lemma LaunchEnds(s: State, c: Call, p: Proc)
    ensures c in s.turns && s.turns[c] == Publishing(p) ==>
              if s.closed then Reaping(Step(s, Published(c)), c, p) else IsDriving(Step(s, Published(c)), c)
    ensures IsLaunching(s, c) ==>
              if s.active == Some(p) then Reaping(Step(s, LaunchFails(c)), c, p)
              else s.active.None? ==> c !in Step(s, LaunchFails(c)).turns
  {
  }
}
