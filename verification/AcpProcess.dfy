/**
 The agent process of an ACP backend (src/symphony/backends/acp.py): any number
 of start, run_turn and stop calls, with a turn's abort and restart, interleaved
 at their awaits.
 */
module AcpProcess {
  import opened Prelude

  /** A launched process group; ids are never reused. */
  type Proc = nat

  /** One start or run_turn call. */
  type Call = nat

  /** Where a start or run_turn call in progress is waiting; turn: the launch is part of a run_turn. */
  datatype Phase =
    | Spawning(turn: bool)
    | Publishing(turn: bool)
    | LaunchCleanup(proc: Proc)
    | Turning
    | AbortReap(proc: Proc)
    | RestartReap(proc: Proc)
    | Relaunching

  /** The answer of _terminate: a status, None, or an exception such as a cancellation. */
  datatype Reap = Confirmed | Unconfirmed | Interrupted

  /**
   What happens next; an event that does not fit the state is a no-op. LaunchNotFound is a
   FileNotFoundError during the launch, the one failure that skips the cleanup.
   */
  datatype Event =
    | StartCalled(call: Call)
    | ChildCreated(call: Call, proc: Proc)
    | LaunchFails(call: Call)
    | LaunchNotFound(call: Call)
    | Published(call: Call)
    | LaunchReaped(call: Call, reap: Reap)
    | TurnCalled(call: Call, alive: bool)
    | TurnEnds(call: Call)
    | GraceOver(call: Call)
    | AbortReaped(call: Call, reap: Reap)
    | RestartReaped(call: Call, reap: Reap)
    | ReadersCancelled(call: Call)
    | StopCalled(id: nat)
    | StopReaped(id: nat, reap: Reap)
    | StopRaises(id: nat)

  /**
   held is _process; calls are the start and run_turn calls in progress; raising holds the stop calls
   that found the cleanup unconfirmed and have yet to say so. launched and gone record what happened.
   */
  datatype State = State(
    closed: bool,
    held: Option<Proc>,
    unconfirmed: bool,
    calls: map<Call, Phase>,
    stops: map<nat, Proc>,
    raising: set<nat>,
    launched: set<Proc>,
    gone: set<Proc>)

  const INIT := State(false, None, false, map[], map[], {}, {}, {})

  /** A confirmed reap lets go of the process. */
  function Released(s: State, p: Proc): State {
    s.(held := None, gone := s.gone + {p})
  }

  /** start and run_turn look at the two flags only. */
  predicate Accepts(s: State, c: Call) {
    c !in s.calls && !s.closed && !s.unconfirmed
  }

  predicate In(s: State, c: Call, phase: Phase) {
    c in s.calls && s.calls[c] == phase
  }

  function At(s: State, c: Call, phase: Phase): State {
    s.(calls := s.calls[c := phase])
  }

  function Left(s: State, c: Call): State {
    s.(calls := s.calls - {c})
  }

  predicate IsSpawning(s: State, c: Call) {
    c in s.calls && s.calls[c].Spawning?
  }

  predicate InLaunch(s: State, c: Call) {
    c in s.calls && (s.calls[c].Spawning? || s.calls[c].Publishing?)
  }

  function Step(s: State, e: Event): State {
    match e
    case StartCalled(c) =>
      if Accepts(s, c) then At(s, c, Spawning(false)) else s
    case ChildCreated(c, p) =>
      if IsSpawning(s, c) && p !in s.launched then
        At(s, c, Publishing(s.calls[c].turn)).(held := Some(p), launched := s.launched + {p})
      else s
    case LaunchFails(c) =>
      if InLaunch(s, c) then
        if s.held.Some? then At(s, c, LaunchCleanup(s.held.value)) else Left(s, c)
      else s
    case LaunchNotFound(c) =>
      if InLaunch(s, c) then Left(s, c) else s
    case Published(c) =>
      if c in s.calls && s.calls[c].Publishing? then
        if s.calls[c].turn && s.held.Some? then At(s, c, Turning) else Left(s, c)
      else s
    case LaunchReaped(c, reap) =>
      if !(c in s.calls && s.calls[c].LaunchCleanup?) then s
      else if reap.Confirmed? then Left(Released(s, s.calls[c].proc), c)
      else Left(s, c).(unconfirmed := true)
    case TurnCalled(c, alive) =>
      if !Accepts(s, c) then s
      else if s.held.None? then At(s, c, Relaunching)
      else At(s, c, if alive then Turning else RestartReap(s.held.value))
    case TurnEnds(c) =>
      if In(s, c, Turning) then Left(s, c) else s
    case GraceOver(c) =>
      if In(s, c, Turning) then
        if s.held.Some? then At(s, c, AbortReap(s.held.value)) else Left(s, c)
      else s
    case AbortReaped(c, reap) =>
      if !(c in s.calls && s.calls[c].AbortReap?) then s
      else if reap.Confirmed? then Left(Released(s, s.calls[c].proc), c)
      else Left(s, c).(unconfirmed := true)
    case RestartReaped(c, reap) =>
      if !(c in s.calls && s.calls[c].RestartReap?) then s
      else (match reap
            case Confirmed => At(Released(s, s.calls[c].proc), c, Relaunching)
            case Unconfirmed => Left(s, c).(unconfirmed := true)
            case Interrupted => Left(s, c))
    case ReadersCancelled(c) =>
      if !In(s, c, Relaunching) then s
      else if s.closed || s.unconfirmed then Left(s, c)
      else At(s, c, Spawning(true))
    case StopCalled(id) =>
      if id in s.stops || id in s.raising then s
      else if s.held.None? then s.(closed := true)
      else s.(closed := true, stops := s.stops[id := s.held.value])
    case StopReaped(id, reap) =>
      if id !in s.stops then s
      else
        var waiting := s.(stops := s.stops - {id});
        (match reap
         case Confirmed => Released(waiting, s.stops[id])
         case Unconfirmed => waiting.(raising := s.raising + {id})
         case Interrupted => waiting)
    case StopRaises(id) =>
      if id in s.raising then s.(raising := s.raising - {id}, unconfirmed := true) else s
  }

  function Run(s: State, events: seq<Event>): State {
    if events == [] then s else Step(Run(s, events[..|events| - 1]), events[|events| - 1])
  }

  // ---------------------------------------------------------------------------------------------
  // The class: one method per section of code between two awaits
  // ---------------------------------------------------------------------------------------------

  class AcpBackend {
    var closed: bool
    var held: Option<Proc>
    var unconfirmed: bool
    var calls: map<Call, Phase>
    var stops: map<nat, Proc>
    var raising: set<nat>
    ghost var launched: set<Proc>
    ghost var gone: set<Proc>

    ghost function View(): State
      reads this
    {
      State(closed, held, unconfirmed, calls, stops, raising, launched, gone)
    }

    constructor ()
      ensures View() == INIT
    {
      closed, held, unconfirmed, calls, stops, raising := false, None, false, map[], map[], {};
      launched, gone := {}, {};
    }

    method EnterStart(call: Call) returns (accepted: bool)
      requires call !in calls
      modifies this
      ensures View() == Step(old(View()), StartCalled(call))
      ensures accepted <==> !closed && !unconfirmed
    {
      if closed { return false; }
      if unconfirmed { return false; }
      calls := calls[call := Spawning(false)];
      return true;
    }

    /** create_subprocess_exec returned: the process is held before the launch is published. */
    method SpawnReturned(call: Call, proc: Proc)
      requires call in calls && calls[call].Spawning? && proc !in launched
      modifies this
      ensures View() == Step(old(View()), ChildCreated(call, proc))
    {
      held := Some(proc);
      launched := launched + {proc};
      calls := calls[call := Publishing(calls[call].turn)];
    }

    /** A failed launch goes on to clean up whatever process is held. */
    method LaunchRaised(call: Call)
      requires call in calls && (calls[call].Spawning? || calls[call].Publishing?)
      modifies this
      ensures View() == Step(old(View()), LaunchFails(call))
    {
      if held.Some? {
        calls := calls[call := LaunchCleanup(held.value)];
      } else {
        calls := calls - {call};
      }
    }

    /** A process created before a FileNotFoundError stays held. */
    method LaunchFoundNothing(call: Call)
      requires call in calls && (calls[call].Spawning? || calls[call].Publishing?)
      modifies this
      ensures View() == Step(old(View()), LaunchNotFound(call))
    {
      calls := calls - {call};
    }

    /** start returns, or fails its assertion when someone has let go of the process meanwhile. */
    method LaunchPublished(call: Call) returns (started: bool)
      requires call in calls && calls[call].Publishing?
      modifies this
      ensures View() == Step(old(View()), Published(call))
      ensures started <==> held.Some?
    {
      started := held.Some?;
      if calls[call].turn && started {
        calls := calls[call := Turning];
      } else {
        calls := calls - {call};
      }
    }

    method LaunchCleanupReturned(call: Call, reap: Reap)
      requires call in calls && calls[call].LaunchCleanup?
      modifies this
      ensures View() == Step(old(View()), LaunchReaped(call, reap))
    {
      if reap.Confirmed? {
        gone := gone + {calls[call].proc};
        held := None;
      } else {
        unconfirmed := true;
      }
      calls := calls - {call};
    }

    /** run_turn up to its first await on the process: a dead agent is reaped before a relaunch. */
    method EnterRunTurn(call: Call, alive: bool) returns (accepted: bool)
      requires call !in calls
      modifies this
      ensures View() == Step(old(View()), TurnCalled(call, alive))
      ensures accepted <==> !closed && !unconfirmed
    {
      accepted := !closed && !unconfirmed;
      if !accepted { return; }
      if held.None? {
        calls := calls[call := Relaunching];
      } else if alive {
        calls := calls[call := Turning];
      } else {
        calls := calls[call := RestartReap(held.value)];
      }
    }

    method TurnEnded(call: Call)
      requires call in calls && calls[call].Turning?
      modifies this
      ensures View() == Step(old(View()), TurnEnds(call))
    {
      calls := calls - {call};
    }

    /** _abort_turn after the grace: it captures the process it will reap. */
    method AbortTurn(call: Call)
      requires call in calls && calls[call].Turning?
      modifies this
      ensures View() == Step(old(View()), GraceOver(call))
    {
      if held.Some? {
        calls := calls[call := AbortReap(held.value)];
      } else {
        calls := calls - {call};
      }
    }

    method AbortReturned(call: Call, reap: Reap)
      requires call in calls && calls[call].AbortReap?
      modifies this
      ensures View() == Step(old(View()), AbortReaped(call, reap))
    {
      if reap.Confirmed? {
        gone := gone + {calls[call].proc};
        held := None;
      } else {
        unconfirmed := true;
      }
      calls := calls - {call};
    }

    method RestartReturned(call: Call, reap: Reap)
      requires call in calls && calls[call].RestartReap?
      modifies this
      ensures View() == Step(old(View()), RestartReaped(call, reap))
    {
      match reap {
        case Confirmed =>
          gone := gone + {calls[call].proc};
          held := None;
          calls := calls[call := Relaunching];
        case Unconfirmed =>
          unconfirmed := true;
          calls := calls - {call};
        case Interrupted =>
          calls := calls - {call};
      }
    }

    /** _restart_session goes on to start, which looks at the flags again. */
    method Relaunch(call: Call)
      requires call in calls && calls[call].Relaunching?
      modifies this
      ensures View() == Step(old(View()), ReadersCancelled(call))
    {
      if closed || unconfirmed {
        calls := calls - {call};
      } else {
        calls := calls[call := Spawning(true)];
      }
    }

    method Stop(id: nat) returns (waits: bool)
      requires id !in stops && id !in raising
      modifies this
      ensures View() == Step(old(View()), StopCalled(id))
      ensures waits <==> held.Some?
    {
      closed := true;
      waits := held.Some?;
      if waits {
        stops := stops[id := held.value];
      }
    }

    method StopReapReturned(id: nat, reap: Reap)
      requires id in stops
      modifies this
      ensures View() == Step(old(View()), StopReaped(id, reap))
    {
      if reap.Confirmed? {
        gone := gone + {stops[id]};
        held := None;
      } else if reap.Unconfirmed? {
        raising := raising + {id};
      }
      stops := stops - {id};
    }

    /** The readers are cancelled in between; only then does stop record the failure and raise. */
    method StopFailed(id: nat)
      requires id in raising
      modifies this
      ensures View() == Step(old(View()), StopRaises(id))
    {
      raising := raising - {id};
      unconfirmed := true;
    }
  }

  // ---------------------------------------------------------------------------------------------
  // Safety over all runs
  // ---------------------------------------------------------------------------------------------

  /** A process is held that is not confirmed gone. */
  predicate HoldsLive(s: State) {
    s.held.Some? && s.held.value !in s.gone
  }

  /** Every launched process not confirmed gone is the one held. */
  predicate Owned(s: State) {
    forall p :: p in s.launched && p !in s.gone ==> s.held == Some(p)
  }

  /** No call in progress is about to launch or to let go of a process. */
  predicate Quiet(s: State) {
    forall c :: c in s.calls ==> s.calls[c].Turning? || s.calls[c].Publishing?
  }

  /** What a call needs to find if it is to do no harm; the code looks at none of this. */
  predicate Fits(s: State, e: Event) {
    match e
    case StartCalled(_) => !HoldsLive(s) && Quiet(s)
    case TurnCalled(_, alive) =>
      if s.held.None? then Quiet(s)
      else if alive then forall d :: d in s.calls ==> !s.calls[d].RestartReap?
      else s.calls == map[]
    case _ => true
  }

  predicate IsCall(e: Event) {
    e.StartCalled? || e.TurnCalled?
  }

  /** Every start and run_turn that is accepted fits. */
  predicate Orderly(s: State, events: seq<Event>) {
    events != [] ==>
      var before, e := Run(s, events[..|events| - 1]), events[|events| - 1];
      && Orderly(s, events[..|events| - 1])
      && (IsCall(e) && Accepts(before, e.call) ==> Fits(before, e))
  }

  /** p is the only launched process that may still be alive. */
  predicate Sole(s: State, p: Proc) {
    p in s.launched && forall q :: q in s.launched && q !in s.gone ==> q == p
  }

  predicate Launches(phase: Phase) {
    phase.Spawning? || phase.Relaunching?
  }

  predicate Reaps(phase: Phase) {
    phase.LaunchCleanup? || phase.AbortReap? || phase.RestartReap?
  }

  /** A call that is launching or restarting goes with nothing that could let go of its process. */
  predicate Apart(s: State) {
    && (forall c, d :: c in s.calls && d in s.calls && c != d && Launches(s.calls[c]) ==>
          s.calls[d].Turning? || s.calls[d].Publishing?)
    && (forall c, d :: c in s.calls && d in s.calls && s.calls[c].RestartReap? ==> c == d)
  }

  predicate Invariant(s: State) {
    && Owned(s) && s.gone <= s.launched && Apart(s)
    && (s.held.Some? ==> HoldsLive(s) && Sole(s, s.held.value))
    && (forall c :: c in s.calls ==>
          && (Launches(s.calls[c]) ==> s.held.None?)
          && (s.calls[c].Spawning? ==> !s.unconfirmed && s.stops == map[] && s.raising == {})
          && (Reaps(s.calls[c]) ==> Sole(s, s.calls[c].proc)))
    && (forall id :: id in s.stops ==> Sole(s, s.stops[id]))
    && (s.stops != map[] || s.raising != {} ==> s.closed)
  }

  lemma {:induction false} RunKeepsInvariant(s: State, events: seq<Event>)
    requires Invariant(s) && Orderly(s, events)
    ensures Invariant(Run(s, events))
  {
    hide Step, Invariant, Fits, Accepts;
    if events != [] {
      RunKeepsInvariant(s, events[..|events| - 1]);
      StepKeepsInvariant(Run(s, events[..|events| - 1]), events[|events| - 1]);
    }
  }

  lemma StepKeepsInvariant(s: State, e: Event)
    requires Invariant(s) && (IsCall(e) && Accepts(s, e.call) ==> Fits(s, e))
    ensures Invariant(Step(s, e))
  {
    hide Invariant, Step, Accepts, Fits;
    match e
    case StopCalled(_) => StopKeepsInvariant(s, e);
    case StopReaped(_, _) => StopKeepsInvariant(s, e);
    case StopRaises(_) => StopKeepsInvariant(s, e);
    case LaunchReaped(_, _) => ReapKeepsInvariant(s, e);
    case AbortReaped(_, _) => ReapKeepsInvariant(s, e);
    case RestartReaped(_, _) => RestartKeepsInvariant(s, e);
    case StartCalled(_) => CallKeepsInvariant(s, e);
    case TurnCalled(_, _) => CallKeepsInvariant(s, e);
    case ChildCreated(_, _) => SpawnKeepsInvariant(s, e);
    case ReadersCancelled(_) => SpawnKeepsInvariant(s, e);
    case _ => OthersKeepInvariant(s, e);
  }

  lemma StopKeepsInvariant(s: State, e: Event)
    requires Invariant(s) && (e.StopCalled? || e.StopReaped? || e.StopRaises?)
    ensures Invariant(Step(s, e))
  {
  }

  lemma LeavingKeepsInvariant(s: State, c: Call)
    requires Invariant(s)
    ensures Invariant(Left(s, c))
  {
  }

  lemma ReleasingKeepsInvariant(s: State, p: Proc)
    requires Invariant(s) && Sole(s, p)
    ensures Invariant(Released(s, p))
  {
  }

  lemma UnconfirmedKeepsInvariant(s: State)
    requires Invariant(s) && NoneSpawning(s)
    ensures Invariant(s.(unconfirmed := true))
  {
  }

  lemma ReapingKeepsInvariant(s: State, c: Call, phase: Phase)
    requires Invariant(s) && c in s.calls && (phase.LaunchCleanup? || phase.AbortReap?) && s.held == Some(phase.proc)
    ensures Invariant(At(s, c, phase))
  {
  }

  lemma TurningKeepsInvariant(s: State, c: Call)
    requires Invariant(s) && c in s.calls && s.calls[c].Publishing?
    ensures Invariant(At(s, c, Turning))
  {
  }

  lemma ReaperFacts(s: State, c: Call)
    requires Invariant(s) && c in s.calls && Reaps(s.calls[c])
    ensures Sole(s, s.calls[c].proc) && NoneSpawning(Left(s, c))
  {
  }

  lemma ReapKeepsInvariant(s: State, e: Event)
    requires Invariant(s) && (e.LaunchReaped? || e.AbortReaped?)
    ensures Invariant(Step(s, e))
  {
    hide Invariant, Sole, NoneSpawning;
    var c := e.call;
    if c in s.calls && (if e.LaunchReaped? then s.calls[c].LaunchCleanup? else s.calls[c].AbortReap?) {
      ReaperFacts(s, c);
      if e.reap.Confirmed? {
        ReleasingKeepsInvariant(s, s.calls[c].proc);
        LeavingKeepsInvariant(Released(s, s.calls[c].proc), c);
      } else {
        LeavingKeepsInvariant(s, c);
        UnconfirmedKeepsInvariant(Left(s, c));
      }
    }
  }

  lemma RestartKeepsInvariant(s: State, e: Event)
    requires Invariant(s) && e.RestartReaped?
    ensures Invariant(Step(s, e))
  {
    hide Invariant, Sole, NoneSpawning;
    var c := e.call;
    if c in s.calls && s.calls[c].RestartReap? {
      ReaperFacts(s, c);
      LeavingKeepsInvariant(s, c);
      UnconfirmedKeepsInvariant(Left(s, c));
      ReleasingKeepsInvariant(s, s.calls[c].proc);
      RelaunchingKeepsInvariant(Released(s, s.calls[c].proc), c);
    }
  }

  lemma RelaunchingKeepsInvariant(s: State, c: Call)
    requires Invariant(s) && c in s.calls && s.calls[c].RestartReap? && s.held.None?
    ensures Invariant(At(s, c, Relaunching))
  {
  }

  lemma CallKeepsInvariant(s: State, e: Event)
    requires Invariant(s) && IsCall(e) && (Accepts(s, e.call) ==> Fits(s, e))
    ensures Invariant(Step(s, e))
  {
  }

  lemma SpawnKeepsInvariant(s: State, e: Event)
    requires Invariant(s) && (e.ChildCreated? || e.ReadersCancelled?)
    ensures Invariant(Step(s, e))
  {
  }

  lemma OthersKeepInvariant(s: State, e: Event)
    requires Invariant(s)
    requires e.LaunchFails? || e.LaunchNotFound? || e.Published? || e.TurnEnds? || e.GraceOver?
    ensures Invariant(Step(s, e))
  {
    hide Invariant;
    var c := e.call;
    if c in s.calls {
      LeavingKeepsInvariant(s, c);
      if s.held.Some? {
        ReapingKeepsInvariant(s, c, LaunchCleanup(s.held.value));
        ReapingKeepsInvariant(s, c, AbortReap(s.held.value));
      }
      if s.calls[c].Publishing? {
        TurningKeepsInvariant(s, c);
      }
    }
  }

  /**
   In every run whose calls fit, a launched process not confirmed gone is the one held; so at most one
   may be alive.
   */
  lemma LaunchedIsHeld(events: seq<Event>, p: Proc)
    requires Orderly(INIT, events)
    requires var s := Run(INIT, events); p in s.launched && p !in s.gone
    ensures var s := Run(INIT, events); s.held == Some(p) && forall q :: q in s.launched && q !in s.gone ==> q == p
  {
    InvariantAtStart();
    RunKeepsInvariant(INIT, events);
  }

  lemma InvariantAtStart()
    ensures Invariant(INIT)
  {
  }

  lemma InvariantOwns(s: State)
    requires Invariant(s)
    ensures Owned(s)
  {
  }

  // ---------------------------------------------------------------------------------------------
  // Calls that do not fit
  // ---------------------------------------------------------------------------------------------

  /** A process id larger than all used so far. */
  lemma {:induction false} Unused(used: set<Proc>) returns (p: Proc)
    ensures forall q :: q in used ==> q < p
    decreases |used|
  {
    p := 0;
    if used != {} {
      var q: Proc :| q in used;
      var above := Unused(used - {q});
      p := if q < above then above else q + 1;
      forall r | r in used ensures r < p {
        assert r == q || r in used - {q};
      }
    }
  }

  predicate NoCalls(events: seq<Event>) {
    forall i :: 0 <= i < |events| ==> !IsCall(events[i])
  }

  /** Without any further call, some continuation leaves a live process that is not held. */
  ghost predicate CanLose(s: State) {
    exists more :: NoCalls(more) && !Owned(Run(s, more))
  }

  lemma {:induction false} RunCons(s: State, e: Event, rest: seq<Event>)
    ensures Run(s, [e] + rest) == Run(Step(s, e), rest)
  {
    hide Step;
    if rest == [] {
      assert ([e] + rest)[..0] == [] && ([e] + rest)[0] == e;
    } else {
      var n := |rest| - 1;
      assert ([e] + rest)[..n + 1] == [e] + rest[..n];
      RunCons(s, e, rest[..n]);
    }
  }

  lemma LosesLater(s: State, e: Event)
    requires !IsCall(e) && CanLose(Step(s, e))
    ensures CanLose(s)
  {
    hide Step, Owned, IsCall;
    var more :| NoCalls(more) && !Owned(Run(Step(s, e), more));
    RunCons(s, e, more);
    assert NoCalls([e] + more);
  }

  lemma LosesNow(s: State)
    requires !Owned(s)
    ensures CanLose(s)
  {
    assert NoCalls([]) && Run(s, []) == s;
  }

  lemma {:induction false} NoCallsIsOrderly(s: State, more: seq<Event>)
    requires NoCalls(more)
    ensures Orderly(s, more)
  {
    if more != [] {
      NoCallsIsOrderly(s, more[..|more| - 1]);
    }
  }

  /** The end of a reap that confirms. */
  function ReapOf(s: State, d: Call): Event
    requires d in s.calls && Reaps(s.calls[d])
  {
    if s.calls[d].LaunchCleanup? then LaunchReaped(d, Confirmed)
    else if s.calls[d].AbortReap? then AbortReaped(d, Confirmed)
    else RestartReaped(d, Confirmed)
  }

  /** A call spawns while another waits for a reap: the reap lets go of the new process. */
  lemma ReapLosesSpawned(s: State, c: Call, d: Call)
    requires IsSpawning(s, c) && d in s.calls && Reaps(s.calls[d]) && s.calls[d].proc in s.launched
    requires s.gone <= s.launched
    ensures CanLose(s)
  {
    var p := Unused(s.launched);
    var spawned := Step(s, ChildCreated(c, p));
    assert spawned.calls[d] == s.calls[d];
    var end := Step(spawned, ReapOf(spawned, d));
    assert p in end.launched && p !in end.gone && end.held.None?;
    LosesNow(end);
    LosesLater(spawned, ReapOf(spawned, d));
    LosesLater(s, ChildCreated(c, p));
  }

  lemma SpawnLosesHeld(s: State, c: Call)
    requires IsSpawning(s, c) && HoldsLive(s) && s.held.value in s.launched
    ensures CanLose(s)
  {
    var p := Unused(s.launched);
    var end := Step(s, ChildCreated(c, p));
    assert s.held.value in end.launched && s.held.value !in end.gone && end.held == Some(p);
    LosesNow(end);
    LosesLater(s, ChildCreated(c, p));
  }

  lemma TwoSpawnsLoseOne(s: State, c: Call, d: Call)
    requires c != d && IsSpawning(s, c) && IsSpawning(s, d) && s.gone <= s.launched
    ensures CanLose(s)
  {
    var p := Unused(s.launched);
    var one := Step(s, ChildCreated(d, p));
    SpawnLosesHeld(one, c);
    LosesLater(s, ChildCreated(d, p));
  }

  /** A call spawns while another is about to launch or to let go of a process. */
  lemma SpawnAmongLoses(s: State, c: Call, d: Call)
    requires !s.closed && !s.unconfirmed && s.gone <= s.launched && c != d && IsSpawning(s, c)
    requires d in s.calls && !s.calls[d].Turning? && !s.calls[d].Publishing?
    requires Reaps(s.calls[d]) ==> s.calls[d].proc in s.launched
    ensures CanLose(s)
  {
    hide CanLose;
    if Reaps(s.calls[d]) {
      ReapLosesSpawned(s, c, d);
    } else if s.calls[d].Spawning? {
      TwoSpawnsLoseOne(s, c, d);
    } else {
      TwoSpawnsLoseOne(Step(s, ReadersCancelled(d)), c, d);
      LosesLater(s, ReadersCancelled(d));
    }
  }

  /** A call reaps what is held to launch anew, while another will let go of what it found held. */
  lemma RestartAmongLoses(s: State, c: Call, d: Call)
    requires !s.closed && !s.unconfirmed && s.gone <= s.launched && c != d
    requires c in s.calls && s.calls[c].RestartReap? && s.calls[c].proc in s.launched
    requires d in s.calls && Reaps(s.calls[d]) && s.calls[d].proc in s.launched
    ensures CanLose(s)
  {
    hide CanLose;
    var reaped := Step(s, RestartReaped(c, Confirmed));
    var again := Step(reaped, ReadersCancelled(c));
    assert again.calls[d] == s.calls[d] && IsSpawning(again, c);
    ReapLosesSpawned(again, c, d);
    LosesLater(reaped, ReadersCancelled(c));
    LosesLater(s, RestartReaped(c, Confirmed));
  }

  lemma RestartCallLoses(s: State, c: Call, d: Call)
    requires Invariant(s) && Accepts(s, c) && s.held.Some? && d in s.calls
    ensures CanLose(Step(s, TurnCalled(c, false)))
  {
    hide CanLose;
    var begun := Step(s, TurnCalled(c, false));
    assert begun.calls[d] == s.calls[d] && begun.calls[c] == RestartReap(s.held.value);
    if Reaps(s.calls[d]) {
      RestartAmongLoses(begun, c, d);
    } else if s.calls[d].Turning? {
      RestartAmongLoses(Step(begun, GraceOver(d)), c, d);
      LosesLater(begun, GraceOver(d));
    } else {
      RestartAmongLoses(Step(begun, LaunchFails(d)), c, d);
      LosesLater(begun, LaunchFails(d));
    }
  }

  lemma TurnDuringRestartLoses(s: State, c: Call, d: Call)
    requires Invariant(s) && Accepts(s, c) && s.held.Some? && d in s.calls && s.calls[d].RestartReap?
    ensures CanLose(Step(s, TurnCalled(c, true)))
  {
    hide CanLose;
    var begun := Step(s, TurnCalled(c, true));
    var aborted := Step(begun, GraceOver(c));
    assert aborted.calls[d] == s.calls[d] && aborted.calls[c] == AbortReap(s.held.value);
    RestartAmongLoses(aborted, d, c);
    LosesLater(begun, GraceOver(c));
  }

  lemma StartLoses(s: State, c: Call)
    requires Invariant(s) && Accepts(s, c) && !Fits(s, StartCalled(c))
    ensures CanLose(Step(s, StartCalled(c)))
  {
    hide CanLose;
    var begun := Step(s, StartCalled(c));
    if HoldsLive(s) {
      SpawnLosesHeld(begun, c);
    } else {
      var d :| d in s.calls && !s.calls[d].Turning? && !s.calls[d].Publishing?;
      assert begun.calls[d] == s.calls[d];
      SpawnAmongLoses(begun, c, d);
    }
  }

  lemma TurnLoses(s: State, c: Call, alive: bool)
    requires Invariant(s) && Accepts(s, c) && !Fits(s, TurnCalled(c, alive))
    ensures CanLose(Step(s, TurnCalled(c, alive)))
  {
    hide CanLose;
    if s.held.None? {
      var begun := Step(s, TurnCalled(c, alive));
      var spawning := Step(begun, ReadersCancelled(c));
      var d :| d in s.calls && !s.calls[d].Turning? && !s.calls[d].Publishing?;
      assert spawning.calls[d] == s.calls[d];
      SpawnAmongLoses(spawning, c, d);
      LosesLater(begun, ReadersCancelled(c));
    } else if alive {
      var d :| d in s.calls && s.calls[d].RestartReap?;
      TurnDuringRestartLoses(s, c, d);
    } else {
      var d :| d in s.calls;
      RestartCallLoses(s, c, d);
    }
  }

  /** No continuation whose calls fit ever has a live process that is not held. */
  ghost predicate KeepsAll(s: State) {
    forall more :: Orderly(s, more) ==> Owned(Run(s, more))
  }

  lemma LosingKeepsNotAll(s: State)
    requires CanLose(s)
    ensures !KeepsAll(s)
  {
    hide Owned;
    var more :| NoCalls(more) && !Owned(Run(s, more));
    NoCallsIsOrderly(s, more);
  }

  lemma InvariantKeepsAll(s: State)
    requires Invariant(s)
    ensures KeepsAll(s)
  {
    hide Invariant, Owned;
    forall more | Orderly(s, more) ensures Owned(Run(s, more)) {
      RunKeepsInvariant(s, more);
      InvariantOwns(Run(s, more));
    }
  }

  /**
   A start that is accepted loses no process, whatever fitting events follow, exactly when no live process
   is held and no other call is about to launch or to let go of one.
   */
  lemma StartIsSafeIff(events: seq<Event>, c: Call)
    requires Orderly(INIT, events) && Accepts(Run(INIT, events), c)
    ensures KeepsAll(Step(Run(INIT, events), StartCalled(c)))
       <==> !HoldsLive(Run(INIT, events)) && Quiet(Run(INIT, events))
  {
    hide Step, Invariant, KeepsAll, CanLose, Accepts, HoldsLive, Quiet;
    var s := Run(INIT, events);
    InvariantAtStart();
    RunKeepsInvariant(INIT, events);
    if Fits(s, StartCalled(c)) {
      StepKeepsInvariant(s, StartCalled(c));
      InvariantKeepsAll(Step(s, StartCalled(c)));
    } else {
      StartLoses(s, c);
      LosingKeepsNotAll(Step(s, StartCalled(c)));
    }
  }

  /**
   Likewise a run_turn that is accepted: exactly when it finds no process and only quiet calls, or a live
   one while no call is restarting, or a dead one while no other call is in progress.
   */
  lemma TurnIsSafeIff(events: seq<Event>, c: Call, alive: bool)
    requires Orderly(INIT, events) && Accepts(Run(INIT, events), c)
    ensures KeepsAll(Step(Run(INIT, events), TurnCalled(c, alive))) <==> Fits(Run(INIT, events), TurnCalled(c, alive))
  {
    hide Step, Invariant, KeepsAll, CanLose, Accepts, Fits;
    var s := Run(INIT, events);
    InvariantAtStart();
    RunKeepsInvariant(INIT, events);
    if Fits(s, TurnCalled(c, alive)) {
      StepKeepsInvariant(s, TurnCalled(c, alive));
      InvariantKeepsAll(Step(s, TurnCalled(c, alive)));
    } else {
      TurnLoses(s, c, alive);
      LosingKeepsNotAll(Step(s, TurnCalled(c, alive)));
    }
  }

  /** A start while a live process is held: the new process takes its place, and it is lost. */
  lemma SecondProcessLosesFirst(s: State, c: Call, p: Proc)
    requires Invariant(s) && Accepts(s, c) && HoldsLive(s) && p !in s.launched
    ensures !Owned(Step(Step(s, StartCalled(c)), ChildCreated(c, p)))
  {
    var first := s.held.value;
    var now := Step(Step(s, StartCalled(c)), ChildCreated(c, p));
    assert first in now.launched && first !in now.gone && now.held == Some(p) && p != first;
  }

  // ---------------------------------------------------------------------------------------------
  // After a stop, and after an unconfirmed cleanup
  // ---------------------------------------------------------------------------------------------

  predicate NoneSpawning(s: State) {
    forall c :: c in s.calls ==> !s.calls[c].Spawning?
  }

  /** Once closed with no launch in flight, nothing is launched again. */
  lemma {:induction false} ClosedForGood(s: State, more: seq<Event>)
    requires s.closed && NoneSpawning(s)
    ensures var t := Run(s, more); t.closed && NoneSpawning(t) && t.launched == s.launched
  {
    hide Step, NoneSpawning;
    if more != [] {
      ClosedForGood(s, more[..|more| - 1]);
      ClosedStays(Run(s, more[..|more| - 1]), more[|more| - 1]);
    }
  }

  lemma ClosedStays(s: State, e: Event)
    requires s.closed && NoneSpawning(s)
    ensures Step(s, e).closed && NoneSpawning(Step(s, e)) && Step(s, e).launched == s.launched
  {
  }

  /**
   start does not look at _closed again once it is spawning: after a stop a process can still be
   launched exactly when the stop came while one was being spawned.
   */
  lemma StopIsFinalUnlessSpawning(s: State, id: nat)
    requires id !in s.stops && id !in s.raising
    ensures (exists more :: Run(Step(s, StopCalled(id)), more).launched != s.launched) <==> !NoneSpawning(s)
  {
    hide Run, Step;
    var stopped := Step(s, StopCalled(id));
    StopChanges(s, id);
    if NoneSpawning(s) {
      forall more ensures Run(stopped, more).launched == s.launched {
        ClosedForGood(stopped, more);
      }
    } else {
      var more := SpawnGoesOn(stopped);
      assert Run(stopped, more).launched != s.launched;
    }
  }

  lemma StopChanges(s: State, id: nat)
    requires id !in s.stops && id !in s.raising
    ensures var stopped := Step(s, StopCalled(id));
            stopped.closed && stopped.launched == s.launched && stopped.calls == s.calls
  {
  }

  lemma SpawnGoesOn(s: State) returns (more: seq<Event>)
    requires !NoneSpawning(s)
    ensures Run(s, more).launched != s.launched
  {
    var c :| c in s.calls && s.calls[c].Spawning?;
    var p := Unused(s.launched);
    more := [ChildCreated(c, p)];
    RunSnoc(s, [], ChildCreated(c, p));
    assert [] + [ChildCreated(c, p)] == more;
    assert p in Run(s, more).launched;
  }

  /** Whenever a process is launched, all earlier ones are confirmed gone. */
  lemma LaunchOnlyWhenFree(events: seq<Event>, e: Event)
    requires Orderly(INIT, events)
    requires var s := Run(INIT, events); Step(s, e).launched != s.launched
    ensures var s := Run(INIT, events); s.held.None? && s.launched <= s.gone && !s.unconfirmed
  {
    InvariantAtStart();
    RunKeepsInvariant(INIT, events);
    LaunchIsFree(Run(INIT, events), e);
  }

  lemma LaunchIsFree(s: State, e: Event)
    requires Invariant(s) && Step(s, e).launched != s.launched
    ensures s.held.None? && s.launched <= s.gone && !s.unconfirmed
  {
    hide Apart;
    assert e.ChildCreated? && IsSpawning(s, e.call);
  }

  lemma UnconfirmedStays(s: State, e: Event)
    requires s.unconfirmed && NoneSpawning(s)
    ensures Step(s, e).unconfirmed && NoneSpawning(Step(s, e)) && Step(s, e).launched == s.launched
  {
  }

  /** Once cleanup is unconfirmed nothing is ever launched again. */
  lemma {:induction false} UnconfirmedForGood(events: seq<Event>, more: seq<Event>)
    requires Orderly(INIT, events) && Run(INIT, events).unconfirmed
    ensures var s := Run(INIT, events);
            var t := Run(s, more);
            t.launched == s.launched && t.unconfirmed && NoneSpawning(t)
  {
    hide Step;
    InvariantAtStart();
    RunKeepsInvariant(INIT, events);
    if more != [] {
      UnconfirmedForGood(events, more[..|more| - 1]);
      UnconfirmedStays(Run(Run(INIT, events), more[..|more| - 1]), more[|more| - 1]);
    }
  }

  /** Closed and at rest with nothing held: everything is gone, for good. */
  lemma {:induction false} StoppedMeansGone(events: seq<Event>, more: seq<Event>)
    requires Orderly(INIT, events)
    requires var s := Run(INIT, events); s.closed && s.calls == map[] && s.held.None?
    ensures var s := Run(INIT, events);
            var t := Run(s, more);
            t.launched == s.launched <= t.gone && t.held.None? && t.calls == map[] && t.closed
  {
    hide Step;
    InvariantAtStart();
    RunKeepsInvariant(INIT, events);
    if more != [] {
      StoppedMeansGone(events, more[..|more| - 1]);
      StoppedStays(Run(Run(INIT, events), more[..|more| - 1]), more[|more| - 1]);
    }
  }

  lemma StoppedStays(s: State, e: Event)
    requires s.closed && s.calls == map[] && s.held.None?
    ensures var t := Step(s, e);
            t.launched == s.launched && s.gone <= t.gone && t.held.None? && t.calls == map[] && t.closed
  {
  }

  /** Such a run: the stop and the start are both done, and a live process is held. */
  lemma StopDuringSpawnLeavesProcess(c: Call, p: Proc)
    ensures var s := Run(INIT, [StartCalled(c)] + [StopCalled(0)] + [ChildCreated(c, p)] + [Published(c)]);
            && s.closed && s.calls == map[] && s.stops == map[] && s.raising == {}
            && s.held == Some(p) && p !in s.gone
  {
    RunSnoc(INIT, [], StartCalled(c));
    assert [] + [StartCalled(c)] == [StartCalled(c)];
    RunSnoc(INIT, [StartCalled(c)], StopCalled(0));
    RunSnoc(INIT, [StartCalled(c)] + [StopCalled(0)], ChildCreated(c, p));
    RunSnoc(INIT, [StartCalled(c)] + [StopCalled(0)] + [ChildCreated(c, p)], Published(c));
  }

  lemma RunSnoc(s: State, events: seq<Event>, e: Event)
    ensures Run(s, events + [e]) == Step(Run(s, events), e)
  {
    assert (events + [e])[..|events|] == events;
  }

  // ---------------------------------------------------------------------------------------------
  // What the answers of the reaps do
  // ---------------------------------------------------------------------------------------------

  /** The call waits for a reap of this process. */
  predicate IsReaping(s: State, c: Call, p: Proc) {
    In(s, c, LaunchCleanup(p)) || In(s, c, AbortReap(p)) || In(s, c, RestartReap(p))
  }

  /** The reap a call waits for is answered here. */
  predicate Answers(s: State, e: Event, c: Call, reap: Reap) {
    || (e == LaunchReaped(c, reap) && c in s.calls && s.calls[c].LaunchCleanup?)
    || (e == AbortReaped(c, reap) && c in s.calls && s.calls[c].AbortReap?)
    || (e == RestartReaped(c, reap) && c in s.calls && s.calls[c].RestartReap?)
  }

  /** A reap of this process is confirmed here, for a call or for a stop. */
  ghost predicate Confirms(s: State, e: Event, p: Proc) {
    || (exists c :: Answers(s, e, c, Confirmed) && IsReaping(s, c, p))
    || (e.StopReaped? && e.reap.Confirmed? && e.id in s.stops && s.stops[e.id] == p)
  }

  /** A cleanup is found unconfirmed here: for a call, unless its restart was interrupted, or when a stop says so. */
  ghost predicate LeavesUnconfirmed(s: State, e: Event) {
    || (exists c, reap :: Answers(s, e, c, reap) && (reap.Unconfirmed? || (reap.Interrupted? && !e.RestartReaped?)))
    || (e.StopRaises? && e.id in s.raising)
  }

  ghost predicate WasConfirmed(events: seq<Event>, p: Proc) {
    exists k :: 0 <= k < |events| && Confirms(Run(INIT, events[..k]), events[k], p)
  }

  ghost predicate WasUnconfirmed(events: seq<Event>) {
    exists k :: 0 <= k < |events| && LeavesUnconfirmed(Run(INIT, events[..k]), events[k])
  }

  lemma WasSnoc(events: seq<Event>, e: Event, p: Proc)
    ensures WasConfirmed(events + [e], p) <==> WasConfirmed(events, p) || Confirms(Run(INIT, events), e, p)
    ensures WasUnconfirmed(events + [e]) <==> WasUnconfirmed(events) || LeavesUnconfirmed(Run(INIT, events), e)
  {
    hide Confirms, LeavesUnconfirmed, Step;
    var all := events + [e];
    assert all[..|events|] == events && all[|events|] == e;
    assert forall k :: 0 <= k < |events| ==> all[..k] == events[..k] && all[k] == events[k];
    if WasConfirmed(events, p) {
      var k :| 0 <= k < |events| && Confirms(Run(INIT, events[..k]), events[k], p);
      assert Confirms(Run(INIT, all[..k]), all[k], p);
    }
    if WasUnconfirmed(events) {
      var k :| 0 <= k < |events| && LeavesUnconfirmed(Run(INIT, events[..k]), events[k]);
      assert LeavesUnconfirmed(Run(INIT, all[..k]), all[k]);
    }
  }

  /**
   Over every run: a process counts as gone exactly when a reap of it was confirmed, and further launches are
   blocked exactly when a cleanup was found unconfirmed.
   */
  lemma {:induction false} ReapsDecide(events: seq<Event>, p: Proc)
    ensures p in Run(INIT, events).gone <==> WasConfirmed(events, p)
    ensures Run(INIT, events).unconfirmed <==> WasUnconfirmed(events)
  {
    hide Step, Confirms, LeavesUnconfirmed;
    if events != [] {
      var before, e := events[..|events| - 1], events[|events| - 1];
      assert events == before + [e];
      ReapsDecide(before, p);
      WasSnoc(before, e, p);
      GoneStep(Run(INIT, before), e, p);
      UnconfirmedStep(Run(INIT, before), e);
    }
  }

  lemma GoneStep(s: State, e: Event, p: Proc)
    ensures p in Step(s, e).gone <==> p in s.gone || Confirms(s, e, p)
  {
    if e.LaunchReaped? || e.AbortReaped? || e.RestartReaped? {
      assert e.reap.Confirmed? && Answers(s, e, e.call, Confirmed) && IsReaping(s, e.call, p) ==> Confirms(s, e, p);
    }
  }

  lemma UnconfirmedStep(s: State, e: Event)
    ensures Step(s, e).unconfirmed <==> s.unconfirmed || LeavesUnconfirmed(s, e)
  {
    if e.LaunchReaped? || e.AbortReaped? || e.RestartReaped? {
      assert Answers(s, e, e.call, e.reap) && (e.reap.Unconfirmed? || (e.reap.Interrupted? && !e.RestartReaped?)) ==>
          LeavesUnconfirmed(s, e);
    }
  }

  /** A call that reaps a process does so until the answer comes, whatever else happens. */
  lemma ReapsUntilAnswered(s: State, e: Event, c: Call, p: Proc)
    requires IsReaping(s, c, p) && forall reap :: !Answers(s, e, c, reap)
    ensures IsReaping(Step(s, e), c, p)
  {
    if e.LaunchReaped? || e.AbortReaped? || e.RestartReaped? {
      assert !Answers(s, e, c, e.reap);
    }
  }

  /**
   What reaps: a launch that fails, a turn whose grace is over, and a turn that finds its process dead, each
   with a process held; and the answer ends the call, or for a confirmed restart leads to the relaunch.
   */
  lemma FailuresReap(s: State, c: Call, p: Proc, reap: Reap)
    requires s.held == Some(p)
    ensures InLaunch(s, c) ==> IsReaping(Step(s, LaunchFails(c)), c, p)
    ensures In(s, c, Turning) ==> IsReaping(Step(s, GraceOver(c)), c, p)
    ensures Accepts(s, c) ==> IsReaping(Step(s, TurnCalled(c, false)), c, p)
    ensures In(s, c, LaunchCleanup(p)) ==> c !in Step(s, LaunchReaped(c, reap)).calls
    ensures In(s, c, AbortReap(p)) ==> c !in Step(s, AbortReaped(c, reap)).calls
    ensures In(s, c, RestartReap(p)) ==>
              var next := Step(s, RestartReaped(c, reap));
              if reap.Confirmed? then In(next, c, Relaunching) && next.held.None? else c !in next.calls
  {
  }

  predicate StopWaits(s: State, id: nat, p: Proc) {
    s.closed && id in s.stops && s.stops[id] == p
  }

  lemma StopWaitsOn(s: State, e: Event, id: nat, p: Proc)
    requires StopWaits(s, id, p) && !(e.StopReaped? && e.id == id)
    ensures StopWaits(Step(s, e), id, p)
  {
  }

  /** A stop with a process held closes the backend and waits for that process until its reap answers. */
  lemma {:induction false} StopWaitsForReap(s: State, id: nat, p: Proc, more: seq<Event>)
    requires s.held == Some(p) && id !in s.stops && id !in s.raising
    requires forall i :: 0 <= i < |more| ==> !(more[i].StopReaped? && more[i].id == id)
    ensures StopWaits(Run(Step(s, StopCalled(id)), more), id, p)
  {
    if more != [] {
      hide Step;
      StopWaitsForReap(s, id, p, more[..|more| - 1]);
      StopWaitsOn(Run(Step(s, StopCalled(id)), more[..|more| - 1]), more[|more| - 1], id, p);
    }
  }

  /** A stop that was told the cleanup is unconfirmed says so before it is over. */
  lemma UnconfirmedStopRaises(s: State, id: nat, e: Event)
    requires id in s.stops
    ensures id in Step(s, StopReaped(id, Unconfirmed)).raising
    ensures id in s.raising && id !in Step(s, e).raising ==> e == StopRaises(id) && Step(s, e).unconfirmed
  {
  }

  /** A process that was launched, served a turn and was stopped: held until the reap, then gone. */
  lemma WholeLife(s: State, c: Call, p: Proc, id: nat)
    requires Accepts(s, c) && s.held.None? && p !in s.launched && id !in s.stops && id !in s.raising
    ensures var up := Step(Step(Step(s, StartCalled(c)), ChildCreated(c, p)), Published(c));
            var turned := Step(Step(up, TurnCalled(c, true)), TurnEnds(c));
            var stopped := Step(Step(turned, StopCalled(id)), StopReaped(id, Confirmed));
            && up.held == turned.held == Some(p) && up.calls == turned.calls == s.calls && Accepts(turned, c)
            && stopped.held.None? && p in stopped.gone && stopped.closed && stopped.stops == s.stops
  {
  }

  /**
   A launch that finds no file after its process came up ends without a cleanup:
   the process stays held, unreaped, with later calls let in. A run_turn that finds it
   dead reaps it; a start puts the next process in its place.
   */
  lemma MissingFileKeepsProcess(s: State, c: Call, d: Call, p: Proc, q: Proc)
    requires InLaunch(s, c) && s.held == Some(p) && d != c && Accepts(s, d) && q !in s.launched
    ensures var left := Step(s, LaunchNotFound(c));
            var started := Step(Step(left, StartCalled(d)), ChildCreated(d, q));
            && c !in left.calls && left.held == Some(p) && left.gone == s.gone && Accepts(left, d)
            && In(Step(left, TurnCalled(d, false)), d, RestartReap(p))
            && started.held == Some(q) && (p in started.gone <==> p in s.gone)
  {
  }

  // ---------------------------------------------------------------------------------------------
  // Relaunches and stops
  // ---------------------------------------------------------------------------------------------

  /** A run_turn without a process launches one and then runs; a start is over once its process is up. */
  lemma RelaunchRuns(s: State, c: Call, p: Proc)
    requires Accepts(s, c) && s.held.None? && p !in s.launched
    ensures var ready := Step(Step(s, TurnCalled(c, false)), ReadersCancelled(c));
            var up := Step(Step(ready, ChildCreated(c, p)), Published(c));
            && In(up, c, Turning) && up.held == Some(p) && p in up.launched
            && c !in Step(up, TurnEnds(c)).calls && Step(up, TurnEnds(c)).held == Some(p)
    ensures var up := Step(Step(Step(s, StartCalled(c)), ChildCreated(c, p)), Published(c));
            c !in up.calls && up.held == Some(p) && p in up.launched
  {
  }

  /** A stop has an unconfirmed cleanup to report exactly when its own reap was not confirmed. */
  lemma StopReportsIff(s: State, id: nat, e: Event)
    ensures id in Step(s, e).raising
       <==> (id in s.raising && e != StopRaises(id)) || (id in s.stops && e == StopReaped(id, Unconfirmed))
    ensures Step(s, e).closed <==> s.closed || (e.StopCalled? && e.id !in s.stops && e.id !in s.raising)
  {
  }
}
