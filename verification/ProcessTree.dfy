/**
 terminate_process_tree of src/symphony/_shell.py for a POSIX child with a pid: SIGTERM, wait, SIGKILL,
 wait, and a status only once the whole process group was observed gone.
 */
module ProcessTree {
  import opened Prelude

  datatype Answer = Yes | No | Unknown

  datatype Kind = Term | Kill

  /** A signal to the group, and when it was sent. */
  datatype Signal = Signal(kind: Kind, at: nat)

  /**
   What the ladder does with its child: a probe of the group and its answer, a signal, a wait and its result,
   or, instead of the wait after SIGTERM, the return code that was there already.
   */
  datatype Act =
    | Probed(at: nat, answer: Answer)
    | Sent(signal: Signal)
    | Waited(at: nat, limit: nat, result: Option<int>)
    | Reaped(at: nat, code: int)

  const TERM_TIMEOUT: nat := 2000
  const KILL_TIMEOUT: nat := 5000
  const POLL: nat := 50
  const PROBE_LIMIT: nat := 1000

  /**
   What the host answers, as functions of the time of asking (in milliseconds): the probe of
   process_group_exists, whether process_identity still gives the recorded fingerprint, the recorded
   proc.returncode, and the result and duration of safe_proc_wait. groupAlive is the truth.
   */
  datatype Env = Env(
    probe: nat -> Answer,
    probeTime: nat -> nat,
    identityMatches: nat -> bool,
    returnCode: nat -> Option<int>,
    waitResult: nat -> Option<int>,
    waitTime: (nat, nat) -> nat,
    groupAlive: nat -> bool)

  /** A probe answers no only about a group that is gone, and a group that is gone stays gone. */
  ghost predicate Truthful(env: Env) {
    && (forall t: nat :: env.probe(t) == No ==> !env.groupAlive(t))
    && (forall s: nat, t: nat :: s <= t && !env.groupAlive(s) ==> !env.groupAlive(t))
  }

  /** Probes end within their own timeout, waits within theirs plus the short fallback. */
  ghost predicate Prompt(env: Env) {
    && (forall t: nat :: env.probeTime(t) <= PROBE_LIMIT)
    && (forall t: nat, limit: nat :: env.waitTime(t, limit) <= limit + POLL)
  }

  // ---------------------------------------------------------------------------------------------
  // The ladder as functions
  // ---------------------------------------------------------------------------------------------

  datatype Gone = Gone(answer: Option<bool>, end: nat, acts: seq<Act>)

  /** group_gone: poll until the group is gone or the deadline has passed. */
  function GroupGone(env: Env, t: nat, deadline: nat): (g: Gone)
    ensures t <= g.end
    decreases if t <= deadline then deadline - t + 1 else 0
  {
    var answer := env.probe(t);
    var now := t + env.probeTime(t);
    var act := Probed(t, answer);
    if answer == No then Gone(Some(true), now, [act])
    else if now >= deadline then Gone(if answer == Unknown then None else Some(false), now, [act])
    else
      var later := GroupGone(env, now + POLL, deadline);
      later.(acts := [act] + later.acts)
  }

  datatype Result = Result(status: Option<int>, end: nat, acts: seq<Act>)

  function OrElse(a: Option<int>, b: Option<int>): Option<int> {
    if a.Some? then a else b
  }

  function Terminate(env: Env, start: nat, identityGiven: bool): Result {
    var t := start + env.probeTime(start);
    var first := [Probed(start, env.probe(start))];
    match env.probe(start)
    case No => Result(env.returnCode(t), t, first)
    case Unknown =>
      if env.returnCode(t).Some? then Result(None, t, first) else Behind(first, TerminateUnprobed(env, t))
    case Yes =>
      if env.returnCode(t).Some? && !(identityGiven && env.identityMatches(t)) then Result(None, t, first)
      else Behind(first, TerminateGroup(env, t))
  }

  function Behind(acts: seq<Act>, r: Result): Result { r.(acts := acts + r.acts) }

  /** The branch for a group that ps could not describe but whose leader has not been reaped. */
  function TerminateUnprobed(env: Env, t: nat): Result {
    var rc := env.waitResult(t);
    var t1 := t + env.waitTime(t, TERM_TIMEOUT);
    var killed := rc.None? && env.returnCode(t1).None?;
    var rc1 := if killed then env.waitResult(t1) else rc;
    var t2 := if killed then t1 + env.waitTime(t1, KILL_TIMEOUT) else t1;
    var gone := GroupGone(env, t2, t2 + TERM_TIMEOUT);
    var acts := [Sent(Signal(Term, t)), Waited(t, TERM_TIMEOUT, rc)]
                + (if killed then [Sent(Signal(Kill, t1)), Waited(t1, KILL_TIMEOUT, rc1)] else [])
                + gone.acts;
    Result(if gone.answer != Some(true) then None else OrElse(env.returnCode(gone.end), rc1), gone.end, acts)
  }

  /** After SIGTERM at t: the first wait and the first polling phase. */
  function AfterTerm(env: Env, t: nat): (Option<int>, Gone) {
    var reaped := env.returnCode(t).Some?;
    var rc := if reaped then env.returnCode(t) else env.waitResult(t);
    var t1 := if reaped then t else t + env.waitTime(t, TERM_TIMEOUT);
    (rc, GroupGone(env, t1, t1 + TERM_TIMEOUT))
  }

  /** SIGTERM at t, and the wait or the code that was there. */
  function TermActs(env: Env, t: nat): seq<Act> {
    [Sent(Signal(Term, t)),
     if env.returnCode(t).Some? then Reaped(t, env.returnCode(t).value) else Waited(t, TERM_TIMEOUT, env.waitResult(t))]
  }

  function KillActs(env: Env, t: nat): seq<Act> {
    [Sent(Signal(Kill, t))] + if env.returnCode(t).Some? then [] else [Waited(t, KILL_TIMEOUT, env.waitResult(t))]
  }

  function TerminateGroup(env: Env, t: nat): Result {
    var (rc, gone) := AfterTerm(env, t);
    var acts := TermActs(env, t) + gone.acts;
    if gone.answer.None? then Result(None, gone.end, acts)
    else if gone.answer.value then Result(OrElse(env.returnCode(gone.end), rc), gone.end, acts)
    else
      var t2 := gone.end;
      var reaped := env.returnCode(t2).Some?;
      var rc1 := if reaped then rc else env.waitResult(t2);
      var t3 := if reaped then t2 else t2 + env.waitTime(t2, KILL_TIMEOUT);
      var gone1 := GroupGone(env, t3, t3 + KILL_TIMEOUT);
      Result(if gone1.answer != Some(true) then None else OrElse(env.returnCode(gone1.end), rc1), gone1.end,
             acts + KillActs(env, t2) + gone1.acts)
  }

  // ---------------------------------------------------------------------------------------------
  // The code: a clock that each call moves, and polling loops
  // ---------------------------------------------------------------------------------------------

  method PollGroupGone(env: Env, t: nat, timeout: nat) returns (answer: Option<bool>, end: nat, acts: seq<Act>)
    ensures Gone(answer, end, acts) == GroupGone(env, t, t + timeout)
  {
    hide GroupGone;
    var deadline := t + timeout;
    var now := t;
    acts := [];
    AfterActs([], GroupGone(env, t, deadline));
    while true
      invariant GroupGone(env, t, deadline) == After(acts, GroupGone(env, now, deadline))
      invariant now <= deadline + POLL
      decreases deadline + POLL - now
    {
      var seen := env.probe(now);
      GroupGoneStep(env, now, deadline, acts);
      acts := acts + [Probed(now, seen)];
      end := now + env.probeTime(now);
      if seen == No {
        return Some(true), end, acts;
      }
      if end >= deadline {
        return if seen == Unknown then None else Some(false), end, acts;
      }
      now := end + POLL;
    }
  }

  function After(acts: seq<Act>, g: Gone): Gone { g.(acts := acts + g.acts) }

  lemma AfterActs(acts: seq<Act>, g: Gone)
    ensures acts == [] ==> After(acts, g) == g
  {
  }

  /** One probe of the loop: it ends the polling or leaves the rest. */
  function Stepped(env: Env, t: nat, deadline: nat, acts: seq<Act>): Gone {
    var now := t + env.probeTime(t);
    if env.probe(t) == No then Gone(Some(true), now, acts)
    else if now >= deadline then Gone(if env.probe(t) == Unknown then None else Some(false), now, acts)
    else After(acts, GroupGone(env, now + POLL, deadline))
  }

  lemma GroupGoneStep(env: Env, t: nat, deadline: nat, acts: seq<Act>)
    ensures After(acts, GroupGone(env, t, deadline)) == Stepped(env, t, deadline, acts + [Probed(t, env.probe(t))])
  {
    var act, now := Probed(t, env.probe(t)), t + env.probeTime(t);
    if env.probe(t) != No && now < deadline {
      var later := GroupGone(env, now + POLL, deadline);
      assert acts + ([act] + later.acts) == acts + [act] + later.acts;
    }
  }

  method TerminateProcessTree(env: Env, start: nat, identityGiven: bool)
    returns (status: Option<int>, end: nat, acts: seq<Act>)
    ensures Result(status, end, acts) == Terminate(env, start, identityGiven)
  {
    hide GroupGone, TerminateGroup;
    var group := env.probe(start);
    var now := start + env.probeTime(start);
    acts := [Probed(start, group)];
    if group == No {
      return env.returnCode(now), now, acts;
    }
    if group == Unknown {
      if env.returnCode(now).Some? {
        return None, now, acts;
      }
      var more;
      status, end, more := SignalUnprobed(env, now);
      acts := acts + more;
      return;
    }
    if env.returnCode(now).Some? && (!identityGiven || !env.identityMatches(now)) {
      return None, now, acts;
    }
    var more;
    status, end, more := SignalGroup(env, now);
    acts := acts + more;
  }

  /** The plain ladder on a leader of our own that has not been reaped. */
  method SignalUnprobed(env: Env, start: nat) returns (status: Option<int>, end: nat, acts: seq<Act>)
    ensures Result(status, end, acts) == TerminateUnprobed(env, start)
  {
    hide GroupGone;
    var now := start;
    var rc := env.waitResult(now);
    acts := [Sent(Signal(Term, now)), Waited(now, TERM_TIMEOUT, rc)];
    now := now + env.waitTime(now, TERM_TIMEOUT);
    if rc.None? && env.returnCode(now).None? {
      rc := env.waitResult(now);
      acts := acts + [Sent(Signal(Kill, now)), Waited(now, KILL_TIMEOUT, rc)];
      now := now + env.waitTime(now, KILL_TIMEOUT);
    } else {
      assert acts + [] == acts;
    }
    var gone, polled, probes := PollGroupGone(env, now, TERM_TIMEOUT);
    acts := acts + probes;
    return if gone != Some(true) then None else OrElse(env.returnCode(polled), rc), polled, acts;
  }

  /** The rest of the ladder, for a group that was seen and may be signalled. */
  method SignalGroup(env: Env, start: nat) returns (status: Option<int>, end: nat, acts: seq<Act>)
    ensures Result(status, end, acts) == TerminateGroup(env, start)
  {
    hide GroupGone;
    var now := start;
    acts := [Sent(Signal(Term, now))];
    var rc := env.returnCode(now);
    if rc.None? {
      rc := env.waitResult(now);
      acts := acts + [Waited(now, TERM_TIMEOUT, rc)];
      now := now + env.waitTime(now, TERM_TIMEOUT);
    } else {
      acts := acts + [Reaped(now, rc.value)];
    }
    assert acts == TermActs(env, start);
    var gone, polled, probes := PollGroupGone(env, now, TERM_TIMEOUT);
    acts := acts + probes;
    if gone.None? {
      return None, polled, acts;
    }
    if !gone.value {
      now := polled;
      var kill := [Sent(Signal(Kill, now))];
      if env.returnCode(now).None? {
        rc := env.waitResult(now);
        kill := kill + [Waited(now, KILL_TIMEOUT, rc)];
        now := now + env.waitTime(now, KILL_TIMEOUT);
      } else {
        assert kill + [] == kill;
      }
      gone, polled, probes := PollGroupGone(env, now, KILL_TIMEOUT);
      acts := acts + kill + probes;
      if gone != Some(true) {
        return None, polled, acts;
      }
    }
    return OrElse(env.returnCode(polled), rc), polled, acts;
  }

  // ---------------------------------------------------------------------------------------------
  // A status means the group is gone
  // ---------------------------------------------------------------------------------------------

  lemma {:induction false} PolledGone(env: Env, t: nat, deadline: nat)
    requires Truthful(env) && GroupGone(env, t, deadline).answer == Some(true)
    ensures !env.groupAlive(GroupGone(env, t, deadline).end)
    decreases if t <= deadline then deadline - t + 1 else 0
  {
    var now := t + env.probeTime(t);
    if env.probe(t) != No {
      PolledGone(env, now + POLL, deadline);
    }
  }

  lemma StatusMeansGone(env: Env, start: nat, identityGiven: bool)
    requires Truthful(env)
    ensures var r := Terminate(env, start, identityGiven); r.status.Some? ==> !env.groupAlive(r.end)
  {
    hide Terminate;
    StatusIff(env, start, identityGiven);
    ActsAreTrue(env, start, identityGiven);
    var acts := Terminate(env, start, identityGiven).acts;
    assert acts[|acts| - 1] in acts;
  }

  lemma GroupStatusMeansGone(env: Env, t: nat)
    requires Truthful(env) && TerminateGroup(env, t).status.Some?
    ensures !env.groupAlive(TerminateGroup(env, t).end)
  {
    hide GroupGone;
    var t1 := if env.returnCode(t).Some? then t else t + env.waitTime(t, TERM_TIMEOUT);
    var gone := GroupGone(env, t1, t1 + TERM_TIMEOUT);
    if gone.answer == Some(true) {
      PolledGone(env, t1, t1 + TERM_TIMEOUT);
    } else {
      var t2 := gone.end;
      var t3 := if env.returnCode(t2).Some? then t2 else t2 + env.waitTime(t2, KILL_TIMEOUT);
      PolledGone(env, t3, t3 + KILL_TIMEOUT);
    }
  }

  // ---------------------------------------------------------------------------------------------
  // What is done, told on the answers of the host
  // ---------------------------------------------------------------------------------------------

  /** The times of the probes of one polling phase: until an answer no, or the first past the deadline. */
  ghost predicate Polls(env: Env, begun: nat, deadline: nat, times: seq<nat>) {
    && |times| > 0 && times[0] == begun
    && (forall i :: 0 <= i < |times| - 1 ==>
          && env.probe(times[i]) != No && times[i] + env.probeTime(times[i]) < deadline
          && times[i + 1] == times[i] + env.probeTime(times[i]) + POLL)
    && (env.probe(Last(times)) == No || Last(times) + env.probeTime(Last(times)) >= deadline)
  }

  function Last<T>(s: seq<T>): T
    requires |s| > 0
  {
    s[|s| - 1]
  }

  function Probes(env: Env, times: seq<nat>): seq<Act> {
    seq(|times|, i requires 0 <= i < |times| => Probed(times[i], env.probe(times[i])))
  }

  function PollAnswer(last: Answer): Option<bool> {
    match last
    case No => Some(true)
    case Yes => Some(false)
    case Unknown => None
  }

  /** Polling probes at those times, and its answer is that of the last probe. */
  lemma {:induction false} PollingIs(env: Env, begun: nat, deadline: nat) returns (times: seq<nat>)
    ensures Polls(env, begun, deadline, times)
    ensures var g := GroupGone(env, begun, deadline);
            && g.acts == Probes(env, times) && g.end == Last(times) + env.probeTime(Last(times))
            && g.answer == PollAnswer(env.probe(Last(times)))
    decreases if begun <= deadline then deadline - begun + 1 else 0
  {
    var now := begun + env.probeTime(begun);
    if env.probe(begun) == No || now >= deadline {
      times := [begun];
    } else {
      hide Polls, Probes;
      var later := PollingIs(env, now + POLL, deadline);
      times := [begun] + later;
      PollsCons(env, begun, deadline, later);
    }
  }

  lemma PollsCons(env: Env, begun: nat, deadline: nat, later: seq<nat>)
    requires env.probe(begun) != No && begun + env.probeTime(begun) < deadline
    requires Polls(env, begun + env.probeTime(begun) + POLL, deadline, later)
    ensures var times := [begun] + later;
            && Polls(env, begun, deadline, times) && Last(times) == Last(later)
            && Probes(env, times) == [Probed(begun, env.probe(begun))] + Probes(env, later)
  {
    var times := [begun] + later;
    forall i | 0 <= i < |times| - 1
      ensures env.probe(times[i]) != No && times[i] + env.probeTime(times[i]) < deadline
      ensures times[i + 1] == times[i] + env.probeTime(times[i]) + POLL
    {
      if i > 0 {
        assert times[i] == later[i - 1] && times[i + 1] == later[i - 1 + 1];
      }
    }
  }

  lemma {:induction false} OnePolling(env: Env, begun: nat, deadline: nat, a: seq<nat>, b: seq<nat>)
    requires Polls(env, begun, deadline, a) && Polls(env, begun, deadline, b)
    ensures a == b
    decreases |a|
  {
    if |a| == 1 || |b| == 1 {
      assert Last(a) == begun ==> |b| == 1;
      assert Last(b) == begun ==> |a| == 1;
    } else {
      var next := begun + env.probeTime(begun) + POLL;
      assert a[0 + 1] == next && b[0 + 1] == next;
      PollsTail(env, begun, deadline, a);
      PollsTail(env, begun, deadline, b);
      OnePolling(env, next, deadline, a[1..], b[1..]);
      assert a == [begun] + a[1..] && b == [begun] + b[1..];
    }
  }

  lemma PollsTail(env: Env, begun: nat, deadline: nat, times: seq<nat>)
    requires Polls(env, begun, deadline, times) && |times| > 1
    ensures Polls(env, times[1], deadline, times[1..])
  {
    var tail := times[1..];
    assert Last(tail) == Last(times);
    forall i | 0 <= i < |tail| - 1
      ensures env.probe(tail[i]) != No && tail[i] + env.probeTime(tail[i]) < deadline
      ensures tail[i + 1] == tail[i] + env.probeTime(tail[i]) + POLL
    {
      assert tail[i] == times[i + 1] && tail[i + 1] == times[i + 1 + 1];
    }
  }

  /**
   SIGTERM goes to a group whose leader has not been reaped, or, if ps described the group, whose leader
   still has the identity that was recorded.
   */
  predicate TermDue(env: Env, start: nat, identityGiven: bool) {
    var t := start + env.probeTime(start);
    && env.probe(start) != No
    && (env.returnCode(t).None? || (env.probe(start) == Yes && identityGiven && env.identityMatches(t)))
  }

  /** When polling begins after a SIGTERM at t to a group that was described. */
  function TermWaited(env: Env, t: nat): nat {
    if env.returnCode(t).Some? then t else t + env.waitTime(t, TERM_TIMEOUT)
  }

  /** Polling from one time to a deadline ends with the answer that the group is there, at this time. */
  ghost predicate StillThere(env: Env, begun: nat, deadline: nat, at: nat) {
    exists times: seq<nat> ::
      && Polls(env, begun, deadline, times)
      && env.probe(Last(times)) == Yes && at == Last(times) + env.probeTime(Last(times))
  }

  lemma StillThereIff(env: Env, begun: nat, deadline: nat, at: nat)
    ensures StillThere(env, begun, deadline, at)
       <==> GroupGone(env, begun, deadline).answer == Some(false) && at == GroupGone(env, begun, deadline).end
  {
    hide GroupGone, Polls, Probes;
    var times := PollingIs(env, begun, deadline);
    PollsSome(env, begun, deadline, times);
    forall other: seq<nat> | Polls(env, begun, deadline, other) ensures other == times {
      OnePolling(env, begun, deadline, times, other);
    }
  }

  lemma PollsSome(env: Env, begun: nat, deadline: nat, times: seq<nat>)
    requires Polls(env, begun, deadline, times)
    ensures |times| > 0
  {
  }

  /**
   SIGKILL follows at this time: for an undescribed group when the wait brought nothing and the leader has no
   code; for a described one at the end of a polling phase whose last answer is that it still exists.
   */
  ghost predicate KillDue(env: Env, start: nat, identityGiven: bool, at: nat) {
    var t := start + env.probeTime(start);
    && TermDue(env, start, identityGiven)
    && if env.probe(start) == Unknown then
         env.waitResult(t).None? && at == t + env.waitTime(t, TERM_TIMEOUT) && env.returnCode(at).None?
       else
         StillThere(env, TermWaited(env, t), TermWaited(env, t) + TERM_TIMEOUT, at)
  }

  lemma ProbesAreNoSignals(env: Env, times: seq<nat>)
    ensures forall s :: Sent(s) !in Probes(env, times)
  {
  }

  /** Exactly these signals are sent. */
  lemma SentIff(env: Env, start: nat, identityGiven: bool, s: Signal)
    ensures Sent(s) in Terminate(env, start, identityGiven).acts
       <==> || (s.kind == Term && TermDue(env, start, identityGiven) && s.at == start + env.probeTime(start))
            || (s.kind == Kill && KillDue(env, start, identityGiven, s.at))
  {
    hide GroupGone, TerminateGroup, TerminateUnprobed, StillThere;
    var t := start + env.probeTime(start);
    if TermDue(env, start, identityGiven) {
      if env.probe(start) == Unknown {
        UnprobedSends(env, t, s);
      } else {
        GroupSends(env, t, s);
      }
    }
  }

  lemma UnprobedSends(env: Env, t: nat, s: Signal)
    ensures Sent(s) in TerminateUnprobed(env, t).acts
       <==> || s == Signal(Term, t)
            || (s.kind == Kill && env.waitResult(t).None? && s.at == t + env.waitTime(t, TERM_TIMEOUT)
                && env.returnCode(s.at).None?)
  {
    hide GroupGone, Polls, Last, Probes;
    var t1 := t + env.waitTime(t, TERM_TIMEOUT);
    var killed := env.waitResult(t).None? && env.returnCode(t1).None?;
    var t2 := if killed then t1 + env.waitTime(t1, KILL_TIMEOUT) else t1;
    var times := PollingIs(env, t2, t2 + TERM_TIMEOUT);
    ProbesAreNoSignals(env, times);
  }

  lemma GroupSends(env: Env, t: nat, s: Signal)
    ensures Sent(s) in TerminateGroup(env, t).acts
       <==> || s == Signal(Term, t)
            || (s.kind == Kill && StillThere(env, TermWaited(env, t), TermWaited(env, t) + TERM_TIMEOUT, s.at))
  {
    hide GroupGone, Polls, Last, Probes, StillThere;
    var t1 := TermWaited(env, t);
    var times := PollingIs(env, t1, t1 + TERM_TIMEOUT);
    ProbesAreNoSignals(env, times);
    StillThereIff(env, t1, t1 + TERM_TIMEOUT, s.at);
    var t2 := AfterTerm(env, t).1.end;
    var t3 := if env.returnCode(t2).Some? then t2 else t2 + env.waitTime(t2, KILL_TIMEOUT);
    var more := PollingIs(env, t3, t3 + KILL_TIMEOUT);
    ProbesAreNoSignals(env, more);
  }

  /** The code known from the last wait, or found instead of the first. */
  function KnownFrom(acts: seq<Act>): Option<int> {
    if |acts| == 0 then None
    else
      match Last(acts)
      case Waited(_, _, result) => result
      case Reaped(_, code) => Some(code)
      case _ => KnownFrom(acts[..|acts| - 1])
  }

  lemma {:induction false} ProbesTellNoCode(env: Env, acts: seq<Act>, times: seq<nat>)
    ensures KnownFrom(acts + Probes(env, times)) == KnownFrom(acts)
    decreases |times|
  {
    if |times| == 0 {
      assert acts + Probes(env, times) == acts;
    } else {
      var n := |times| - 1;
      var whole := acts + Probes(env, times);
      assert whole[..|whole| - 1] == acts + Probes(env, times[..n]);
      ProbesTellNoCode(env, acts, times[..n]);
    }
  }

  /**
   The status: given exactly when the last thing seen of the group is that it is gone and a code is known; the
   return code at that time, or else what the last wait brought.
   */
  lemma StatusIff(env: Env, start: nat, identityGiven: bool)
    ensures var r := Terminate(env, start, identityGiven);
            && |r.acts| > 0 && Last(r.acts).Probed? && r.end == Last(r.acts).at + env.probeTime(Last(r.acts).at)
            && (r.status.Some? <==>
                  Last(r.acts).answer == No && (env.returnCode(r.end).Some? || KnownFrom(r.acts).Some?))
            && (r.status.Some? ==>
                  r.status == if env.returnCode(r.end).Some? then env.returnCode(r.end) else KnownFrom(r.acts))
  {
    hide GroupGone, TerminateGroup, TerminateUnprobed, KnownFrom;
    var t := start + env.probeTime(start);
    var first := [Probed(start, env.probe(start))];
    assert KnownFrom(first) == None by { FirstTellsNoCode(first[0]); }
    if TermDue(env, start, identityGiven) {
      if env.probe(start) == Unknown {
        UnprobedStatus(env, t, first);
      } else {
        GroupStatus(env, t, first);
      }
    }
  }

  lemma FirstTellsNoCode(a: Act)
    requires a.Probed?
    ensures KnownFrom([a]) == None
  {
    assert [a][..0] == [];
  }

  lemma EndsInProbes(env: Env, acts: seq<Act>, times: seq<nat>)
    requires |times| > 0
    ensures var all := acts + Probes(env, times);
            |all| > 0 && Last(all) == Probed(Last(times), env.probe(Last(times))) && KnownFrom(all) == KnownFrom(acts)
  {
    ProbesTellNoCode(env, acts, times);
  }

  lemma UnprobedStatus(env: Env, t: nat, first: seq<Act>)
    ensures var r := TerminateUnprobed(env, t);
            var acts := first + r.acts;
            && |acts| > 0 && Last(acts).Probed? && r.end == Last(acts).at + env.probeTime(Last(acts).at)
            && r.status == if Last(acts).answer == No then OrElse(env.returnCode(r.end), KnownFrom(acts)) else None
  {
    hide GroupGone, Polls, Probes;
    var t1 := t + env.waitTime(t, TERM_TIMEOUT);
    var killed := env.waitResult(t).None? && env.returnCode(t1).None?;
    var t2 := if killed then t1 + env.waitTime(t1, KILL_TIMEOUT) else t1;
    var times := PollingIs(env, t2, t2 + TERM_TIMEOUT);
    PollsSome(env, t2, t2 + TERM_TIMEOUT, times);
    var acts := [Sent(Signal(Term, t)), Waited(t, TERM_TIMEOUT, env.waitResult(t))]
                + if killed then [Sent(Signal(Kill, t1)), Waited(t1, KILL_TIMEOUT, env.waitResult(t1))] else [];
    assert first + TerminateUnprobed(env, t).acts == (first + acts) + Probes(env, times);
    EndsInProbes(env, first + acts, times);
    assert Last(first + acts) == Last(acts);
  }

  lemma GroupStatus(env: Env, t: nat, first: seq<Act>)
    ensures var r := TerminateGroup(env, t);
            var acts := first + r.acts;
            && |acts| > 0 && Last(acts).Probed? && r.end == Last(acts).at + env.probeTime(Last(acts).at)
            && r.status == if Last(acts).answer == No then OrElse(env.returnCode(r.end), KnownFrom(acts)) else None
  {
    hide GroupGone, Polls, Probes;
    var t1 := TermWaited(env, t);
    var times := PollingIs(env, t1, t1 + TERM_TIMEOUT);
    PollsSome(env, t1, t1 + TERM_TIMEOUT, times);
    var acts := first + TermActs(env, t);
    assert Last(acts) == TermActs(env, t)[1];
    EndsInProbes(env, acts, times);
    var (rc, gone) := AfterTerm(env, t);
    assert KnownFrom(acts) == rc;
    if gone.answer == Some(false) {
      KilledStatus(env, t, first, times);
    } else {
      assert first + TerminateGroup(env, t).acts == acts + Probes(env, times);
    }
  }

  lemma KilledStatus(env: Env, t: nat, first: seq<Act>, times: seq<nat>)
    requires var (rc, gone) := AfterTerm(env, t);
             && gone.answer == Some(false) && gone.acts == Probes(env, times)
             && KnownFrom(first + TermActs(env, t) + Probes(env, times)) == rc
    ensures var r := TerminateGroup(env, t);
            var acts := first + r.acts;
            && |acts| > 0 && Last(acts).Probed? && r.end == Last(acts).at + env.probeTime(Last(acts).at)
            && r.status == if Last(acts).answer == No then OrElse(env.returnCode(r.end), KnownFrom(acts)) else None
  {
    hide GroupGone, Polls, Probes, TermActs, KillActs, KnownFrom;
    var t2 := AfterTerm(env, t).1.end;
    var t3 := if env.returnCode(t2).Some? then t2 else t2 + env.waitTime(t2, KILL_TIMEOUT);
    var more := PollingIs(env, t3, t3 + KILL_TIMEOUT);
    PollsSome(env, t3, t3 + KILL_TIMEOUT, more);
    var before := first + TermActs(env, t) + Probes(env, times);
    KillTells(env, before, t2);
    EndsInProbes(env, before + KillActs(env, t2), more);
    assert first + TerminateGroup(env, t).acts == before + KillActs(env, t2) + Probes(env, more);
  }

  // ---------------------------------------------------------------------------------------------
  // The acts themselves
  // ---------------------------------------------------------------------------------------------

  predicate TrueAct(env: Env, a: Act) {
    match a
    case Probed(at, answer) => answer == env.probe(at)
    case Sent(_) => true
    case Waited(at, _, result) => result == env.waitResult(at)
    case Reaped(at, code) => env.returnCode(at) == Some(code)
  }

  ghost predicate AllTrue(env: Env, acts: seq<Act>) {
    forall a :: a in acts ==> TrueAct(env, a)
  }

  lemma ProbesAreTrue(env: Env, times: seq<nat>)
    ensures AllTrue(env, Probes(env, times))
  {
  }

  lemma AllTrueJoined(env: Env, a: seq<Act>, b: seq<Act>)
    requires AllTrue(env, a) && AllTrue(env, b)
    ensures AllTrue(env, a + b)
  {
    hide TrueAct;
  }

  /** What is recorded is what the host answered. */
  lemma ActsAreTrue(env: Env, start: nat, identityGiven: bool)
    ensures AllTrue(env, Terminate(env, start, identityGiven).acts)
  {
    hide GroupGone, Probes;
    var t := start + env.probeTime(start);
    var first := [Probed(start, env.probe(start))];
    if env.probe(start) == Unknown {
      UnprobedIsTrue(env, t);
      AllTrueJoined(env, first, TerminateUnprobed(env, t).acts);
    } else {
      GroupIsTrue(env, t);
      AllTrueJoined(env, first, TerminateGroup(env, t).acts);
    }
  }

  lemma UnprobedIsTrue(env: Env, t: nat)
    ensures AllTrue(env, TerminateUnprobed(env, t).acts)
  {
    hide GroupGone, Probes, Polls;
    var t1 := t + env.waitTime(t, TERM_TIMEOUT);
    var killed := env.waitResult(t).None? && env.returnCode(t1).None?;
    var t2 := if killed then t1 + env.waitTime(t1, KILL_TIMEOUT) else t1;
    var times := PollingIs(env, t2, t2 + TERM_TIMEOUT);
    ProbesAreTrue(env, times);
    var acts := [Sent(Signal(Term, t)), Waited(t, TERM_TIMEOUT, env.waitResult(t))]
                + if killed then [Sent(Signal(Kill, t1)), Waited(t1, KILL_TIMEOUT, env.waitResult(t1))] else [];
    AllTrueJoined(env, acts, Probes(env, times));
  }

  lemma GroupIsTrue(env: Env, t: nat)
    ensures AllTrue(env, TerminateGroup(env, t).acts)
  {
    hide GroupGone, Probes, Polls, AllTrue, TermActs, KillActs;
    var t1 := TermWaited(env, t);
    var times := PollingIs(env, t1, t1 + TERM_TIMEOUT);
    ProbesAreTrue(env, times);
    SignalsAreTrue(env, t);
    AllTrueJoined(env, TermActs(env, t), Probes(env, times));
    var gone := AfterTerm(env, t).1;
    if gone.answer == Some(false) {
      var t2 := gone.end;
      var t3 := if env.returnCode(t2).Some? then t2 else t2 + env.waitTime(t2, KILL_TIMEOUT);
      var more := PollingIs(env, t3, t3 + KILL_TIMEOUT);
      ProbesAreTrue(env, more);
      SignalsAreTrue(env, t2);
      AllTrueJoined(env, TermActs(env, t) + Probes(env, times), KillActs(env, t2));
      AllTrueJoined(env, TermActs(env, t) + Probes(env, times) + KillActs(env, t2), Probes(env, more));
    }
  }

  lemma SignalsAreTrue(env: Env, t: nat)
    ensures AllTrue(env, TermActs(env, t)) && AllTrue(env, KillActs(env, t))
  {
  }

  /** When an act is over. */
  function Over(env: Env, a: Act): nat {
    match a
    case Probed(at, _) => at + env.probeTime(at)
    case Sent(s) => s.at
    case Waited(at, limit, _) => at + env.waitTime(at, limit)
    case Reaped(at, _) => at
  }

  /**
   From act k on there is one polling phase, begun when the act before it was over: two seconds long after
   SIGTERM and on an undescribed group, five after SIGKILL.
   */
  ghost predicate EndsPolling(env: Env, acts: seq<Act>, k: nat, timeout: nat) {
    && 0 < k < |acts|
    && exists times: seq<nat> ::
         Polls(env, Over(env, acts[k - 1]), Over(env, acts[k - 1]) + timeout, times) && acts[k..] == Probes(env, times)
  }

  ghost predicate HasKill(acts: seq<Act>) {
    exists a :: a in acts && a.Sent? && a.signal.kind == Kill
  }

  ghost function LastTimeout(env: Env, start: nat, acts: seq<Act>): nat {
    if env.probe(start) == Yes && HasKill(acts) then 5000 else 2000
  }

  /** Past the first probe the ladder always ends with polling, however it began. */
  lemma EndsWithPolling(env: Env, start: nat, identityGiven: bool)
    requires TermDue(env, start, identityGiven)
    ensures var acts := Terminate(env, start, identityGiven).acts;
            exists k: nat :: EndsPolling(env, acts, k, LastTimeout(env, start, acts))
  {
    hide GroupGone, TerminateGroup, TerminateUnprobed, EndsPolling, HasKill;
    var t := start + env.probeTime(start);
    var first := [Probed(start, env.probe(start))];
    var acts := Terminate(env, start, identityGiven).acts;
    var k;
    if env.probe(start) == Unknown {
      k := UnprobedPolls(env, t, first);
    } else {
      k := GroupPolls(env, t, first);
    }
    assert EndsPolling(env, acts, k, LastTimeout(env, start, acts));
  }

  lemma PollingBehind(env: Env, acts: seq<Act>, times: seq<nat>, timeout: nat)
    requires |acts| > 0 && Polls(env, Over(env, Last(acts)), Over(env, Last(acts)) + timeout, times)
    ensures EndsPolling(env, acts + Probes(env, times), |acts|, timeout)
  {
    hide Polls, Over;
    PollsSome(env, Over(env, Last(acts)), Over(env, Last(acts)) + timeout, times);
    var all := acts + Probes(env, times);
    assert all[|acts|..] == Probes(env, times) && all[|acts| - 1] == Last(acts);
  }

  lemma UnprobedPolls(env: Env, t: nat, first: seq<Act>) returns (k: nat)
    ensures EndsPolling(env, first + TerminateUnprobed(env, t).acts, k, TERM_TIMEOUT)
  {
    hide GroupGone, Polls, Probes, EndsPolling;
    var t1 := t + env.waitTime(t, TERM_TIMEOUT);
    var killed := env.waitResult(t).None? && env.returnCode(t1).None?;
    var t2 := if killed then t1 + env.waitTime(t1, KILL_TIMEOUT) else t1;
    var times := PollingIs(env, t2, t2 + TERM_TIMEOUT);
    var acts := first + ([Sent(Signal(Term, t)), Waited(t, TERM_TIMEOUT, env.waitResult(t))]
                + if killed then [Sent(Signal(Kill, t1)), Waited(t1, KILL_TIMEOUT, env.waitResult(t1))] else []);
    assert first + TerminateUnprobed(env, t).acts == acts + Probes(env, times);
    PollingBehind(env, acts, times, TERM_TIMEOUT);
    k := |acts|;
  }

  lemma GroupPolls(env: Env, t: nat, first: seq<Act>) returns (k: nat)
    requires |first| == 1 && first[0].Probed?
    ensures var acts := first + TerminateGroup(env, t).acts;
            EndsPolling(env, acts, k, if HasKill(acts) then KILL_TIMEOUT else TERM_TIMEOUT)
  {
    hide GroupGone, Polls, Probes, EndsPolling;
    var t1 := TermWaited(env, t);
    var times := PollingIs(env, t1, t1 + TERM_TIMEOUT);
    ProbesAreNoSignals(env, times);
    var acts := first + TermActs(env, t);
    assert Last(acts) == TermActs(env, t)[1];
    var gone := AfterTerm(env, t).1;
    if gone.answer == Some(false) {
      var t2 := gone.end;
      var t3 := if env.returnCode(t2).Some? then t2 else t2 + env.waitTime(t2, KILL_TIMEOUT);
      var more := PollingIs(env, t3, t3 + KILL_TIMEOUT);
      var before := acts + Probes(env, times) + KillActs(env, t2);
      assert Last(before) == Last(KillActs(env, t2));
      assert first + TerminateGroup(env, t).acts == before + Probes(env, more);
      assert KillActs(env, t2)[0] in before;
      PollingBehind(env, before, more, KILL_TIMEOUT);
      k := |before|;
    } else {
      assert first + TerminateGroup(env, t).acts == acts + Probes(env, times);
      PollingBehind(env, acts, times, TERM_TIMEOUT);
      k := |acts|;
    }
  }

  /** A signal is followed by a wait of its own length, unless the leader has been reaped by then. */
  ghost predicate WaitsAfter(env: Env, acts: seq<Act>, i: nat) {
    i < |acts| && acts[i].Sent? ==>
      && i + 1 < |acts|
      && var s := acts[i].signal;
         env.returnCode(s.at).None? ==>
           acts[i + 1] == Waited(s.at, if s.kind == Term then 2000 else 5000, env.waitResult(s.at))
  }

  lemma EverySignalIsWaitedFor(env: Env, start: nat, identityGiven: bool, i: nat)
    ensures WaitsAfter(env, Terminate(env, start, identityGiven).acts, i)
  {
    hide GroupGone, TerminateGroup, TerminateUnprobed, WaitsAfter;
    var t := start + env.probeTime(start);
    var first := [Probed(start, env.probe(start))];
    assert WaitsAfter(env, first, i) by { NoSignalYet(env, first, i); }
    if TermDue(env, start, identityGiven) {
      if env.probe(start) == Unknown {
        UnprobedWaits(env, t, first, i);
      } else {
        GroupWaits(env, t, first, i);
      }
    }
  }

  lemma NoSignalYet(env: Env, first: seq<Act>, i: nat)
    requires |first| == 1 && first[0].Probed?
    ensures WaitsAfter(env, first, i)
  {
  }

  lemma UnprobedWaits(env: Env, t: nat, first: seq<Act>, i: nat)
    requires |first| == 1 && first[0].Probed? && env.returnCode(t).None?
    ensures WaitsAfter(env, first + TerminateUnprobed(env, t).acts, i)
  {
    hide GroupGone, Polls;
    var t1 := t + env.waitTime(t, TERM_TIMEOUT);
    var killed := env.waitResult(t).None? && env.returnCode(t1).None?;
    var t2 := if killed then t1 + env.waitTime(t1, KILL_TIMEOUT) else t1;
    var times := PollingIs(env, t2, t2 + TERM_TIMEOUT);
  }

  lemma GroupWaits(env: Env, t: nat, first: seq<Act>, i: nat)
    requires |first| == 1 && first[0].Probed?
    ensures WaitsAfter(env, first + TerminateGroup(env, t).acts, i)
  {
    hide GroupGone, Polls;
    var t1 := TermWaited(env, t);
    var times := PollingIs(env, t1, t1 + TERM_TIMEOUT);
    PollsSome(env, t1, t1 + TERM_TIMEOUT, times);
    var gone := AfterTerm(env, t).1;
    if gone.answer == Some(false) {
      var t2 := gone.end;
      var t3 := if env.returnCode(t2).Some? then t2 else t2 + env.waitTime(t2, KILL_TIMEOUT);
      var more := PollingIs(env, t3, t3 + KILL_TIMEOUT);
      PollsSome(env, t3, t3 + KILL_TIMEOUT, more);
    }
  }

  lemma KillTells(env: Env, acts: seq<Act>, t: nat)
    ensures KnownFrom(acts + KillActs(env, t))
         == if env.returnCode(t).Some? then KnownFrom(acts) else env.waitResult(t)
  {
    var all := acts + KillActs(env, t);
    if env.returnCode(t).Some? {
      assert all[..|all| - 1] == acts;
    }
  }

  // ---------------------------------------------------------------------------------------------
  // Which signals can reach a stranger
  // ---------------------------------------------------------------------------------------------

  /** When the signal is sent the leader is unreaped, or its recorded identity is still there. */
  predicate SafeSignal(env: Env, identityGiven: bool, s: Signal) {
    env.returnCode(s.at).None? || (identityGiven && env.identityMatches(s.at))
  }

  /** SIGTERM is always safe, and so is the SIGKILL for a group that ps could not describe. */
  lemma OtherSignalsSafe(env: Env, start: nat, identityGiven: bool, s: Signal)
    requires Sent(s) in Terminate(env, start, identityGiven).acts && (s.kind == Term || env.probe(start) != Yes)
    ensures SafeSignal(env, identityGiven, s)
  {
    hide Terminate;
    SentIff(env, start, identityGiven, s);
  }

  /**
   Every signal is safe exactly when an escalation to SIGKILL, if there is one, does not meet a leader that was
   reaped in the meantime and whose identity is missing or changed: SIGKILL is sent without asking again.
   */
  lemma AllSignalsSafeIff(env: Env, start: nat, identityGiven: bool)
    ensures (forall s :: Sent(s) in Terminate(env, start, identityGiven).acts ==> SafeSignal(env, identityGiven, s))
       <==> !(exists at: nat ::
                && env.probe(start) == Yes && KillDue(env, start, identityGiven, at)
                && env.returnCode(at).Some? && !(identityGiven && env.identityMatches(at)))
  {
    hide Terminate, KillDue, TermDue;
    forall s | Sent(s) in Terminate(env, start, identityGiven).acts
      ensures s.kind == Term || env.probe(start) != Yes ==> SafeSignal(env, identityGiven, s)
    {
      if s.kind == Term || env.probe(start) != Yes {
        OtherSignalsSafe(env, start, identityGiven, s);
      }
    }
    forall s: Signal ensures s.kind == Kill ==>
      (Sent(s) in Terminate(env, start, identityGiven).acts <==> KillDue(env, start, identityGiven, s.at))
    {
      SentIff(env, start, identityGiven, s);
    }
    if at: nat :| && env.probe(start) == Yes && KillDue(env, start, identityGiven, at)
                  && env.returnCode(at).Some? && !(identityGiven && env.identityMatches(at)) {
      assert Sent(Signal(Kill, at)) in Terminate(env, start, identityGiven).acts;
    }
  }

  /** It does happen: a leader that exits on SIGTERM while another group member lives on. */
  lemma UnsafeKillExists()
    ensures exists env: Env, s: Signal ::
              Truthful(env) && Prompt(env) && Sent(s) in Terminate(env, 0, false).acts && !SafeSignal(env, false, s)
  {
    hide Terminate;
    var slow := Env((t: nat) => Yes, (t: nat) => 1000, (t: nat) => false,
                    (t: nat) => if t < 1500 then None else Some(0),
                    (t: nat) => Some(0), (t: nat, limit: nat) => if limit < 500 then limit else 500, (t: nat) => true);
    var times: seq<nat> := [1500, 2550];
    assert TermWaited(slow, 1000) == 1500;
    assert Polls(slow, 1500, 3500, times) && Last(times) == 2550;
    assert KillDue(slow, 0, false, 3550);
    SentIff(slow, 0, false, Signal(Kill, 3550));
    assert Truthful(slow) && Prompt(slow);
  }

  // ---------------------------------------------------------------------------------------------
  // The ladder always ends in bounded time
  // ---------------------------------------------------------------------------------------------

  lemma {:induction false} PollingBounded(env: Env, t: nat, deadline: nat)
    requires Prompt(env) && t <= deadline + POLL
    ensures GroupGone(env, t, deadline).end <= deadline + POLL + PROBE_LIMIT
    decreases if t <= deadline then deadline - t + 1 else 0
  {
    var now := t + env.probeTime(t);
    if env.probe(t) != No && now < deadline {
      PollingBounded(env, now + POLL, deadline);
    }
  }

  const LONGEST: nat := 2 * (TERM_TIMEOUT + KILL_TIMEOUT) + 4 * POLL + 3 * PROBE_LIMIT

  lemma TerminationBounded(env: Env, start: nat, identityGiven: bool)
    requires Prompt(env)
    ensures start <= Terminate(env, start, identityGiven).end <= start + LONGEST
  {
    hide GroupGone, TerminateGroup;
    var t := start + env.probeTime(start);
    GroupBounded(env, t);
    var t1 := t + env.waitTime(t, TERM_TIMEOUT);
    var killed := env.waitResult(t).None? && env.returnCode(t1).None?;
    var t2 := if killed then t1 + env.waitTime(t1, KILL_TIMEOUT) else t1;
    PollingBounded(env, t2, t2 + TERM_TIMEOUT);
  }

  lemma GroupBounded(env: Env, t: nat)
    requires Prompt(env)
    ensures t <= TerminateGroup(env, t).end <= t + LONGEST - PROBE_LIMIT
  {
    hide GroupGone;
    var t1 := if env.returnCode(t).Some? then t else t + env.waitTime(t, TERM_TIMEOUT);
    PollingBounded(env, t1, t1 + TERM_TIMEOUT);
    var t2 := GroupGone(env, t1, t1 + TERM_TIMEOUT).end;
    var t3 := if env.returnCode(t2).Some? then t2 else t2 + env.waitTime(t2, KILL_TIMEOUT);
    PollingBounded(env, t3, t3 + KILL_TIMEOUT);
  }
}
