/**
 One codex app-server connection (src/symphony/backends/codex.py): a caller
 running turns and the stdout reader settling its futures, in any
 interleaving. A turn's completion waiter is armed before turn/start is sent.
 */
module Codex {
  import opened Prelude

  datatype Status = NoStatus | InProgress | Completed | Interrupted | Failed | Unknown

  /**
   The `turn` object of a payload: the turn's id, if it says so, and its status.
   An empty or missing object has neither.
   */
  datatype Turn = NoTurn | Turn(id: Option<nat>, status: Status)

  /** A reply to turn/start: its turn object and the status beside it, or an error. */
  datatype Reply = Reply(turn: Turn, beside: Status) | Refused

  /**
   Answer: any message whose id is pending, whatever else it carries.
   Poison: JSON that makes the handling raise.
   */
  datatype Line =
    | Blank
    | Malformed
    | Answer(id: nat, reply: Reply)
    | TurnCompleted(turn: Turn)
    | OtherMessage
    | Poison

  datatype Future<T> = Waiting | Value(value: T) | Broken

  /**
   Reading with a streak of malformed lines; ended by itself; or cut short by
   an exception or a cancellation, which settles nothing.
   */
  datatype Reader = Reading(streak: nat) | Ended | Killed

  datatype Outcome = Success | Cancelled | Failure | TimedOut

  /** How sending turn/start ends: written and drained, on a closed pipe, or by another exception. */
  datatype Drain = Written | PipeClosed | Raised

  /** Writing: the request is registered, its bytes are being written and drained. */
  datatype Phase =
    | Idle
    | Writing(id: nat)
    | Requesting(id: nat)
    | AwaitingCompletion(started: Turn)
    | Returned(outcome: Outcome)

  /** response: the future of the latest turn/start; pending: it is in the table of requests. */
  datatype State = State(
    phase: Phase, nextId: nat, pending: bool, response: Future<Reply>,
    waiter: Option<Future<Turn>>, reader: Reader, closed: bool)

  datatype Event =
    | BeginTurn
    | Drained(drain: Drain)
    | Read(line: Line)
    | Eof
    | KillReader
    | Wake
    | Expire
    | Collect

  const LIMIT := 10

  /** `turn.status or result.status` */
  function Effective(r: Reply): Status
    requires r.Reply?
  {
    if StatusOf(r.turn) != NoStatus then StatusOf(r.turn) else r.beside
  }

  function StatusOf(t: Turn): Status {
    if t.Turn? then t.status else NoStatus
  }

  /** _raise_for_terminal_status */
  function Judge(t: Turn): Outcome { Verdict(StatusOf(t)) }

  function Verdict(status: Status): Outcome {
    match status
    case NoStatus => Success
    case Completed => Success
    case Interrupted => Cancelled
    case _ => Failure
  }

  /** The reader's last act: everything pending and the waiter fail. */
  function Close(s: State, corrupt: bool): State {
    s.(reader := Ended, closed := s.closed || corrupt, pending := false,
       response := if s.pending && s.response == Waiting then Broken else s.response,
       waiter := if s.waiter == Some(Waiting) then Some(Broken) else s.waiter)
  }

  /** The request with this id is the one in progress, sent or being sent. */
  predicate Expects(phase: Phase, id: nat) { phase == Writing(id) || phase == Requesting(id) }

  function ReadLine(s: State, line: Line): State
    requires s.reader.Reading?
  {
    var decoded := s.(reader := Reading(0));
    match line
    case Blank => s
    case Malformed =>
      if s.reader.streak + 1 >= LIMIT then Close(s, true) else s.(reader := Reading(s.reader.streak + 1))
    case Answer(id, reply) =>
      if s.pending && Expects(s.phase, id) then
        decoded.(pending := false, response := if s.response == Waiting then Value(reply) else s.response)
      else decoded
    case TurnCompleted(turn) =>
      if s.waiter == Some(Waiting) then decoded.(waiter := Some(Value(turn))) else decoded
    case OtherMessage => decoded
    case Poison => s.(reader := Killed)
  }

  /** The caller goes on once what it waits for is settled. */
  function WakeUp(s: State): State {
    match s.phase
    case Requesting(_) =>
      (match s.response
       case Waiting => s
       case Broken => s.(phase := Returned(Failure))
       case Value(r) =>
         if r.Refused? then s.(phase := Returned(Failure))
         else if Effective(r) == InProgress then s.(phase := AwaitingCompletion(r.turn))
         else s.(phase := Returned(Judge(r.turn))))
    case AwaitingCompletion(started) =>
      (match s.waiter
       case Some(Value(t)) => s.(phase := Returned(Judge(if t.Turn? then t else started)))
       case Some(Broken) => s.(phase := Returned(Failure))
       case _ => s)
    case _ => s
  }

  function Step(s: State, e: Event): State {
    match e
    case BeginTurn =>
      if !s.phase.Idle? then s
      else
        var armed := s.(waiter := Some(Waiting));
        if s.closed then armed.(phase := Returned(Failure))
        else armed.(phase := Writing(s.nextId), nextId := s.nextId + 1, pending := true, response := Waiting)
    case Drained(drain) =>
      if !s.phase.Writing? then s
      else
        (match drain
         case Written => s.(phase := Requesting(s.phase.id))
         case PipeClosed => s.(phase := Returned(Failure), pending := false)
         case Raised => s.(phase := Returned(Failure)))
    case Read(line) => if s.reader.Reading? then ReadLine(s, line) else s
    case Eof => if s.reader.Reading? then Close(s, false) else s
    case KillReader => if s.reader.Reading? then s.(reader := Killed) else s
    case Wake => WakeUp(s)
    case Expire =>
      if (s.phase.Requesting? && s.response == Waiting) || (s.phase.AwaitingCompletion? && s.waiter == Some(Waiting))
      then s.(phase := Returned(TimedOut), pending := false)
      else s
    case Collect => if s.phase.Returned? then s.(phase := Idle, waiter := None) else s
  }

  function Run(s: State, events: seq<Event>): State {
    if |events| == 0 then s else Step(Run(s, events[..|events| - 1]), events[|events| - 1])
  }

  // ---------------------------------------------------------------------
  // The backend: one method per section of code between two awaits
  // ---------------------------------------------------------------------

  class CodexBackend {
    var phase: Phase
    var nextId: nat
    var pending: bool
    var response: Future<Reply>
    var waiter: Option<Future<Turn>>
    var reader: Reader
    var closed: bool

    ghost function View(): State
      reads this
    {
      State(phase, nextId, pending, response, waiter, reader, closed)
    }

    constructor ()
      ensures View() == State(Idle, 1, false, Waiting, None, Reading(0), false)
    {
      phase, nextId, pending, response, waiter := Idle, 1, false, Waiting, None;
      reader, closed := Reading(0), false;
    }

    method ArmCompletionWaiter()
      modifies `waiter
      ensures waiter == Some(Waiting)
    {
      waiter := Some(Waiting);
    }

    /** run_turn up to its first await: arm, register, start writing. */
    method EnterRunTurn()
      requires phase.Idle?
      modifies this
      ensures View() == Step(old(View()), BeginTurn)
    {
      ArmCompletionWaiter();
      if closed {
        phase := Returned(Failure);
        return;
      }
      var msgId := nextId;
      nextId := nextId + 1;
      response, pending := Waiting, true;
      phase := Writing(msgId);
    }

    /** The write is over; only a closed pipe takes the request back. */
    method WriteReturned(drain: Drain)
      requires phase.Writing?
      modifies this
      ensures View() == Step(old(View()), Drained(drain))
    {
      if drain == PipeClosed {
        pending := false;
      }
      phase := if drain == Written then Requesting(phase.id) else Returned(Failure);
    }

    /** One line of the reader's loop. */
    method HandleLine(line: Line)
      requires reader.Reading?
      modifies this
      ensures View() == Step(old(View()), Read(line))
    {
      match line {
        case Blank =>
        case Malformed =>
          reader := Reading(reader.streak + 1);
          if reader.streak >= LIMIT {
            FailEverything(true);
          }
        case Answer(id, reply) =>
          reader := Reading(0);
          if pending && Expects(phase, id) {
            pending := false;
            if response == Waiting {
              response := Value(reply);
            }
          }
        case TurnCompleted(turn) =>
          reader := Reading(0);
          if waiter == Some(Waiting) {
            waiter := Some(Value(turn));
          }
        case OtherMessage =>
          reader := Reading(0);
        case Poison =>
          reader := Killed;
      }
    }

    /** What follows the reader's loop. */
    method FailEverything(corrupt: bool)
      modifies this
      ensures View() == Close(old(View()), corrupt)
    {
      if corrupt {
        closed := true;
      }
      if pending && response == Waiting {
        response := Broken;
      }
      pending := false;
      if waiter == Some(Waiting) {
        waiter := Some(Broken);
      }
      reader := Ended;
    }

    /** _send_turn_and_resolve and _raise_for_terminal_status after an await. */
    method Resume()
      modifies this
      ensures View() == Step(old(View()), Wake)
    {
      if phase.Requesting? {
        if response.Broken? {
          phase := Returned(Failure);
        } else if response.Value? {
          var r := response.value;
          if r.Refused? {
            phase := Returned(Failure);
          } else if Effective(r) == InProgress {
            phase := AwaitingCompletion(r.turn);
          } else {
            phase := Returned(Judge(r.turn));
          }
        }
      } else if phase.AwaitingCompletion? && waiter.Some? {
        var done := waiter.value;
        if done.Broken? {
          phase := Returned(Failure);
        } else if done.Value? {
          phase := Returned(Judge(if done.value.Turn? then done.value else phase.started));
        }
      }
    }

    method GiveUp()
      modifies this
      ensures View() == Step(old(View()), Expire)
    {
      if (phase.Requesting? && response == Waiting) || (phase.AwaitingCompletion? && waiter == Some(Waiting)) {
        phase := Returned(TimedOut);
        pending := false;
      }
    }

    method LeaveRunTurn() returns (outcome: Outcome)
      requires phase.Returned?
      modifies this
      ensures View() == Step(old(View()), Collect)
      ensures outcome == old(phase).outcome
    {
      outcome := phase.outcome;
      waiter := None;
      phase := Idle;
    }
  }

  // ---------------------------------------------------------------------
  // No lost wakeup
  // ---------------------------------------------------------------------

  /** What an event settles a waiting waiter with: turn/completed, or the reader's own end. */
  function Settles(s: State, e: Event): Future<Turn> {
    if !s.reader.Reading? then Waiting
    else
      match e
      case Read(TurnCompleted(turn)) => Value(turn)
      case Read(Malformed) => if s.reader.streak + 1 >= LIMIT then Broken else Waiting
      case Eof => Broken
      case _ => Waiting
  }

  /** Told from the events alone, the first of them that settles the waiter. */
  ghost function Settled(s: State, events: seq<Event>): Future<Turn> {
    if |events| == 0 then Waiting
    else
      var n := |events| - 1;
      var earlier := Settled(s, events[..n]);
      if earlier != Waiting then earlier else Settles(Run(s, events[..n]), events[n])
  }

  predicate InTurn(s: State) { !s.phase.Idle? }

  /** The turn begun by the first event is still the one in progress. */
  ghost predicate SameTurn(s: State, events: seq<Event>) {
    forall k :: 0 <= k <= |events| ==> InTurn(Run(s, events[..k]))
  }

  /**
   From the moment it is armed, before the request is sent, the waiter holds
   exactly that, however the write, reads, replies and wake-ups interleave.
   */
  lemma {:induction false} WaiterIsSettled(s: State, events: seq<Event>)
    requires s.phase.Idle?
    requires SameTurn(Step(s, BeginTurn), events)
    ensures var armed := Step(s, BeginTurn);
            Run(armed, events).waiter == Some(Settled(armed, events))
  {
    hide Step;
    var armed := Step(s, BeginTurn);
    assert armed.waiter == Some(Waiting) by { Armed(s); }
    if |events| > 0 {
      var n := |events| - 1;
      forall k | 0 <= k <= n ensures InTurn(Run(armed, events[..n][..k])) {
        assert events[..n][..k] == events[..k];
      }
      WaiterIsSettled(s, events[..n]);
      assert events[..n + 1] == events;
      assert InTurn(Run(armed, events[..n + 1]));
      WaiterStep(armed, events);
    }
  }

  lemma Armed(s: State)
    requires s.phase.Idle?
    ensures Step(s, BeginTurn).waiter == Some(Waiting)
  {
  }

  lemma WaiterStep(s: State, events: seq<Event>)
    requires |events| > 0
    requires Run(s, events[..|events| - 1]).waiter == Some(Settled(s, events[..|events| - 1]))
    requires InTurn(Run(s, events)) && InTurn(Run(s, events[..|events| - 1]))
    ensures Run(s, events).waiter == Some(Settled(s, events))
  {
    hide Step, Settles;
    StepSettles(Run(s, events[..|events| - 1]), events[|events| - 1]);
  }

  lemma StepSettles(s: State, e: Event)
    requires s.waiter.Some? && InTurn(s) && InTurn(Step(s, e))
    ensures Step(s, e).waiter == if s.waiter.value != Waiting then s.waiter else Some(Settles(s, e))
  {
    hide Effective, Judge;
    if e.Wake? {
      WakeKeepsWaiter(s);
    }
  }

  lemma WakeKeepsWaiter(s: State)
    ensures WakeUp(s).waiter == s.waiter
  {
    hide Effective, Judge;
  }

  /**
   So a caller that waits for completion can go on as soon as the reader has
   read turn/completed or has ended, before or after the inProgress reply.
   */
  lemma NoLostWakeup(s: State, events: seq<Event>)
    requires s.phase.Idle? && SameTurn(Step(s, BeginTurn), events)
    requires Run(Step(s, BeginTurn), events).phase.AwaitingCompletion?
    ensures var armed := Step(s, BeginTurn);
            var now := Run(armed, events);
            && (Step(now, Wake).phase.Returned? <==> Settled(armed, events) != Waiting)
            && (Settled(armed, events) == Broken ==> Step(now, Wake).phase == Returned(Failure))
            && (Settled(armed, events).Value? && Settled(armed, events).value.Turn? ==>
                  Step(now, Wake).phase == Returned(Judge(Settled(armed, events).value)))
  {
    hide Run, Settled;
    WaiterIsSettled(s, events);
  }

  /**
   Waiting on with nothing to come: only when the reader was killed, or was not
   reading when the turn began, or is still reading.
   */
  lemma {:induction false} StillWaitingMeansReadingOrKilled(s: State, events: seq<Event>)
    requires s.phase.Idle? && s.reader.Reading? && Settled(Step(s, BeginTurn), events) == Waiting
    ensures var now := Run(Step(s, BeginTurn), events); now.reader.Reading? || now.reader.Killed?
  {
    if |events| > 0 {
      StillWaitingMeansReadingOrKilled(s, events[..|events| - 1]);
    }
  }

  // ---------------------------------------------------------------------
  // The reply
  // ---------------------------------------------------------------------

  /** The reader's end also breaks the request in progress. */
  lemma EndBreaksRequest(s: State, e: Event)
    requires s.reader.Reading? && Step(s, e).reader.Ended?
    ensures var now := Step(s, e);
            && now.waiter != Some(Waiting) && !now.pending
            && (s.pending && s.response == Waiting ==> now.response == Broken)
            && (s.phase.Requesting? && s.pending && s.response == Waiting ==>
                  Step(now, Wake).phase == Returned(Failure))
            && (s.phase.Writing? && s.pending && s.response == Waiting ==>
                  forall drain :: Step(Step(now, Drained(drain)), Wake).phase == Returned(Failure))
  {
  }

  predicate ByReader(e: Event) { e.Read? || e.Eof? || e.KillReader? }

  /**
   Nothing the reader does while the request is being written is lost or done
   twice: it has the effect it would have had after the write.
   */
  lemma ReadingDuringWrite(s: State, e: Event)
    requires s.phase.Writing? && ByReader(e)
    ensures Step(Step(s, e), Drained(Written)) == Step(Step(s, Drained(Written)), e)
  {
    hide Effective, Judge;
  }

  /** And whatever the reader did, a write that does not come to its end ends the turn in failure. */
  lemma {:induction false} FailedWriteFailsTurn(s: State, events: seq<Event>, drain: Drain)
    requires s.phase.Writing? && drain != Written
    requires forall i :: 0 <= i < |events| ==> !events[i].Drained?
    ensures Run(s, events).phase == s.phase
    ensures Step(Run(s, events), Drained(drain)).phase == Returned(Failure)
    ensures Step(Run(s, events), Drained(drain)).pending <==> drain == Raised && Run(s, events).pending
  {
    if |events| > 0 {
      FailedWriteFailsTurn(s, events[..|events| - 1], drain);
    }
  }

  ghost function MalformedIn(lines: seq<Line>): nat {
    if |lines| == 0 then 0
    else MalformedIn(lines[..|lines| - 1]) + if lines[|lines| - 1] == Malformed then 1 else 0
  }

  function Reads(lines: seq<Line>): seq<Event> {
    seq(|lines|, i requires 0 <= i < |lines| => Read(lines[i]))
  }

  /**
   Ten malformed lines in a row, blank ones aside, end the reader and close the
   connection; fewer do not.
   */
  lemma {:induction false} TenMalformedClose(s: State, lines: seq<Line>)
    requires s.reader == Reading(0) && !s.closed
    requires forall i :: 0 <= i < |lines| ==> lines[i] == Malformed || lines[i] == Blank
    ensures var now := Run(s, Reads(lines));
            if MalformedIn(lines) >= 10 then now.reader.Ended? && now.closed
            else now.reader == Reading(MalformedIn(lines)) && !now.closed
  {
    if |lines| > 0 {
      var n := |lines| - 1;
      TenMalformedClose(s, lines[..n]);
      assert Reads(lines)[..n] == Reads(lines[..n]);
    }
  }

  /** Malformed lines at the end, blank ones aside, since the last that decoded. */
  ghost function MalformedRun(lines: seq<Line>): nat {
    if |lines| == 0 then 0
    else
      match lines[|lines| - 1]
      case Blank => MalformedRun(lines[..|lines| - 1])
      case Malformed => MalformedRun(lines[..|lines| - 1]) + 1
      case _ => 0
  }

  ghost predicate TenInARow(lines: seq<Line>) {
    exists i :: 0 <= i <= |lines| && MalformedRun(lines[..i]) == 10
  }

  lemma RunSnoc(lines: seq<Line>, line: Line)
    ensures TenInARow(lines + [line]) <==> TenInARow(lines) || MalformedRun(lines + [line]) == 10
    ensures MalformedRun(lines + [line])
         == if line == Blank then MalformedRun(lines) else if line == Malformed then MalformedRun(lines) + 1 else 0
  {
    var all := lines + [line];
    assert all[..|all|] == all;
    assert forall i :: 0 <= i <= |lines| ==> all[..i] == lines[..i];
  }

  /** The reader after some lines: closed by the tenth in a row, or counting. */
  ghost predicate Counting(s: State, lines: seq<Line>) {
    if TenInARow(lines) then s.reader.Ended? && s.closed
    else s.reader == Reading(MalformedRun(lines)) && MalformedRun(lines) < 10 && !s.closed
  }

  lemma CountsOn(s: State, lines: seq<Line>, line: Line)
    requires Counting(s, lines) && line != Poison
    ensures Counting(Step(s, Read(line)), lines + [line])
  {
    hide TenInARow, MalformedRun;
    RunSnoc(lines, line);
  }

  /** Over any lines that handling survives: any that decodes starts the count anew, and the tenth in a row closes. */
  lemma {:induction false} StreakIsRun(s: State, lines: seq<Line>)
    requires s.reader == Reading(0) && !s.closed && Poison !in lines
    ensures Counting(Run(s, Reads(lines)), lines)
  {
    if |lines| > 0 {
      hide Step, Counting;
      var n := |lines| - 1;
      StreakIsRun(s, lines[..n]);
      assert Reads(lines)[..n] == Reads(lines[..n]) && lines == lines[..n] + [lines[n]];
      CountsOn(Run(s, Reads(lines[..n])), lines[..n], lines[n]);
    }
  }

  /** On a closed connection every turn fails at once, with nothing sent, and the connection stays closed. */
  lemma {:induction false} ClosedFailsTurns(s: State, events: seq<Event>)
    requires s.closed && s.phase.Idle?
    ensures var t := Run(s, events);
            t.closed && t.nextId == s.nextId && (t.phase.Idle? || t.phase == Returned(Failure))
    ensures Step(Run(s, events), BeginTurn).phase == Returned(Failure)
  {
    if |events| > 0 {
      ClosedFailsTurns(s, events[..|events| - 1]);
    }
  }

  /**
   A reply is judged a success although the status it reports is a failure, a
   cancellation or unknown: exactly when its turn object has no status and such a
   status stands beside it. (The status beside decides whether to wait, not the
   verdict.)
   */
  lemma VerdictDisagreesIff(s: State, r: Reply)
    requires s.phase.Requesting? && s.response == Value(r) && r.Reply?
    ensures WakeUp(s).phase == Returned(Success) && Verdict(Effective(r)) != Success
       <==> StatusOf(r.turn) == NoStatus && r.beside in {Interrupted, Failed, Unknown}
  {
  }

  /** Such a reply: one that only says `failed`, beside no turn object. */
  lemma FailedBesideNoTurnSucceeds(s: State)
    requires s.phase.Requesting? && s.response == Value(Reply(NoTurn, Failed))
    ensures WakeUp(s).phase == Returned(Success)
  {
  }

  /**
   A completion without a turn object is judged by the reply's: a success exactly
   when that had no status either.
   */
  lemma BareCompletionSucceedsIff(s: State, started: Turn)
    requires s.phase == AwaitingCompletion(started) && s.waiter == Some(Value(NoTurn))
    requires StatusOf(started) == NoStatus || StatusOf(started) == InProgress
    ensures WakeUp(s).phase == Returned(Success) <==> StatusOf(started) == NoStatus
  {
  }

  // ---------------------------------------------------------------------
  // Whose completion it is
  // ---------------------------------------------------------------------

  predicate IsCompletion(e: Event) { e.Read? && e.line.TurnCompleted? }

  /** The first turn/completed among the events, read by a reader still reading. */
  ghost predicate FirstCompletion(s: State, events: seq<Event>, k: nat) {
    && k < |events| && IsCompletion(events[k])
    && (forall j :: 0 <= j < k ==> !IsCompletion(events[j]))
    && Run(s, events[..k]).reader.Reading?
  }

  lemma {:induction false} NothingSettledBefore(s: State, events: seq<Event>)
    requires Run(s, events).reader.Reading? && forall j :: 0 <= j < |events| ==> !IsCompletion(events[j])
    ensures Settled(s, events) == Waiting
  {
    if |events| > 0 {
      var n := |events| - 1;
      ReaderStops(Run(s, events[..n]), events[n]);
      NothingSettledBefore(s, events[..n]);
    }
  }

  /** A reader that has stopped does not read again, and one that reads on has not ended. */
  lemma ReaderStops(s: State, e: Event)
    ensures Step(s, e).reader.Reading? ==> s.reader.Reading?
    ensures Step(s, e).reader.Reading? && !IsCompletion(e) ==> Settles(s, e) == Waiting
  {
    hide Effective, Judge, WakeUp;
    if e.Wake? {
      WakeKeepsReader(s);
    }
  }

  lemma WakeKeepsReader(s: State)
    ensures WakeUp(s).reader == s.reader
  {
    hide Effective, Judge;
  }

  ghost predicate FirstIs(s: State, events: seq<Event>, k: nat, turn: Turn) {
    FirstCompletion(s, events, k) && events[k] == Read(TurnCompleted(turn))
  }

  lemma {:induction false} FirstSettles(s: State, events: seq<Event>, k: nat, turn: Turn)
    requires FirstIs(s, events, k, turn)
    ensures Settled(s, events) == Value(turn)
    decreases |events|
  {
    hide Step, Run;
    var n := |events| - 1;
    if k == n {
      NothingSettledBefore(s, events[..n]);
    } else {
      assert events[..n][..k] == events[..k];
      FirstSettles(s, events[..n], k, turn);
    }
  }

  lemma {:induction false} SettledHasFirst(s: State, events: seq<Event>, turn: Turn) returns (k: nat)
    requires Settled(s, events) == Value(turn)
    ensures FirstIs(s, events, k, turn)
  {
    hide Step, Run;
    var n := |events| - 1;
    if Settled(s, events[..n]) == Waiting {
      EarlierCompletion(s, events);
      k := n;
    } else {
      k := SettledHasFirst(s, events[..n], turn);
      assert events[..n][..k] == events[..k];
    }
  }

  /**
   A completion is settled by an event that is not the first of its kind only if
   something was settled before.
   */
  lemma EarlierCompletion(s: State, events: seq<Event>)
    requires |events| > 0 && Settled(s, events[..|events| - 1]) == Waiting && Settled(s, events).Value?
    ensures FirstCompletion(s, events, |events| - 1)
  {
    hide Step, Run;
    var n := |events| - 1;
    forall j | 0 <= j < n ensures !IsCompletion(events[j]) {
      if IsCompletion(events[j]) {
        assert Run(s, events[..n]).reader.Reading?;
        ReadingThroughout(s, events[..n], j);
        CompletionSettles(s, events[..n], j);
      }
    }
  }

  lemma {:induction false} ReadingThroughout(s: State, events: seq<Event>, j: nat)
    requires j <= |events| && Run(s, events).reader.Reading?
    ensures Run(s, events[..j]).reader.Reading?
    decreases |events|
  {
    hide Step;
    var n := |events| - 1;
    if j == |events| {
      assert events[..j] == events;
    } else {
      ReaderStops(Run(s, events[..n]), events[n]);
      ReadingThroughout(s, events[..n], j);
      assert events[..n][..j] == events[..j];
    }
  }

  lemma {:induction false} CompletionSettles(s: State, events: seq<Event>, j: nat)
    requires j < |events| && IsCompletion(events[j]) && Run(s, events[..j]).reader.Reading?
    ensures Settled(s, events) != Waiting
    decreases |events|
  {
    hide Step, Run;
    var n := |events| - 1;
    if j < n {
      assert events[..n][..j] == events[..j];
      CompletionSettles(s, events[..n], j);
    }
  }

  /**
   A turn's waiter holds the turn's own completion exactly when that is the first
   turn/completed read since the waiter was armed: completions are not matched by id.
   */
  lemma OwnCompletionIff(s: State, events: seq<Event>, own: nat)
    requires s.phase.Idle? && SameTurn(Step(s, BeginTurn), events)
    ensures HoldsOwn(Run(Step(s, BeginTurn), events), own)
       <==> exists k: nat, turn: Turn :: FirstIs(Step(s, BeginTurn), events, k, turn) && IsOwn(turn, own)
  {
    hide Step, Run, Settled, FirstIs, SameTurn;
    var armed := Step(s, BeginTurn);
    WaiterIsSettled(s, events);
    if HoldsOwn(Run(armed, events), own) {
      var k := SettledHasFirst(armed, events, Run(armed, events).waiter.value.value);
    }
    if k: nat, turn: Turn :| FirstIs(armed, events, k, turn) && IsOwn(turn, own) {
      FirstSettles(armed, events, k, turn);
    }
  }

  predicate IsOwn(turn: Turn, own: nat) { turn.Turn? && turn.id == Some(own) }

  predicate HoldsOwn(s: State, own: nat) {
    s.waiter.Some? && s.waiter.value.Value? && IsOwn(s.waiter.value.value, own)
  }

  /**
   Such a run: turn 1 times out, turn 2 begins, the late completion of turn 1 is
   read, and turn 2 ends in success though nothing said it was completed.
   */
  lemma LateCompletionEndsNextTurn(s: State)
    requires s.phase.Idle? && s.reader.Reading? && !s.closed
    ensures var s1 := Step(s, BeginTurn);
            var r1 := Answer(s.nextId, Reply(Turn(Some(1), InProgress), NoStatus));
            var s2 := Step(Step(s1, Drained(Written)), Read(r1));
            var s3 := Step(Step(Step(s2, Wake), Expire), Collect);
            var s4 := Step(s3, BeginTurn);
            var r2 := Answer(s3.nextId, Reply(Turn(Some(2), InProgress), NoStatus));
            var s5 := Step(Step(s4, Drained(Written)), Read(r2));
            var s6 := Step(Step(s5, Wake), Read(TurnCompleted(Turn(Some(1), Completed))));
            && Step(Step(s2, Wake), Expire).phase == Returned(TimedOut)
            && s6.phase == AwaitingCompletion(Turn(Some(2), InProgress))
            && Step(s6, Wake).phase == Returned(Success)
  {
  }

  /**
   A caller left waiting for its completion can still be told, by some continuation,
   if and only if the reader is reading.
   */
  lemma StillReachableIff(s: State)
    requires s.phase.AwaitingCompletion? && s.waiter == Some(Waiting)
    ensures (exists more :: IsSettled(Run(s, more))) <==> s.reader.Reading?
  {
    hide Run, Step;
    if s.reader.Reading? {
      var told := [Read(TurnCompleted(NoTurn))];
      ReadOnce(s, told[0]);
      assert IsSettled(Run(s, told));
    } else {
      forall more ensures !IsSettled(Run(s, more)) {
        NothingSettlesAgain(s, more);
      }
    }
  }

  predicate IsSettled(s: State) { s.waiter.Some? && s.waiter.value != Waiting }

  lemma ReadOnce(s: State, e: Event)
    requires e == Read(TurnCompleted(NoTurn)) && s.reader.Reading? && s.waiter == Some(Waiting)
    ensures IsSettled(Run(s, [e]))
  {
    assert [e][..0] == [];
    assert Run(s, []) == s;
  }

  lemma {:induction false} NothingSettlesAgain(s: State, more: seq<Event>)
    requires !s.reader.Reading? && !IsSettled(s)
    ensures !Run(s, more).reader.Reading? && !IsSettled(Run(s, more))
  {
    if |more| > 0 {
      NothingSettlesAgain(s, more[..|more| - 1]);
    }
  }

  /** A killed reader settles nothing, before the write ends or after: the caller is left to its timeout. */
  lemma KilledReaderLosesWakeup(s: State, turn: Turn, end: Event)
    requires s.phase.Idle? && s.reader.Reading? && !s.closed && (end == Read(Poison) || end == KillReader)
    ensures var begun := Step(s, BeginTurn);
            var now := Step(Step(begun, end), Read(TurnCompleted(turn)));
            var sent := Step(now, Drained(Written));
            && sent == Step(Step(Step(begun, Drained(Written)), end), Read(TurnCompleted(turn)))
            && sent.waiter == Some(Waiting) && sent.response == Waiting && Step(sent, Wake) == sent
  {
  }

  // ---------------------------------------------------------------------
  // How a turn ends
  // ---------------------------------------------------------------------

  predicate IsOwnAnswer(e: Event, id: nat) { e.Read? && e.line.Answer? && e.line.id == id }

  /** The first answer to the turn's own request, read by a reader still reading. */
  ghost predicate AnsweredAt(armed: State, events: seq<Event>, id: nat, k: nat) {
    && k < |events| && IsOwnAnswer(events[k], id)
    && (forall j :: 0 <= j < k ==> !IsOwnAnswer(events[j], id))
    && Run(armed, events[..k]).reader.Reading?
  }

  ghost predicate Answered(armed: State, events: seq<Event>, id: nat, k: nat, reply: Reply) {
    AnsweredAt(armed, events, id, k) && events[k] == Read(Answer(id, reply))
  }

  /**
   What the messages say about the turn's end: the status in the reply's turn, or, if the reply only says
   in progress, that in the first completion, or the reply's when the completion has no turn.
   */
  ghost predicate EndsWith(armed: State, events: seq<Event>, id: nat, status: Status) {
    exists k: nat, turn: Turn, beside: Status ::
      && Answered(armed, events, id, k, Reply(turn, beside))
      && if StatusOf(turn) == InProgress || (StatusOf(turn) == NoStatus && beside == InProgress)
         then exists c: nat, done: Turn ::
                FirstIs(armed, events, c, done) && status == StatusOf(if done.Turn? then done else turn)
         else status == StatusOf(turn)
  }

  /** The turn is not over before the last event. */
  ghost predicate OngoingUntilLast(armed: State, events: seq<Event>) {
    forall k :: 0 <= k < |events| ==> !Over(Run(armed, events[..k]))
  }

  predicate Over(s: State) { s.phase.Idle? || s.phase.Returned? }

  /** The response future, from the events: the own answer, or the reader's end before it. */
  ghost function Responded(armed: State, events: seq<Event>, id: nat): Future<Reply> {
    if |events| == 0 then Waiting
    else
      var n := |events| - 1;
      var earlier := Responded(armed, events[..n], id);
      if earlier != Waiting then earlier else Responds(Run(armed, events[..n]), events[n], id)
  }

  function Responds(s: State, e: Event, id: nat): Future<Reply> {
    if !s.reader.Reading? then Waiting
    else
      match e
      case Read(Answer(i, reply)) => if i == id then Value(reply) else Waiting
      case Read(Malformed) => if s.reader.streak + 1 >= LIMIT then Broken else Waiting
      case Eof => Broken
      case _ => Waiting
  }

  /** While the turn goes on, what its state says of its request. */
  ghost predicate Holds(s: State, id: nat, r: Future<Reply>) {
    && s.response == r && (s.pending <==> r == Waiting)
    && (s.phase == Writing(id) || s.phase == Requesting(id) || (s.phase.AwaitingCompletion? && r.Value?
          && r.value.Reply? && Effective(r.value) == InProgress && s.phase.started == r.value.turn))
  }

  lemma {:induction false} ResponseIsResponded(s: State, events: seq<Event>)
    requires s.phase.Idle? && !s.closed
    requires OngoingUntilLast(Step(s, BeginTurn), events) && !Over(Run(Step(s, BeginTurn), events))
    ensures var armed := Step(s, BeginTurn);
            Holds(Run(armed, events), s.nextId, Responded(armed, events, s.nextId))
  {
    hide Step, Holds;
    var armed := Step(s, BeginTurn);
    if |events| == 0 {
      BegunHolds(s);
    } else {
      var n := |events| - 1;
      forall k | 0 <= k <= n ensures !Over(Run(armed, events[..n][..k])) {
        assert events[..n][..k] == events[..k];
      }
      assert events[..n][..n] == events[..n];
      ResponseIsResponded(s, events[..n]);
      StepHolds(Run(armed, events[..n]), events[n], s.nextId, Responded(armed, events[..n], s.nextId));
    }
  }

  lemma BegunHolds(s: State)
    requires s.phase.Idle? && !s.closed
    ensures Holds(Step(s, BeginTurn), s.nextId, Waiting)
  {
  }

  lemma StepHolds(s: State, e: Event, id: nat, r: Future<Reply>)
    requires Holds(s, id, r) && !Over(s) && !Over(Step(s, e))
    ensures Holds(Step(s, e), id, if r != Waiting then r else Responds(s, e, id))
  {
  }

  lemma {:induction false} AnsweredResponds(armed: State, events: seq<Event>, id: nat, k: nat, reply: Reply)
    requires Answered(armed, events, id, k, reply)
    ensures Responded(armed, events, id) == Value(reply)
    decreases |events|
  {
    hide Step, Run;
    var n := |events| - 1;
    if k == n {
      NothingRespondedBefore(armed, events[..n], id);
    } else {
      assert events[..n][..k] == events[..k];
      AnsweredResponds(armed, events[..n], id, k, reply);
    }
  }

  lemma {:induction false} NothingRespondedBefore(armed: State, events: seq<Event>, id: nat)
    requires Run(armed, events).reader.Reading? && forall j :: 0 <= j < |events| ==> !IsOwnAnswer(events[j], id)
    ensures Responded(armed, events, id) == Waiting
  {
    hide Step;
    if |events| > 0 {
      var n := |events| - 1;
      ReaderStops(Run(armed, events[..n]), events[n]);
      NothingRespondedBefore(armed, events[..n], id);
      StoppedBy(Run(armed, events[..n]), events[n], id);
    }
  }

  lemma StoppedBy(s: State, e: Event, id: nat)
    requires Step(s, e).reader.Reading? && !IsOwnAnswer(e, id)
    ensures Responds(s, e, id) == Waiting
  {
    hide WakeUp;
  }

  lemma {:induction false} RespondedWasAnswered(armed: State, events: seq<Event>, id: nat, reply: Reply)
    returns (k: nat)
    requires Responded(armed, events, id) == Value(reply)
    ensures Answered(armed, events, id, k, reply)
  {
    hide Step, Run;
    var n := |events| - 1;
    if Responded(armed, events[..n], id) == Waiting {
      forall j | 0 <= j < n ensures !IsOwnAnswer(events[j], id) {
        if IsOwnAnswer(events[j], id) {
          ReadingThroughout(armed, events[..n], j);
          AnswerResponds(armed, events[..n], id, j);
        }
      }
      k := n;
    } else {
      k := RespondedWasAnswered(armed, events[..n], id, reply);
      assert events[..n][..k] == events[..k];
    }
  }

  lemma {:induction false} AnswerResponds(armed: State, events: seq<Event>, id: nat, j: nat)
    requires j < |events| && IsOwnAnswer(events[j], id) && Run(armed, events[..j]).reader.Reading?
    ensures Responded(armed, events, id) != Waiting
    decreases |events|
  {
    hide Step, Run;
    var n := |events| - 1;
    if j < n {
      assert events[..n][..j] == events[..j];
      AnswerResponds(armed, events[..n], id, j);
    }
  }

  /** The one way a status is told, given the reply and the completion. */
  ghost predicate Tells(reply: Reply, settled: Future<Turn>, status: Status) {
    && reply.Reply?
    && if StatusOf(reply.turn) == InProgress || (StatusOf(reply.turn) == NoStatus && reply.beside == InProgress)
       then settled.Value? && status == StatusOf(if settled.value.Turn? then settled.value else reply.turn)
       else status == StatusOf(reply.turn)
  }

  lemma EndsWithIff(armed: State, events: seq<Event>, id: nat, status: Status)
    ensures EndsWith(armed, events, id, status)
       <==> && Responded(armed, events, id).Value?
            && Tells(Responded(armed, events, id).value, Settled(armed, events), status)
  {
    hide Step, Run, Responded, Settled, FirstIs, Answered;
    if EndsWith(armed, events, id, status) {
      var k: nat, turn: Turn, beside: Status :|
        && Answered(armed, events, id, k, Reply(turn, beside))
        && if StatusOf(turn) == InProgress || (StatusOf(turn) == NoStatus && beside == InProgress)
           then exists c: nat, done: Turn ::
                  FirstIs(armed, events, c, done) && status == StatusOf(if done.Turn? then done else turn)
           else status == StatusOf(turn);
      AnsweredResponds(armed, events, id, k, Reply(turn, beside));
      if c: nat, done: Turn :|
        FirstIs(armed, events, c, done) && status == StatusOf(if done.Turn? then done else turn)
      {
        FirstSettles(armed, events, c, done);
      }
    }
    var r, w := Responded(armed, events, id), Settled(armed, events);
    if r.Value? && Tells(r.value, w, status) {
      var k := RespondedWasAnswered(armed, events, id, r.value);
      assert r.value == Reply(r.value.turn, r.value.beside);
      if w.Value? {
        var c := SettledHasFirst(armed, events, w.value);
      }
    }
  }

  /** How the last event ends a turn, told from its two futures. */
  lemma LastEnds(s: State, e: Event, id: nat, r: Future<Reply>, w: Future<Turn>)
    requires Holds(s, id, r) && s.waiter == Some(w) && !Over(s) && Over(Step(s, e))
    ensures Step(s, e).phase.Returned?
    ensures var o := Step(s, e).phase.outcome;
            var told := (status: Status) => r.Value? && Tells(r.value, w, status);
            && (o == TimedOut <==> e == Expire)
            && (o == Success <==> e == Wake && (told(NoStatus) || told(Completed)))
            && (o == Cancelled <==> e == Wake && told(Interrupted))
  {
  }

  /**
   How a turn ends, over every run from its beginning to its end and on the messages read: it times out
   exactly at its timeout; it succeeds exactly when it wakes to a reply, and for one still in progress to a
   completion, that tells no status or completed; it is cancelled exactly when that tells interrupted; and
   everything else, an error for a reply, a broken future, any other status, a failed write, is a failure.
   */
  lemma TurnOutcomeIff(s: State, events: seq<Event>)
    requires s.phase.Idle? && !s.closed && |events| > 0
    requires OngoingUntilLast(Step(s, BeginTurn), events) && Over(Run(Step(s, BeginTurn), events))
    ensures var armed, n := Step(s, BeginTurn), |events| - 1;
            var last, read := events[n], events[..n];
            && Run(armed, events).phase.Returned?
            && var o := Run(armed, events).phase.outcome;
               && (o == TimedOut <==> last == Expire)
               && (o == Success <==> last == Wake && (EndsWith(armed, read, s.nextId, NoStatus)
                                                      || EndsWith(armed, read, s.nextId, Completed)))
               && (o == Cancelled <==> last == Wake && EndsWith(armed, read, s.nextId, Interrupted))
  {
    hide Step, EndsWith, Responded, Settled, Holds, Tells;
    var armed, n := Step(s, BeginTurn), |events| - 1;
    var read := events[..n];
    forall k | 0 <= k <= n ensures !Over(Run(armed, read[..k])) {
      assert read[..k] == events[..k];
    }
    assert read[..n] == read;
    ResponseIsResponded(s, read);
    WaiterIsSettled(s, read);
    LastEnds(Run(armed, read), events[n], s.nextId, Responded(armed, read, s.nextId), Settled(armed, read));
    EndsWithIff(armed, read, s.nextId, NoStatus);
    EndsWithIff(armed, read, s.nextId, Completed);
    EndsWithIff(armed, read, s.nextId, Interrupted);
  }

  /** A turn/start answered by an error fails the turn. */
  lemma RefusedTurnFails(s: State, events: seq<Event>, k: nat)
    requires s.phase.Idle? && !s.closed && |events| > 0 && events[|events| - 1] == Wake
    requires OngoingUntilLast(Step(s, BeginTurn), events) && Over(Run(Step(s, BeginTurn), events))
    requires Answered(Step(s, BeginTurn), events[..|events| - 1], s.nextId, k, Refused)
    ensures Run(Step(s, BeginTurn), events).phase == Returned(Failure)
  {
    hide Step, Run, EndsWith, Responded, Settled, Answered;
    var armed, read := Step(s, BeginTurn), events[..|events| - 1];
    TurnOutcomeIff(s, events);
    AnsweredResponds(armed, read, s.nextId, k, Refused);
    EndsWithIff(armed, read, s.nextId, NoStatus);
    EndsWithIff(armed, read, s.nextId, Completed);
    EndsWithIff(armed, read, s.nextId, Interrupted);
  }

  /** And a caller waiting for its reply goes on exactly when the answer was read or the reader ended. */
  lemma AnswerWakes(s: State, events: seq<Event>)
    requires s.phase.Idle? && !s.closed
    requires OngoingUntilLast(Step(s, BeginTurn), events) && Run(Step(s, BeginTurn), events).phase.Requesting?
    ensures var armed := Step(s, BeginTurn);
            Step(Run(armed, events), Wake).phase.Requesting? <==> Responded(armed, events, s.nextId) == Waiting
  {
    hide Run, Responded;
    ResponseIsResponded(s, events);
  }

  // ---------------------------------------------------------------------
  // Between turns
  // ---------------------------------------------------------------------

  /** The connection is closed only by the tenth malformed line in a row; the end of the stream leaves it open. */
  lemma ClosesIff(s: State, e: Event)
    ensures Step(s, e).closed
       <==> s.closed || (e == Read(Malformed) && s.reader.Reading? && s.reader.streak >= 9)
  {
  }

  /** A turn that ran out of time is answered no more: its reply, read later, goes nowhere. */
  lemma TimedOutIsForgotten(s: State, id: nat, reply: Reply)
    requires s.phase == Requesting(id) && s.response == Waiting
    ensures var out := Step(s, Expire);
            var late := Step(out, Read(Answer(id, reply)));
            && out.phase == Returned(TimedOut) && !out.pending
            && late.phase == out.phase && late.response == Waiting && !late.pending
  {
  }

  /** When a turn is over its waiter is gone: a completion read before the next turn begins settles nothing in it. */
  lemma NothingWaitsBetween(s: State, turn: Turn)
    requires s.phase.Returned? && s.reader.Reading? && !s.closed
    ensures var idle := Step(s, Collect);
            var read := Step(idle, Read(TurnCompleted(turn)));
            && idle.phase.Idle? && idle.waiter.None? && read.waiter.None?
            && Step(read, BeginTurn).waiter == Some(Waiting) && Step(read, BeginTurn).response == Waiting
  {
  }
}
