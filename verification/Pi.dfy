/**
 A pi turn: the stream, the resumed session it must show, and when the turn
 counts as completed (src/symphony/backends/pi.py and the stream half of
 src/symphony/backends/per_turn.py).

 A message's text is the last text block the code would pull out of it.
 */
module Pi {
  import opened Prelude

  type SessionId = string

  datatype StopReason = Stopped | Errored | Aborted

  datatype Message = Message(assistant: bool, text: string, stop: StopReason)

  datatype Event =
    | Session(id: SessionId)
    | MessageEnd(message: Message)
    | TurnEnd(message: Message)
    | AgentEnd(messages: seq<Message>)
    | Other

  /** NotObject: JSON that is not an object. */
  datatype Line = Blank | Malformed | NotObject | Json(event: Event)

  datatype Outcome = Completed(message: string) | Failed | TimedOut

  /**
   A turn as the environment plays it: whether the child came up, the lines read
   before the stream ended or the clock ran out, and the exit status.
   */
  datatype Turn = Turn(continuation: bool, spawned: bool, lines: seq<Line>, timedOut: bool, rc: Option<int>)

  const LIMIT := 10

  /** The session fields of the backend. No session: still the placeholder. */
  datatype Memory = Memory(
    session: Option<SessionId>, expected: Option<SessionId>, confirmed: bool, resumeNext: bool, last: string)

  /** What the stream loop keeps, and how many lines it has taken. */
  datatype Reading = Reading(
    memory: Memory, terminal: Option<Event>, streak: nat, corrupt: bool, mismatch: bool, taken: nat)

  function Preview(text: string): string { if |text| <= 400 then text else text[..400] }

  // ---------------------------------------------------------------------
  // One line
  // ---------------------------------------------------------------------

  function Observe(r: Reading, id: SessionId): Reading {
    if id == "" then r
    else if r.memory.expected.Some? && id != r.memory.expected.value then r.(mismatch := true)
    else
      r.(memory := r.memory.(session := Some(id),
                             confirmed := r.memory.confirmed || r.memory.expected.Some?))
  }

  function Handle(r: Reading, e: Event): Reading {
    match e
    case Session(id) => Observe(r, id)
    case MessageEnd(m) =>
      if m.assistant && m.text != "" then r.(memory := r.memory.(last := Preview(m.text))) else r
    case TurnEnd(m) =>
      if m.assistant && r.memory.last == "" && m.text != ""
      then r.(memory := r.memory.(last := Preview(m.text))) else r
    case AgentEnd(_) => r.(terminal := Some(e))
    case Other => r
  }

  predicate Ended(r: Reading) { r.corrupt || r.mismatch }

  function Read(r: Reading, line: Line): Reading
    requires !Ended(r)
  {
    var next := r.(taken := r.taken + 1);
    match line
    case Blank => next
    case Malformed => next.(streak := r.streak + 1, corrupt := r.streak + 1 >= LIMIT)
    case NotObject => next.(streak := 0)
    case Json(e) => Handle(next.(streak := 0), e)
  }

  function ReadAll(r: Reading, lines: seq<Line>): Reading {
    if |lines| == 0 then r
    else
      var before := ReadAll(r, lines[..|lines| - 1]);
      if Ended(before) then before else Read(before, lines[|lines| - 1])
  }

  function Start(m: Memory): Reading { Reading(m, None, 0, false, false, 0) }

  // ---------------------------------------------------------------------
  // One turn
  // ---------------------------------------------------------------------

  function LastAssistantText(messages: seq<Message>): string {
    if |messages| == 0 then ""
    else
      var m := messages[|messages| - 1];
      if m.assistant && m.text != "" then m.text else LastAssistantText(messages[..|messages| - 1])
  }

  predicate Faulty(messages: seq<Message>) {
    |messages| > 0 && messages[|messages| - 1].stop != Stopped
  }

  predicate CleanExit(rc: Option<int>) { rc.None? || rc.value == 0 }

  /** The resume flag is on this turn's command. */
  predicate Resumes(m: Memory, t: Turn, acrossTurns: bool) {
    (m.resumeNext || (t.continuation && acrossTurns)) && m.session.Some?
  }

  function Commanded(m: Memory): Memory { m.(resumeNext := false, last := "") }

  predicate Unconfirmed(m: Memory) { m.expected.Some? && !m.confirmed }

  function Confirmed(m: Memory): Memory {
    if m.expected.Some? then m.(expected := None, confirmed := false) else m
  }

  function Complete(m: Memory, terminal: Option<Event>, rc: Option<int>): (Memory, Outcome)
    requires terminal.Some? ==> terminal.value.AgentEnd?
  {
    if terminal.Some? then
      if Unconfirmed(m) then (m, Failed)
      else
        var text := LastAssistantText(terminal.value.messages);
        var told := Confirmed(m).(last := if text != "" then Preview(text) else m.last);
        if Faulty(terminal.value.messages) || !CleanExit(rc) then (told, Failed)
        else (told, Completed(told.last))
    else if rc == Some(0) && m.last != "" then
      if Unconfirmed(m) then (m, Failed) else (Confirmed(m), Completed(m.last))
    else (m, Failed)
  }

  function Play(m: Memory, t: Turn): (Memory, Outcome)
  {
    var commanded := Commanded(m);
    if !t.spawned then (commanded, Failed)
    else
      var r := ReadAll(Start(commanded), t.lines);
      TerminalIsAgentEnd(Start(commanded), t.lines);
      if r.mismatch then (r.memory, Failed)
      else if t.timedOut then (r.memory, TimedOut)
      else if r.corrupt then (r.memory, Failed)
      else Complete(r.memory, r.terminal, t.rc)
  }

  function Resume(m: Memory, id: SessionId): Memory {
    m.(session := Some(id), expected := Some(id), confirmed := false, resumeNext := true)
  }

  lemma {:induction false} TerminalIsAgentEnd(r: Reading, lines: seq<Line>)
    requires r.terminal.Some? ==> r.terminal.value.AgentEnd?
    ensures var end := ReadAll(r, lines); end.terminal.Some? ==> end.terminal.value.AgentEnd?
  {
    if |lines| > 0 {
      TerminalIsAgentEnd(r, lines[..|lines| - 1]);
    }
  }

  // ---------------------------------------------------------------------
  // The backend
  // ---------------------------------------------------------------------

  class PiBackend {
    var memory: Memory
    var closed: bool

    constructor ()
      ensures memory == Memory(None, None, false, false, "") && !closed
    {
      memory, closed := Memory(None, None, false, false, ""), false;
    }

    /** `valid`: the id passes the id check. */
    method ResumeSession(id: SessionId, valid: bool) returns (accepted: bool)
      modifies `memory
      ensures accepted <==> !closed && valid
      ensures memory == if accepted then Resume(old(memory), id) else old(memory)
    {
      if closed || !valid { return false; }
      memory := memory.(session := Some(id), expected := Some(id));
      memory := memory.(confirmed := false, resumeNext := true);
      return true;
    }

    method CommandForTurn(t: Turn, acrossTurns: bool) returns (resumed: Option<SessionId>)
      modifies `memory
      ensures memory == Commanded(old(memory))
      ensures resumed == if Resumes(old(memory), t, acrossTurns) then old(memory).session else None
    {
      memory := memory.(last := "");
      var should := memory.resumeNext || (t.continuation && acrossTurns);
      memory := memory.(resumeNext := false);
      resumed := if should then memory.session else None;
    }

    method ConsumeStream(lines: seq<Line>) returns (r: Reading)
      modifies `memory
      ensures r == ReadAll(Start(old(memory)), lines) && memory == r.memory
    {
      hide Read;
      r := Start(memory);
      var i := 0;
      while i < |lines| && !r.corrupt && !r.mismatch
        invariant 0 <= i <= |lines| && r == ReadAll(Start(old(memory)), lines[..i]) && memory == r.memory
      {
        assert lines[..i + 1][..i] == lines[..i];
        r := Read(r, lines[i]);
        memory := r.memory;
        i := i + 1;
      }
      EndedStays(Start(old(memory)), lines, i);
      assert lines[..|lines|] == lines;
    }

    method ExtractLastAssistantMessage(messages: seq<Message>) returns (text: string)
      ensures text == LastAssistantText(messages)
      ensures text != "" ==> exists i :: 0 <= i < |messages| && messages[i].assistant && messages[i].text == text
                               && forall j :: i < j < |messages| ==> !messages[j].assistant || messages[j].text == ""
      ensures text == "" ==> forall j :: 0 <= j < |messages| ==> !messages[j].assistant || messages[j].text == ""
    {
      assert messages[..|messages|] == messages;
      for i := |messages| downto 0
        invariant LastAssistantText(messages) == LastAssistantText(messages[..i])
        invariant forall j :: i <= j < |messages| ==> !messages[j].assistant || messages[j].text == ""
      {
        assert messages[..i + 1][..i] == messages[..i];
        if messages[i].assistant && messages[i].text != "" { return messages[i].text; }
      }
      return "";
    }

    method RunTurn(t: Turn, acrossTurns: bool) returns (outcome: Outcome, resumed: Option<SessionId>)
      modifies `memory
      ensures (memory, outcome) == Play(old(memory), t)
      ensures resumed == if Resumes(old(memory), t, acrossTurns) then old(memory).session else None
    {
      hide ReadAll, LastAssistantText, Faulty;
      resumed := CommandForTurn(t, acrossTurns);
      if !t.spawned { return Failed, resumed; }
      TerminalIsAgentEnd(Start(memory), t.lines);
      var r := ConsumeStream(t.lines);
      if r.mismatch { return Failed, resumed; }
      if t.timedOut { return TimedOut, resumed; }
      if r.corrupt { return Failed, resumed; }
      outcome := CompleteStreamTurn(r.terminal, t.rc);
    }

    method CompleteStreamTurn(terminal: Option<Event>, rc: Option<int>) returns (outcome: Outcome)
      requires terminal.Some? ==> terminal.value.AgentEnd?
      modifies `memory
      ensures (memory, outcome) == Complete(old(memory), terminal, rc)
    {
      if terminal.Some? {
        var confirmed := RequireResumeConfirmation();
        if !confirmed { return Failed; }
        var text := ExtractLastAssistantMessage(terminal.value.messages);
        if text != "" {
          memory := memory.(last := Preview(text));
        }
        if Faulty(terminal.value.messages) { return Failed; }
        if !CleanExit(rc) { return Failed; }
        return Completed(memory.last);
      }
      if !CleanExit(rc) { return Failed; }
      if rc == Some(0) && memory.last != "" {
        var confirmed := RequireResumeConfirmation();
        if !confirmed { return Failed; }
        return Completed(memory.last);
      }
      return Failed;
    }

    method RequireResumeConfirmation() returns (ok: bool)
      modifies `memory
      ensures ok <==> !Unconfirmed(old(memory))
      ensures memory == if ok then Confirmed(old(memory)) else old(memory)
    {
      if memory.expected.None? { return true; }
      if !memory.confirmed { return false; }
      memory := memory.(expected := None, confirmed := false);
      return true;
    }
  }

  lemma {:induction false} EndedStays(r: Reading, lines: seq<Line>, i: nat)
    requires i <= |lines| && (i < |lines| ==> Ended(ReadAll(r, lines[..i])))
    ensures ReadAll(r, lines) == ReadAll(r, lines[..i])
    decreases |lines|
  {
    if i == |lines| {
      assert lines[..i] == lines;
    } else {
      var n := |lines| - 1;
      assert lines[..n][..i] == lines[..i];
      if i < n {
        EndedStays(r, lines[..n], i);
      }
    }
  }

  // ---------------------------------------------------------------------
  // Text of this turn
  // ---------------------------------------------------------------------

  function LineText(line: Line): string {
    match line
    case Json(MessageEnd(m)) => if m.assistant then Preview(m.text) else ""
    case Json(TurnEnd(m)) => if m.assistant then Preview(m.text) else ""
    case _ => ""
  }

  lemma {:induction false} TextComesFromLines(r: Reading, lines: seq<Line>)
    ensures var end := ReadAll(r, lines);
            end.memory.last == r.memory.last || exists i :: 0 <= i < |lines| && LineText(lines[i]) == end.memory.last
  {
    if |lines| > 0 {
      var n := |lines| - 1;
      TextComesFromLines(r, lines[..n]);
      var before, end := ReadAll(r, lines[..n]), ReadAll(r, lines);
      if end.memory.last != before.memory.last {
        assert LineText(lines[n]) == end.memory.last;
      }
    }
  }

  /**
   Without a terminal event a turn completes only on exit status 0, with text
   from its own stream; with one, only if the last one reports no error and the
   status is clean.
   */
  lemma CompletedTurn(m: Memory, t: Turn)
    requires Play(m, t).1.Completed?
    ensures var end := ReadAll(Start(Commanded(m)), t.lines);
            && !end.corrupt && !end.mismatch && !t.timedOut
            && (end.terminal.None? ==>
                  && t.rc == Some(0) && Play(m, t).1.message != ""
                  && exists i :: 0 <= i < |t.lines| && LineText(t.lines[i]) == Play(m, t).1.message)
            && (end.terminal.Some? ==>
                  && end.terminal.value.AgentEnd? && CleanExit(t.rc)
                  && !Faulty(end.terminal.value.messages))
  {
    TerminalIsAgentEnd(Start(Commanded(m)), t.lines);
    TextComesFromLines(Start(Commanded(m)), t.lines);
  }

  // ---------------------------------------------------------------------
  // Malformed lines
  // ---------------------------------------------------------------------

  /** Malformed lines at the end, blank ones aside, since the last that decoded. */
  ghost function MalformedRun(lines: seq<Line>): nat {
    if |lines| == 0 then 0
    else
      match lines[|lines| - 1]
      case Blank => MalformedRun(lines[..|lines| - 1])
      case Malformed => MalformedRun(lines[..|lines| - 1]) + 1
      case _ => 0
  }

  lemma {:induction false} StreakIsRun(m: Memory, lines: seq<Line>)
    ensures var r := ReadAll(Start(m), lines);
            && (!Ended(r) ==> r.streak == MalformedRun(lines) && r.streak < 10)
            && (r.corrupt ==> !r.mismatch && exists i :: 0 <= i <= |lines| && MalformedRun(lines[..i]) == 10)
  {
    if |lines| > 0 {
      var n := |lines| - 1;
      StreakIsRun(m, lines[..n]);
      var before, r := ReadAll(Start(m), lines[..n]), ReadAll(Start(m), lines);
      if before.corrupt {
        var i :| 0 <= i <= n && MalformedRun(lines[..n][..i]) == 10;
        assert lines[..n][..i] == lines[..i];
      } else if r.corrupt {
        assert lines[..|lines|] == lines;
      }
    }
  }

  /** Ten malformed lines in a row end the turn in failure, whatever follows. */
  lemma TenMalformedFail(m: Memory, t: Turn, i: nat)
    requires i <= |t.lines| && MalformedRun(t.lines[..i]) >= 10
    ensures !Play(m, t).1.Completed?
  {
    var start := Start(Commanded(m));
    StreakIsRun(Commanded(m), t.lines[..i]);
    EndedStays(start, t.lines, i);
  }

  // ---------------------------------------------------------------------
  // Resumed sessions
  // ---------------------------------------------------------------------

  function AfterTurns(m: Memory, turns: seq<Turn>): Memory {
    if |turns| == 0 then m else Play(AfterTurns(m, turns[..|turns| - 1]), turns[|turns| - 1]).0
  }

  /** The lines a turn reads: all of them, or up to the one that ends it. */
  function LinesRead(m: Memory, t: Turn): seq<Line> {
    if !t.spawned then []
    else
      TakenInRange(Start(Commanded(m)), t.lines);
      t.lines[..ReadAll(Start(Commanded(m)), t.lines).taken]
  }

  lemma {:induction false} TakenInRange(r: Reading, lines: seq<Line>)
    ensures var end := ReadAll(r, lines);
            && r.taken <= end.taken <= r.taken + |lines|
            && (!Ended(end) ==> end.taken == r.taken + |lines|)
  {
    if |lines| > 0 {
      TakenInRange(r, lines[..|lines| - 1]);
    }
  }

  predicate Shows(m: Memory, t: Turn, id: SessionId) {
    Json(Session(id)) in LinesRead(m, t)
  }

  /** Some turn of the run read the session's id. */
  predicate Shown(m: Memory, turns: seq<Turn>, id: SessionId) {
    |turns| > 0 &&
    (Shown(m, turns[..|turns| - 1], id) || Shows(AfterTurns(m, turns[..|turns| - 1]), turns[|turns| - 1], id))
  }

  /**
   While a session is expected it is the one adopted, and it is confirmed only
   once shown.
   */
  predicate Expecting(m: Memory, id: SessionId, shown: bool) {
    shown || (m.expected == Some(id) && m.session == Some(id) && !m.confirmed)
  }

  lemma {:induction false} ReadKeepsExpecting(r: Reading, lines: seq<Line>, id: SessionId)
    requires Expecting(r.memory, id, false)
    ensures var end := ReadAll(r, lines);
            && r.taken <= end.taken <= r.taken + |lines|
            && Expecting(end.memory, id, Json(Session(id)) in lines[..end.taken - r.taken])
  {
    TakenInRange(r, lines);
    if |lines| > 0 {
      var n := |lines| - 1;
      ReadKeepsExpecting(r, lines[..n], id);
      TakenInRange(r, lines[..n]);
      var before := ReadAll(r, lines[..n]);
      var k := before.taken - r.taken;
      assert lines[..n][..k] == lines[..k];
      if !Ended(before) {
        assert k == n && lines[..n + 1] == lines[..n] + [lines[n]];
      }
    }
  }

  lemma TurnKeepsExpecting(m: Memory, t: Turn, id: SessionId)
    requires Expecting(m, id, false)
    ensures Expecting(Play(m, t).0, id, Shows(m, t, id))
    ensures Play(m, t).1.Completed? ==> Shows(m, t, id)
  {
    hide ReadAll;
    ReadKeepsExpecting(Start(Commanded(m)), t.lines, id);
    TerminalIsAgentEnd(Start(Commanded(m)), t.lines);
  }

  /**
   After an accepted resume, until the stream shows the session no other id is
   adopted, and no turn is reported completed.
   */
  lemma {:induction false} ResumedSessionMustShow(m: Memory, id: SessionId, turns: seq<Turn>)
    ensures Expecting(AfterTurns(Resume(m, id), turns), id, Shown(Resume(m, id), turns, id))
    ensures |turns| > 0 && Play(AfterTurns(Resume(m, id), turns[..|turns| - 1]), turns[|turns| - 1]).1.Completed? ==>
              Shown(Resume(m, id), turns, id)
  {
    hide Play, Shows;
    if |turns| > 0 {
      var n := |turns| - 1;
      var before := AfterTurns(Resume(m, id), turns[..n]);
      ResumedSessionMustShow(m, id, turns[..n]);
      if !Shown(Resume(m, id), turns[..n], id) {
        TurnKeepsExpecting(before, turns[n], id);
      }
    }
  }

  /**
   The resume flag goes out once. While the session has not been shown, a turn's
   command carries it if and only if it is the first turn after the resume, or a
   continuation on a backend that resumes across turns.
   */
  lemma {:induction false} FlagSentIff(m: Memory, id: SessionId, turns: seq<Turn>, next: Turn, acrossTurns: bool)
    requires !Shown(Resume(m, id), turns, id)
    ensures var waiting := AfterTurns(Resume(m, id), turns);
            && Expecting(waiting, id, false)
            && (Resumes(waiting, next, acrossTurns) <==> |turns| == 0 || (next.continuation && acrossTurns))
  {
    hide Play, Shows;
    ResumedSessionMustShow(m, id, turns);
    if |turns| > 0 {
      ResumeNextCleared(AfterTurns(Resume(m, id), turns[..|turns| - 1]), turns[|turns| - 1]);
    }
  }

  /**
   So every turn until the session is shown asks for it if and only if all but the
   first are such continuations.
   */
  lemma {:induction false} EveryTurnAsksIff(m: Memory, id: SessionId, turns: seq<Turn>, acrossTurns: bool)
    requires |turns| > 0 && !Shown(Resume(m, id), turns[..|turns| - 1], id)
    ensures (forall k: nat :: k < |turns| ==> Resumes(AfterTurns(Resume(m, id), turns[..k]), turns[k], acrossTurns))
       <==> (forall k: nat :: 1 <= k < |turns| ==> turns[k].continuation && acrossTurns)
  {
    hide AfterTurns, Resumes, Shown;
    forall k: nat | k < |turns|
      ensures Resumes(AfterTurns(Resume(m, id), turns[..k]), turns[k], acrossTurns)
         <==> k == 0 || (turns[k].continuation && acrossTurns)
    {
      ShownOnlyGrows(Resume(m, id), turns[..|turns| - 1], k, id);
      assert turns[..|turns| - 1][..k] == turns[..k];
      FlagSentIff(m, id, turns[..k], turns[k], acrossTurns);
    }
  }

  lemma {:induction false} ShownOnlyGrows(m: Memory, turns: seq<Turn>, k: nat, id: SessionId)
    requires k <= |turns| && !Shown(m, turns, id)
    ensures !Shown(m, turns[..k], id)
    decreases |turns|
  {
    if k == |turns| {
      assert turns[..k] == turns;
    } else {
      ShownOnlyGrows(m, turns[..|turns| - 1], k, id);
      assert turns[..|turns| - 1][..k] == turns[..k];
    }
  }

  /**
   A turn that comes without the flag and does not show the session by itself fails,
   and leaves the next one in the same place.
   */
  lemma LostResumeKeepsFailing(m: Memory, id: SessionId, first: Turn, later: Turn, acrossTurns: bool)
    requires !Shows(Resume(m, id), first, id)
    ensures var waiting := Play(Resume(m, id), first).0;
            && Resumes(Resume(m, id), first, acrossTurns)
            && (Resumes(waiting, later, acrossTurns) <==> later.continuation && acrossTurns)
            && (!Shows(waiting, later, id) ==>
                  !Play(waiting, later).1.Completed? && Expecting(Play(waiting, later).0, id, false))
  {
    hide ReadAll, Shows;
    TurnKeepsExpecting(Resume(m, id), first, id);
    TurnKeepsExpecting(Play(Resume(m, id), first).0, later, id);
    ResumeNextCleared(Resume(m, id), first);
  }

  lemma {:induction false} ReadKeepsResumeNext(r: Reading, lines: seq<Line>)
    ensures ReadAll(r, lines).memory.resumeNext == r.memory.resumeNext
  {
    if |lines| > 0 {
      ReadKeepsResumeNext(r, lines[..|lines| - 1]);
    }
  }

  lemma ResumeNextCleared(m: Memory, t: Turn)
    ensures !Play(m, t).0.resumeNext
  {
    hide ReadAll;
    TerminalIsAgentEnd(Start(Commanded(m)), t.lines);
    ReadKeepsResumeNext(Start(Commanded(m)), t.lines);
  }

  // ---------------------------------------------------------------------
  // When a turn completes, told on its lines
  // ---------------------------------------------------------------------

  /** A line that names another session than the one being resumed. */
  predicate NamesOther(m: Memory, line: Line) {
    && m.expected.Some? && line.Json? && line.event.Session?
    && line.event.id != "" && line.event.id != m.expected.value
  }

  /** Nothing in the lines ends the reading: no other session, and never ten malformed lines in a row. */
  ghost predicate ReadsOn(m: Memory, lines: seq<Line>) {
    && (forall i :: 0 <= i < |lines| ==> !NamesOther(m, lines[i]))
    && (forall i :: 0 <= i <= |lines| ==> MalformedRun(lines[..i]) < 10)
  }

  /** No session is being resumed, or it was shown before or in these lines. */
  ghost predicate ShownBy(m: Memory, lines: seq<Line>) {
    || m.expected.None? || m.confirmed
    || exists i :: 0 <= i < |lines| && lines[i] == Json(Session(m.expected.value)) && m.expected.value != ""
  }

  predicate IsEnd(line: Line) { line.Json? && line.event.AgentEnd? }

  ghost predicate LastEnd(lines: seq<Line>, k: nat, messages: seq<Message>) {
    k < |lines| && lines[k] == Json(AgentEnd(messages)) && forall j :: k < j < |lines| ==> !IsEnd(lines[j])
  }

  ghost predicate NoEnd(lines: seq<Line>) {
    forall j :: 0 <= j < |lines| ==> !IsEnd(lines[j])
  }

  predicate IsMessageText(line: Line) {
    line.Json? && line.event.MessageEnd? && line.event.message.assistant && line.event.message.text != ""
  }

  predicate IsTurnText(line: Line) {
    line.Json? && line.event.TurnEnd? && line.event.message.assistant && line.event.message.text != ""
  }

  ghost predicate LastMessageText(lines: seq<Line>, k: nat) {
    k < |lines| && IsMessageText(lines[k]) && forall j :: k < j < |lines| ==> !IsMessageText(lines[j])
  }

  ghost predicate FirstTurnText(lines: seq<Line>, k: nat) {
    k < |lines| && IsTurnText(lines[k]) && forall j :: 0 <= j < k ==> !IsTurnText(lines[j])
  }

  ghost predicate NoMessageText(lines: seq<Line>) {
    forall j :: 0 <= j < |lines| ==> !IsMessageText(lines[j])
  }

  ghost predicate NoTurnText(lines: seq<Line>) {
    forall j :: 0 <= j < |lines| ==> !IsTurnText(lines[j])
  }

  /**
   The stream's text: the last assistant message ended in it, else the first assistant message a turn ended
   with, else nothing.
   */
  ghost predicate StreamSays(lines: seq<Line>, text: string) {
    || (exists k: nat :: LastMessageText(lines, k) && text == Preview(lines[k].event.message.text))
    || (NoMessageText(lines)
        && ((exists k: nat :: FirstTurnText(lines, k) && text == Preview(lines[k].event.message.text))
            || (NoTurnText(lines) && text == "")))
  }

  /** The last message from the assistant that has any text. */
  ghost predicate LastSpeaks(messages: seq<Message>, i: nat) {
    && i < |messages| && messages[i].assistant && messages[i].text != ""
    && forall j :: i < j < |messages| ==> !(messages[j].assistant && messages[j].text != "")
  }

  ghost predicate NobodySpeaks(messages: seq<Message>) {
    forall j :: 0 <= j < |messages| ==> !(messages[j].assistant && messages[j].text != "")
  }

  /** The message of a completed turn: from the last agent_end, else from the stream. */
  ghost predicate Tells(messages: seq<Message>, lines: seq<Line>, message: string) {
    || (exists i: nat :: LastSpeaks(messages, i) && message == Preview(messages[i].text))
    || (NobodySpeaks(messages) && StreamSays(lines, message))
  }

  /** The lines make a turn with this exit status complete with this message. */
  ghost predicate Completes(lines: seq<Line>, rc: Option<int>, message: string) {
    || (&& (rc == None || rc == Some(0))
        && exists k: nat, messages: seq<Message> ::
             && LastEnd(lines, k, messages)
             && (messages == [] || messages[|messages| - 1].stop == Stopped) && Tells(messages, lines, message))
    || (NoEnd(lines) && rc == Some(0) && message != "" && StreamSays(lines, message))
  }

  lemma ReadsOnSnoc(m: Memory, lines: seq<Line>, line: Line)
    ensures ReadsOn(m, lines + [line])
       <==> ReadsOn(m, lines) && !NamesOther(m, line) && MalformedRun(lines + [line]) < 10
  {
    hide MalformedRun;
    var all := lines + [line];
    assert all[..|all|] == all;
    assert forall i :: 0 <= i <= |lines| ==> all[..i] == lines[..i];
    assert all[|lines|] == line;
    if ReadsOn(m, all) {
      forall i | 0 <= i < |lines| ensures !NamesOther(m, lines[i]) {
        assert all[i] == lines[i];
      }
      forall i | 0 <= i <= |lines| ensures MalformedRun(lines[..i]) < 10 {
        assert all[..i] == lines[..i];
      }
    }
  }

  lemma LastStreak(lines: seq<Line>, line: Line)
    ensures MalformedRun(lines + [line])
         == if line.Blank? then MalformedRun(lines) else if line.Malformed? then MalformedRun(lines) + 1 else 0
  {
    assert (lines + [line])[..|lines|] == lines;
  }

  /** What the loop has after lines that do not end it. */
  ghost predicate Took(m: Memory, lines: seq<Line>, r: Reading) {
    && !Ended(r) && r.streak == MalformedRun(lines) && r.memory.expected == m.expected
    && (r.memory.confirmed <==> m.confirmed || (m.expected.Some? && ShownBy(m, lines)))
    && StreamSays(lines, r.memory.last)
    && (r.terminal.None? <==> NoEnd(lines))
    && (r.terminal.Some? ==>
          r.terminal.value.AgentEnd? && exists k: nat :: LastEnd(lines, k, r.terminal.value.messages))
  }

  lemma TookNothing(m: Memory)
    requires m.last == ""
    ensures Took(m, [], Start(m))
  {
  }

  lemma EndSnoc(lines: seq<Line>, line: Line)
    ensures IsEnd(line) ==> LastEnd(lines + [line], |lines|, line.event.messages) && !NoEnd(lines + [line])
    ensures !IsEnd(line) ==>
              && (NoEnd(lines + [line]) <==> NoEnd(lines))
              && forall k: nat, messages: seq<Message> ::
                   LastEnd(lines, k, messages) ==> LastEnd(lines + [line], k, messages)
  {
    var all := lines + [line];
    assert all[|lines|] == line;
    assert forall i :: 0 <= i < |lines| ==> all[i] == lines[i];
    if IsEnd(line) {
      assert IsEnd(all[|lines|]);
    } else if NoEnd(all) {
      forall j | 0 <= j < |lines| ensures !IsEnd(lines[j]) {
        assert all[j] == lines[j];
      }
    }
  }

  lemma MessageTextSnoc(lines: seq<Line>, line: Line)
    ensures var all := lines + [line];
            if IsMessageText(line) then LastMessageText(all, |lines|) && all[|lines|] == line
            else (NoMessageText(all) <==> NoMessageText(lines))
                 && forall k: nat :: LastMessageText(lines, k) ==> LastMessageText(all, k) && all[k] == lines[k]
  {
    hide IsMessageText;
    var all := lines + [line];
    assert all[|lines|] == line && all[..|lines|] == lines;
    if NoMessageText(all) {
      forall j | 0 <= j < |lines| ensures !IsMessageText(lines[j]) {
        assert all[j] == lines[j];
      }
    }
  }

  lemma TurnTextSnoc(lines: seq<Line>, line: Line)
    ensures var all := lines + [line];
            && (IsTurnText(line) && NoTurnText(lines) ==> FirstTurnText(all, |lines|) && all[|lines|] == line)
            && (!IsTurnText(line) && NoTurnText(lines) ==> NoTurnText(all))
            && forall k: nat :: FirstTurnText(lines, k) ==> FirstTurnText(all, k) && all[k] == lines[k]
  {
    hide IsTurnText;
    var all := lines + [line];
    assert all[|lines|] == line && all[..|lines|] == lines;
  }

  lemma TextSnoc(lines: seq<Line>, line: Line, text: string)
    requires StreamSays(lines, text)
    ensures IsMessageText(line) ==> StreamSays(lines + [line], Preview(line.event.message.text))
    ensures IsTurnText(line) && text == "" ==> StreamSays(lines + [line], Preview(line.event.message.text))
    ensures !IsMessageText(line) && !(IsTurnText(line) && text == "") ==> StreamSays(lines + [line], text)
  {
    hide NoMessageText, NoTurnText;
    MessageTextSnoc(lines, line);
    TurnTextSnoc(lines, line);
  }

  lemma ShownSnoc(m: Memory, lines: seq<Line>, line: Line)
    requires m.expected.Some?
    ensures ShownBy(m, lines + [line])
       <==> ShownBy(m, lines) || (line == Json(Session(m.expected.value)) && m.expected.value != "")
  {
    var all := lines + [line];
    assert all[|lines|] == line;
    assert forall i :: 0 <= i < |lines| ==> all[i] == lines[i];
  }

  lemma TookOne(m: Memory, lines: seq<Line>, line: Line, r: Reading)
    requires Took(m, lines, r) && !NamesOther(m, line) && MalformedRun(lines + [line]) < 10
    ensures Took(m, lines + [line], Read(r, line))
  {
    hide MalformedRun, StreamSays, NoEnd, LastEnd, ShownBy;
    LastStreak(lines, line);
    EndSnoc(lines, line);
    TextSnoc(lines, line, r.memory.last);
    if m.expected.Some? {
      ShownSnoc(m, lines, line);
    }
  }

  /** What ends the reading. */
  lemma EndsReading(m: Memory, lines: seq<Line>, line: Line, r: Reading)
    requires Took(m, lines, r) && MalformedRun(lines) < 10
    requires NamesOther(m, line) || MalformedRun(lines + [line]) >= 10
    ensures Ended(Read(r, line)) && (Read(r, line).mismatch <==> NamesOther(m, line))
  {
    hide MalformedRun, StreamSays, NoEnd, LastEnd, ShownBy;
    LastStreak(lines, line);
  }

  /** Another session is named before anything else ends the reading. */
  ghost predicate OtherFirst(m: Memory, lines: seq<Line>) {
    exists k :: 0 <= k < |lines| && NamesOther(m, lines[k]) && ReadsOn(m, lines[..k])
  }

  lemma {:induction false} ReadingTook(m: Memory, lines: seq<Line>)
    requires m.last == ""
    ensures var r := ReadAll(Start(m), lines);
            && (if ReadsOn(m, lines) then Took(m, lines, r) else Ended(r))
            && (r.mismatch <==> OtherFirst(m, lines))
  {
    hide Took, ReadsOn, NamesOther, Read;
    if |lines| == 0 {
      TookNothing(m);
      assert lines == [];
      assert ReadsOn(m, []) by { NothingEnds(m); }
    } else {
      var n := |lines| - 1;
      var before, line := lines[..n], lines[n];
      assert lines == before + [line];
      ReadingTook(m, before);
      ReadsOnSnoc(m, before, line);
      OtherSnoc(m, before, line);
      var r := ReadAll(Start(m), before);
      if ReadsOn(m, before) {
        TookMeans(m, before, r);
        if ReadsOn(m, lines) {
          TookOne(m, before, line, r);
          TookMeans(m, lines, Read(r, line));
        } else {
          EndsReading(m, before, line, r);
        }
      }
    }
  }

  lemma NothingEnds(m: Memory)
    ensures ReadsOn(m, [])
  {
  }

  lemma TookMeans(m: Memory, lines: seq<Line>, r: Reading)
    requires Took(m, lines, r)
    ensures !Ended(r)
    ensures ReadsOn(m, lines) ==> MalformedRun(lines) < 10
  {
    assert lines[..|lines|] == lines;
  }

  lemma OtherSnoc(m: Memory, lines: seq<Line>, line: Line)
    ensures OtherFirst(m, lines + [line]) <==> OtherFirst(m, lines) || (NamesOther(m, line) && ReadsOn(m, lines))
    ensures ReadsOn(m, lines) ==> !OtherFirst(m, lines)
  {
    hide NamesOther, MalformedRun;
    var all := lines + [line];
    assert all[|lines|] == line && all[..|lines|] == lines;
    assert forall k :: 0 <= k < |lines| ==> all[k] == lines[k] && all[..k] == lines[..k];
  }

  lemma {:induction false} AssistantTextSays(messages: seq<Message>)
    ensures var text := LastAssistantText(messages);
            if text == "" then NobodySpeaks(messages)
            else exists i: nat :: LastSpeaks(messages, i) && messages[i].text == text
  {
    if |messages| > 0 {
      var n := |messages| - 1;
      AssistantTextSays(messages[..n]);
      if messages[n].assistant && messages[n].text != "" {
        assert LastSpeaks(messages, n);
      } else if LastAssistantText(messages) != "" {
        var i: nat :| LastSpeaks(messages[..n], i) && messages[..n][i].text == LastAssistantText(messages);
        assert LastSpeaks(messages, i);
      } else {
        forall j | 0 <= j < n ensures !(messages[j].assistant && messages[j].text != "") {
          assert messages[..n][j] == messages[j];
        }
      }
    }
  }

  lemma OneSpeaker(messages: seq<Message>, i: nat, j: nat)
    requires LastSpeaks(messages, i) && LastSpeaks(messages, j)
    ensures i == j && !NobodySpeaks(messages)
  {
  }

  lemma StreamSaysOne(lines: seq<Line>, a: string, b: string)
    requires StreamSays(lines, a) && StreamSays(lines, b)
    ensures a == b
  {
  }

  lemma OneLastEnd(lines: seq<Line>, k: nat, a: seq<Message>, l: nat, b: seq<Message>)
    requires LastEnd(lines, k, a) && LastEnd(lines, l, b)
    ensures a == b && !NoEnd(lines)
  {
  }

  lemma TellsIff(messages: seq<Message>, lines: seq<Line>, last: string, message: string)
    requires StreamSays(lines, last)
    ensures var text := LastAssistantText(messages);
            Tells(messages, lines, message) <==> message == if text != "" then Preview(text) else last
  {
    hide StreamSays, Preview, LastAssistantText;
    AssistantTextSays(messages);
    if StreamSays(lines, message) {
      StreamSaysOne(lines, last, message);
    }
    if LastAssistantText(messages) != "" {
      var i: nat :| LastSpeaks(messages, i) && messages[i].text == LastAssistantText(messages);
      OneSpeaker(messages, i, i);
      forall j: nat | LastSpeaks(messages, j) ensures j == i {
        OneSpeaker(messages, i, j);
      }
    } else {
      forall j: nat ensures !LastSpeaks(messages, j) {
        if LastSpeaks(messages, j) {
          OneSpeaker(messages, j, j);
        }
      }
    }
  }

  lemma CompletesIff(m: Memory, lines: seq<Line>, r: Reading, rc: Option<int>, message: string)
    requires Took(m, lines, r)
    ensures Complete(r.memory, r.terminal, rc).1 == Completed(message)
       <==> ShownBy(m, lines) && Completes(lines, rc, message)
  {
    hide StreamSays, Tells, NoEnd, LastEnd, ShownBy, LastAssistantText, Preview;
    ShownIsConfirmed(m, lines, r);
    if r.terminal.Some? {
      var messages := r.terminal.value.messages;
      var k: nat :| LastEnd(lines, k, messages);
      TellsIff(messages, lines, r.memory.last, message);
      forall l: nat, other | LastEnd(lines, l, other) ensures other == messages {
        OneLastEnd(lines, k, messages, l, other);
      }
    } else {
      if StreamSays(lines, message) {
        StreamSaysOne(lines, r.memory.last, message);
      }
      forall l: nat, other ensures !LastEnd(lines, l, other) {
        if LastEnd(lines, l, other) {
          OneLastEnd(lines, l, other, l, other);
        }
      }
    }
  }

  lemma ShownIsConfirmed(m: Memory, lines: seq<Line>, r: Reading)
    requires Took(m, lines, r)
    ensures Unconfirmed(r.memory) <==> !ShownBy(m, lines)
    ensures r.memory.last == Confirmed(r.memory).last
  {
  }

  /**
   A turn completes, with this message, if and only if the child came up, nothing in its lines ended the
   reading, it did not time out, a session being resumed was shown, and either the last agent_end ends without
   an error and the status is clean, or there is none, the status is 0 and the stream has text.
   */
  lemma CompletedIff(m: Memory, t: Turn, message: string)
    ensures Play(m, t).1 == Completed(message)
       <==> t.spawned && ReadsOn(m, t.lines) && !t.timedOut && ShownBy(m, t.lines) && Completes(t.lines, t.rc, message)
  {
    hide ReadAll, ReadsOn, Took, Complete, Completes, ShownBy, OtherFirst;
    var start := Commanded(m);
    ReadingTook(start, t.lines);
    SameExpectation(m, start, t.lines);
    TerminalIsAgentEnd(Start(start), t.lines);
    var r := ReadAll(Start(start), t.lines);
    if ReadsOn(m, t.lines) {
      TookMeans(start, t.lines, r);
      CompletesIff(start, t.lines, r, t.rc, message);
    }
  }

  lemma SameExpectation(m: Memory, n: Memory, lines: seq<Line>)
    requires m.expected == n.expected && m.confirmed == n.confirmed
    ensures ReadsOn(m, lines) <==> ReadsOn(n, lines)
    ensures ShownBy(m, lines) <==> ShownBy(n, lines)
    ensures OtherFirst(m, lines) <==> OtherFirst(n, lines)
  {
    hide MalformedRun;
    assert forall line :: NamesOther(m, line) <==> NamesOther(n, line);
    assert forall k :: 0 <= k <= |lines| ==> (ReadsOn(m, lines[..k]) <==> ReadsOn(n, lines[..k]));
    assert lines[..|lines|] == lines;
  }

  /** It times out if and only if the clock ran out before another session was named. */
  lemma TimedOutIff(m: Memory, t: Turn)
    ensures Play(m, t).1 == TimedOut <==> t.spawned && t.timedOut && !OtherFirst(m, t.lines)
  {
    hide ReadAll, ReadsOn, Took, OtherFirst;
    ReadingTook(Commanded(m), t.lines);
    SameExpectation(m, Commanded(m), t.lines);
    TerminalIsAgentEnd(Start(Commanded(m)), t.lines);
  }

  /** The text reported is the message's own beginning, whole up to 400 characters. */
  lemma PreviewIs(text: string)
    ensures Preview(text) <= text
    ensures |Preview(text)| == (if |text| < 400 then |text| else 400)
  {
  }

  // ---------------------------------------------------------------------
  // What a turn leaves for the next
  // ---------------------------------------------------------------------

  predicate Names(line: Line) { line.Json? && line.event.Session? && line.event.id != "" }

  /** The last session named in the lines. */
  ghost predicate LastNamed(lines: seq<Line>, k: nat) {
    k < |lines| && Names(lines[k]) && forall j :: k < j < |lines| ==> !Names(lines[j])
  }

  /** The stream's last session becomes the backend's, unless it names none. */
  ghost predicate Adopts(m: Memory, lines: seq<Line>, session: Option<SessionId>) {
    || (exists k: nat :: LastNamed(lines, k) && session == Some(lines[k].event.id))
    || ((forall j :: 0 <= j < |lines| ==> !Names(lines[j])) && session == m.session)
  }

  lemma AdoptsOne(m: Memory, lines: seq<Line>, line: Line, r: Reading)
    requires !Ended(r) && Adopts(m, lines, r.memory.session) && !Read(r, line).mismatch
    ensures Adopts(m, lines + [line], Read(r, line).memory.session)
  {
    var all, next := lines + [line], Read(r, line);
    assert all[|lines|] == line;
    assert forall j :: 0 <= j < |lines| ==> all[j] == lines[j];
    if Names(line) {
      assert LastNamed(all, |lines|) && next.memory.session == Some(line.event.id);
    } else {
      assert next.memory.session == r.memory.session;
      if k: nat :| LastNamed(lines, k) && r.memory.session == Some(lines[k].event.id) {
        assert LastNamed(all, k);
      }
    }
  }

  lemma {:induction false} SessionIsLastNamed(m: Memory, lines: seq<Line>)
    requires !Ended(ReadAll(Start(m), lines))
    ensures Adopts(m, lines, ReadAll(Start(m), lines).memory.session)
  {
    hide Read, Adopts;
    if |lines| == 0 {
      NothingNamed(m);
    } else {
      var n := |lines| - 1;
      assert lines == lines[..n] + [lines[n]];
      SessionIsLastNamed(m, lines[..n]);
      AdoptsOne(m, lines[..n], lines[n], ReadAll(Start(m), lines[..n]));
    }
  }

  lemma NothingNamed(m: Memory)
    ensures Adopts(m, [], ReadAll(Start(m), []).memory.session)
  {
  }

  /**
   A completed turn has met what was expected: the next turn may show any session,
   and carries the flag only as a continuation. Its session is the last one named.
   */
  lemma CompletedTurnSettles(m: Memory, t: Turn)
    requires Play(m, t).1.Completed?
    ensures var after := Play(m, t).0;
            && after.expected == None && !after.resumeNext && Play(m, t).1.message == after.last
            && (m.expected.Some? ==> !after.confirmed)
            && Adopts(m, t.lines, after.session)
            && (forall next: Turn, acrossTurns: bool ::
                  Resumes(after, next, acrossTurns) <==> next.continuation && acrossTurns && after.session.Some?)
  {
    hide ReadAll, Adopts;
    var start := Start(Commanded(m));
    TerminalIsAgentEnd(start, t.lines);
    ResumeNextCleared(m, t);
    SessionIsLastNamed(Commanded(m), t.lines);
    AdoptsSame(m, t.lines, ReadAll(start, t.lines).memory.session);
    KeepsExpected(start, t.lines);
  }

  lemma AdoptsSame(m: Memory, lines: seq<Line>, session: Option<SessionId>)
    requires Adopts(Commanded(m), lines, session)
    ensures Adopts(m, lines, session)
  {
  }

  lemma {:induction false} KeepsExpected(r: Reading, lines: seq<Line>)
    ensures ReadAll(r, lines).memory.expected == r.memory.expected
  {
    if |lines| > 0 {
      KeepsExpected(r, lines[..|lines| - 1]);
    }
  }
}
