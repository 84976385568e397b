/**
 Request ids and responses on an ACP line stream (src/symphony/backends/acp.py):
 callers sending and giving up, and the reader matching responses, interleaved
 in any order.
 */
module AcpRpc {
  import opened Prelude

  /** A JSON id. Python takes true and false for integers, equal to 1 and 0. */
  datatype JsonId = Int(n: int) | Bool(b: bool) | OtherId

  /** NoName: absent, null or empty. NotText: anything else that is no string. */
  datatype Method = NoName | Name(text: string) | NotText

  datatype Message = Message(id: Option<JsonId>, name: Method, body: nat)

  datatype Line = Blank | Malformed | NotObject | Json(message: Message)

  /**
   A request's future. Cancelled: its caller's wait timed out, which cancels it before the
   request is taken out of the table.
   */
  datatype Outcome = Waiting | Reply(message: Message) | Died | Cancelled

  /** streak: malformed lines in a row, None once the stream has ended. */
  datatype State = State(nextId: nat, pending: set<nat>, futures: map<nat, Outcome>, streak: Option<nat>)

  /**
   How the write of a request ends: its drain returned, the pipe is closed, or the
   caller was cancelled or failed otherwise.
   */
  datatype Drain = Written | PipeClosed | Interrupted

  /**
   Register: a caller puts a request in the table and starts to write it. Drained:
   that write is over. GiveUp: the caller's wait times out. Forget: the caller is done
   waiting. Ended: end of file, a read error or a cancelled reader.
   */
  datatype Event =
    | Register
    | Drained(id: nat, drain: Drain)
    | GiveUp(id: nat)
    | Forget(id: nat)
    | Read(line: Line)
    | Ended
    | NewReader

  const LIMIT := 10
  const INIT := State(1, {}, map[], None)

  function Key(id: JsonId): Option<int> {
    match id
    case Int(n) => Some(n)
    case Bool(b) => Some(if b then 1 else 0)
    case OtherId => None
  }

  predicate IsResponse(m: Message) { m.id.Some? && m.name == NoName }

  /** The request a message answers by its id, if any. */
  function Answers(m: Message): Option<int> {
    if IsResponse(m) then Key(m.id.value) else None
  }

  function Dispatched(s: State, m: Message): State {
    var key := Answers(m);
    if key.Some? && key.value in s.pending && key.value in s.futures && s.futures[key.value] == Waiting
    then s.(futures := s.futures[key.value := Reply(m)])
    else s
  }

  /** Everything pending fails when the stream ends. */
  function Closed(s: State): State {
    s.(streak := None,
       futures := map i | i in s.futures ::
                    if i in s.pending && s.futures[i] == Waiting then Died else s.futures[i])
  }

  function Step(s: State, e: Event): State {
    match e
    case Register => State(s.nextId + 1, s.pending + {s.nextId}, s.futures[s.nextId := Waiting], s.streak)
    case Drained(id, drain) => if drain == PipeClosed then s.(pending := s.pending - {id}) else s
    case GiveUp(id) =>
      if id in s.futures && s.futures[id] == Waiting then s.(futures := s.futures[id := Cancelled]) else s
    case Forget(id) => s.(pending := s.pending - {id})
    case NewReader => if s.streak.None? then s.(streak := Some(0)) else s
    case Ended => if s.streak.None? then s else Closed(s)
    case Read(line) =>
      if s.streak.None? then s
      else
        (match line
         case Blank => s
         case Malformed =>
           if s.streak.value + 1 >= LIMIT then Closed(s) else s.(streak := Some(s.streak.value + 1))
         case NotObject => s.(streak := Some(0))
         case Json(m) => Dispatched(s.(streak := Some(0)), m))
  }

  function Run(s: State, events: seq<Event>): State {
    if |events| == 0 then s else Step(Run(s, events[..|events| - 1]), events[|events| - 1])
  }

  // ---------------------------------------------------------------------
  // The backend's request table
  // ---------------------------------------------------------------------

  class RequestTable {
    var nextId: nat
    var pending: set<nat>
    var futures: map<nat, Outcome>
    var streak: Option<nat>

    ghost function View(): State
      reads this
    {
      State(nextId, pending, futures, streak)
    }

    constructor ()
      ensures View() == INIT
    {
      nextId, pending, futures, streak := 1, {}, map[], None;
    }

    /** _send_request up to the write: the request is in the table before anything of it is sent. */
    method RegisterRequest() returns (id: nat)
      modifies this
      ensures View() == Step(old(View()), Register)
      ensures id == old(nextId)
    {
      id := nextId;
      nextId := nextId + 1;
      futures := futures[id := Waiting];
      pending := pending + {id};
    }

    /** The rest of it: only a closed pipe takes the request back. */
    method WriteReturned(id: nat, drain: Drain) returns (sent: bool)
      modifies this
      ensures View() == Step(old(View()), Drained(id, drain))
      ensures sent <==> drain == Written
    {
      if drain == PipeClosed {
        pending := pending - {id};
        return false;
      }
      return drain == Written;
    }

    /** asyncio.wait_for on the future ran out of time. */
    method WaitTimedOut(id: nat)
      requires id in futures
      modifies `futures
      ensures View() == Step(old(View()), GiveUp(id))
    {
      if futures[id] == Waiting {
        futures := futures[id := Cancelled];
      }
    }

    method ForgetRequest(id: nat)
      modifies this
      ensures View() == Step(old(View()), Forget(id))
    {
      pending := pending - {id};
    }

    method StartReader()
      requires streak.None?
      modifies this
      ensures View() == Step(old(View()), NewReader)
    {
      streak := Some(0);
    }

    method ReadLine(line: Line) returns (stopped: bool)
      requires streak.Some? && pending <= futures.Keys
      modifies this
      ensures View() == Step(old(View()), Read(line))
      ensures stopped <==> streak.None?
    {
      match line {
        case Blank =>
        case Malformed =>
          streak := Some(streak.value + 1);
          if streak.value >= LIMIT {
            FailPending();
          }
        case NotObject =>
          streak := Some(0);
        case Json(m) =>
          streak := Some(0);
          Dispatch(m);
      }
      stopped := streak.None?;
    }

    method Dispatch(m: Message)
      requires pending <= futures.Keys
      modifies `futures
      ensures View() == Dispatched(old(View()), m)
    {
      if m.id.Some? && m.name == NoName {
        var key := Key(m.id.value);
        if key.Some? && key.value in pending && futures[key.value] == Waiting {
          futures := futures[key.value := Reply(m)];
        }
      }
    }

    /** The reader's finally clause. */
    method FailPending()
      requires pending <= futures.Keys
      modifies `futures, `streak
      ensures View() == Closed(old(View()))
    {
      hide Closed;
      var left := pending;
      while left != {}
        invariant left <= pending && futures.Keys == old(futures).Keys
        invariant forall i :: i in futures ==>
                    futures[i] == if i in pending - left && old(futures)[i] == Waiting then Died else old(futures)[i]
        decreases |left|
      {
        var i :| i in left;
        left := left - {i};
        if futures[i] == Waiting {
          futures := futures[i := Died];
        }
      }
      streak := None;
      ClosedFutures(old(View()), futures);
    }
  }

  lemma ClosedFutures(s: State, futures: map<nat, Outcome>)
    requires s.pending <= s.futures.Keys == futures.Keys
    requires forall i :: i in futures ==>
               futures[i] == if i in s.pending && s.futures[i] == Waiting then Died else s.futures[i]
    ensures Closed(s) == s.(streak := None, futures := futures)
  {
    assert Closed(s).futures == futures;
  }

  // ---------------------------------------------------------------------
  // Every interleaving
  // ---------------------------------------------------------------------

  ghost predicate Invariant(s: State) {
    && s.nextId >= 1 && s.pending <= s.futures.Keys
    && forall i :: i in s.futures ==> 1 <= i < s.nextId
  }

  lemma {:induction false} RunKeepsInvariant(events: seq<Event>)
    ensures Invariant(Run(INIT, events))
  {
    if |events| > 0 {
      RunKeepsInvariant(events[..|events| - 1]);
      StepKeepsInvariant(Run(INIT, events[..|events| - 1]), events[|events| - 1]);
    }
  }

  /** A request's id was never used before, also across restarts of the agent. */
  lemma IdsAreNeverReused(events: seq<Event>)
    ensures var s := Run(INIT, events);
            && Step(s, Register).futures.Keys == s.futures.Keys + {s.nextId}
            && s.nextId !in s.futures && s.nextId !in s.pending
  {
    RunKeepsInvariant(events);
  }

  /** This event takes the request out of the table. */
  predicate Releases(e: Event, i: nat) {
    e == Forget(i) || e == Drained(i, PipeClosed)
  }

  /**
   In every run a request is pending from its registration, while it is still being
   written, until its caller forgets it or finds the pipe closed, and no longer.
   */
  lemma {:induction false} PendingIff(events: seq<Event>, i: nat)
    ensures i in Run(INIT, events).pending
       <==> exists k: nat :: k < |events| && RegisteredAt(events, i, k)
                         && forall j :: k < j < |events| ==> !Releases(events[j], i)
  {
    hide Step, Run;
    NothingRun(INIT);
    if |events| > 0 {
      var n := |events| - 1;
      PendingIff(events[..n], i);
      RunStep(INIT, events);
      RunKeepsInvariant(events[..n]);
      PendingStep(Run(INIT, events[..n]), events[n], i);
      forall k: nat | k < n ensures RegisteredAt(events, i, k) <==> RegisteredAt(events[..n], i, k) {
        assert events[..n][..k] == events[..k];
      }
      if RegisteredAt(events, i, n) {
        assert i in Run(INIT, events).pending;
      } else if i in Run(INIT, events).pending {
        var k: nat :| k < n && RegisteredAt(events[..n], i, k)
                      && forall j :: k < j < n ==> !Releases(events[..n][j], i);
        assert RegisteredAt(events, i, k);
        assert forall j :: k < j < n ==> events[..n][j] == events[j];
      }
    }
  }

  /** The event at k put request i in the table. */
  predicate RegisteredAt(events: seq<Event>, i: nat, k: nat)
    requires k < |events|
  {
    events[k] == Register && Run(INIT, events[..k]).nextId == i
  }

  lemma NothingRun(s: State)
    ensures Run(s, []) == s
  {
  }

  lemma RunStep(s: State, events: seq<Event>)
    requires |events| > 0
    ensures Run(s, events) == Step(Run(s, events[..|events| - 1]), events[|events| - 1])
  {
  }

  lemma PendingStep(s: State, e: Event, i: nat)
    requires Invariant(s)
    ensures i in Step(s, e).pending <==> (i in s.pending && !Releases(e, i)) || (e == Register && s.nextId == i)
    ensures e == Register && s.nextId == i ==> i !in s.pending && !Releases(e, i)
  {
  }

  /** The stream ends on this event. */
  predicate Ends(s: State, e: Event) {
    s.streak.Some? && (e == Ended || (e == Read(Malformed) && s.streak.value + 1 >= LIMIT))
  }

  /**
   Exactly when the future of a request sent before is settled, and how: by its caller's
   timeout; or, while it is waited for, by a response that carries its id or by the end of
   the stream.
   */
  lemma SettledIff(s: State, e: Event, i: nat)
    requires Invariant(s) && i in s.futures
    ensures i in Step(s, e).futures
    ensures Step(s, e).futures[i] != s.futures[i]
       <==> && s.futures[i] == Waiting
            && (|| e == GiveUp(i)
                || (i in s.pending && Ends(s, e))
                || (i in s.pending && s.streak.Some? && e.Read? && e.line.Json? && Answers(e.line.message) == Some(i)))
    ensures Step(s, e).futures[i] != s.futures[i] ==>
              Step(s, e).futures[i]
              == if e.GiveUp? then Cancelled else if Ends(s, e) then Died else Reply(e.line.message)
  {
  }

  /**
   A response that comes after the timeout settles nothing, though the request may still be
   in the table.
   */
  lemma LateReplyIsLost(s: State, m: Message, i: nat)
    requires Invariant(s) && i in s.futures && s.futures[i] == Waiting
    ensures var late := Step(s, GiveUp(i));
            && late.pending == s.pending
            && Step(late, Read(Json(m))).futures[i] == Cancelled
            && (s.streak.Some? && Answers(m) == Some(i) && i in s.pending ==>
                  Step(s, Read(Json(m))).futures[i] == Reply(m))
  {
  }

  /** Whatever happens later, an outcome stands. */
  lemma {:induction false} OutcomeIsFinal(events: seq<Event>, more: seq<Event>, i: nat)
    requires var s := Run(INIT, events); i in s.futures && s.futures[i] != Waiting
    ensures var s := Run(INIT, events);
            var t := Run(s, more);
            Invariant(t) && i in t.futures && t.futures[i] == s.futures[i]
  {
    hide Step;
    RunKeepsInvariant(events);
    if |more| > 0 {
      OutcomeIsFinal(events, more[..|more| - 1], i);
      var before := Run(Run(INIT, events), more[..|more| - 1]);
      SettledIff(before, more[|more| - 1], i);
      StepKeepsInvariant(before, more[|more| - 1]);
    }
  }

  lemma StepKeepsInvariant(s: State, e: Event)
    requires Invariant(s)
    ensures Invariant(Step(s, e))
  {
  }

  /**
   A reply reached its request as a response with that request's id, read while
   the request was pending.
   */
  lemma {:induction false} ReplyWasForRequest(events: seq<Event>, i: nat)
    requires var s := Run(INIT, events); i in s.futures && s.futures[i].Reply?
    ensures exists k :: 0 <= k < |events|
              && events[k] == Read(Json(Run(INIT, events).futures[i].message))
              && Answers(Run(INIT, events).futures[i].message) == Some(i)
              && i in Run(INIT, events[..k]).pending
  {
    hide Step, Invariant;
    var n := |events| - 1;
    if |events| > 0 {
      var before, e := Run(INIT, events[..n]), events[n];
      RunKeepsInvariant(events[..n]);
      if i in before.futures && before.futures[i] == Run(INIT, events).futures[i] {
        ReplyWasForRequest(events[..n], i);
        var k :| 0 <= k < n && events[..n][k] == Read(Json(before.futures[i].message))
                 && Answers(before.futures[i].message) == Some(i) && i in Run(INIT, events[..n][..k]).pending;
        assert events[..n][..k] == events[..k];
      } else {
        NewReply(before, e, i);
      }
    }
  }

  lemma NewReply(s: State, e: Event, i: nat)
    requires Invariant(s) && i in Step(s, e).futures && Step(s, e).futures[i].Reply?
    requires i in s.futures ==> s.futures[i] != Step(s, e).futures[i]
    ensures e == Read(Json(Step(s, e).futures[i].message))
    ensures Answers(Step(s, e).futures[i].message) == Some(i) && i in s.pending
  {
  }

  /**
   A request counts from its registration, so a response read while it is still
   being written reaches it; a write that then fails only takes it out of the table.
   */
  lemma ReplyDuringWrite(s: State, m: Message, drain: Drain)
    requires Invariant(s) && s.streak.Some? && Answers(m) == Some(s.nextId)
    ensures var replied := Step(Step(s, Register), Read(Json(m)));
            var done := Step(replied, Drained(s.nextId, drain));
            && replied.futures[s.nextId] == Reply(m)
            && s.nextId in done.futures && done.futures[s.nextId] == Reply(m)
            && (s.nextId in done.pending <==> drain != PipeClosed)
  {
  }

  /**
   The id in the response is the very id that was sent, unless it is a boolean:
   `true` answers request 1.
   */
  lemma OwnIdIff(m: Message, i: nat)
    requires Answers(m) == Some(i)
    ensures m.id == Some(Int(i)) <==> !m.id.value.Bool?
    ensures m.id.value.Bool? ==> i == 0 || i == 1
  {
  }

  lemma TrueAnswersFirstRequest(body: nat)
    ensures var m := Message(Some(Bool(true)), NoName, body);
            var s := Step(Step(INIT, NewReader), Register);
            s.futures[1] == Waiting && Step(s, Read(Json(m))).futures[1] == Reply(m)
  {
  }

  /** Nothing pending is left waiting when the stream ends. */
  lemma EndFailsAllPending(events: seq<Event>, e: Event)
    requires Ends(Run(INIT, events), e)
    ensures var s := Run(INIT, events);
            var t := Step(s, e);
            && t.streak.None? && t.pending == s.pending
            && forall i :: i in s.pending ==>
                 i in t.futures && t.futures[i] == if s.futures[i] == Waiting then Died else s.futures[i]
  {
    RunKeepsInvariant(events);
  }

  /**
   Late and unknown responses, and requests from the agent whatever their id,
   settle nothing.
   */
  lemma StrayMessagesSettleNothing(s: State, m: Message)
    requires Answers(m).None? || Answers(m).value !in s.pending
    ensures Step(s, Read(Json(m))).futures == s.futures
  {
  }

  ghost function MalformedIn(events: seq<Event>): nat {
    if |events| == 0 then 0
    else MalformedIn(events[..|events| - 1]) + if events[|events| - 1] == Read(Malformed) then 1 else 0
  }

  /**
   Ten malformed lines in a row end the stream, blank lines between them or
   not, and fewer do not.
   */
  lemma {:induction false} TenMalformedEnd(s: State, lines: seq<Event>)
    requires s.streak == Some(0)
    requires forall k :: 0 <= k < |lines| ==> lines[k] == Read(Malformed) || lines[k] == Read(Blank)
    ensures Run(s, lines).streak == if MalformedIn(lines) >= 10 then None else Some(MalformedIn(lines))
  {
    if |lines| > 0 {
      TenMalformedEnd(s, lines[..|lines| - 1]);
    }
  }

  /** A message answers request i exactly when it names no method and its id is i, or a boolean Python counts as i. */
  lemma AnswersIff(m: Message, i: int)
    ensures Answers(m) == Some(i)
       <==> && m.name == NoName
            && (|| m.id == Some(Int(i))
                || (i == 1 && m.id == Some(Bool(true)))
                || (i == 0 && m.id == Some(Bool(false))))
  {
  }

  /** In every run: a message that names a method, a null, textual or fractional id, and the id false settle nothing. */
  lemma OnlyIntegersAndTrueAnswer(events: seq<Event>, m: Message)
    requires m.name != NoName || m.id.None? || m.id == Some(OtherId) || m.id == Some(Bool(false))
    ensures Step(Run(INIT, events), Read(Json(m))).futures == Run(INIT, events).futures
  {
    RunKeepsInvariant(events);
  }
}
