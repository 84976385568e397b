/**
 The gated launch of a Windows backend (src/symphony/_windows_backend.py): the
 host's side (spawn_backend) and the supervisor's (_main), joined by a pipe
 that delivers what the host wrote in pieces of any size.
 */
module WindowsGate {
  import opened Prelude

  type Bytes = seq<char>

  const GO: Bytes := "SYMPHONY-GO-v1\n"
  const READY: Bytes := "SYMPHONY-READY-v1 "

  function ReadyFrame(identity: Bytes): Bytes { READY + identity + "\n" }

  /** What the ownership callback answers; no callback answers Nothing. */
  datatype Answer = Yes | No | Nothing

  predicate Accepted(answer: Answer, requireDurable: bool) {
    answer != No && (requireDurable ==> answer == Yes)
  }

  // ---------------------------------------------------------------------
  // The supervisor's read loop
  // ---------------------------------------------------------------------

  /**
   Reads of at most the missing length, each possibly short, up to the whole
   frame or the end of the stream. `cuts` are the sizes the reads return.
   */
  method ReadFrame(stdin: Bytes, cuts: seq<nat>) returns (frame: Bytes, position: nat, aborted: bool)
    ensures position <= |stdin| && frame == stdin[..position] && position <= |GO|
    ensures !aborted ==> position == |GO|
    ensures aborted ==> position == |stdin| < |GO|
  {
    hide GO;
    frame, position, aborted := [], 0, false;
    var i := 0;
    while |frame| < |GO|
      invariant position <= |stdin| && frame == stdin[..position] && position <= |GO|
      invariant i <= position
      decreases |GO| - |frame|
    {
      var most := |GO| - |frame|;
      var available := |stdin| - position;
      var size := if i < |cuts| && 1 <= cuts[i] <= most && cuts[i] <= available then cuts[i]
                  else if most <= available then most else available;
      var chunk := stdin[position..position + size];
      if chunk == [] {
        aborted := true;
        return;
      }
      frame := frame + chunk;
      position := position + size;
      i := i + 1;
    }
  }

  /**
   The child starts exactly when the stream begins with GO, and its stdin is
   everything after it, however the reads were cut.
   */
  method Gate(stdin: Bytes, cuts: seq<nat>) returns (started: bool, childStdin: Bytes)
    ensures started <==> GO <= stdin
    ensures started ==> GO + childStdin == stdin
  {
    hide GO;
    var frame, position, aborted := ReadFrame(stdin, cuts);
    childStdin := stdin[position..];
    started := !aborted && frame == GO;
    if started {
      assert stdin == stdin[..position] + stdin[position..];
    }
    assert GO <= stdin ==> stdin[..|GO|] == GO;
  }

  // ---------------------------------------------------------------------
  // Both sides
  // ---------------------------------------------------------------------

  /** How far spawn_backend has got; Failed: it raised and is terminating the tree. */
  datatype Host = AwaitingReady | Identified | Owned | Announced | Sent | Launched | Failed | Dead

  datatype Supervisor = Starting | Reading(frame: Bytes) | Running | Aborted

  /**
   written: what the host put into the supervisor's stdin; taken: how much of it
   the supervisor has read.
   */
  datatype State = State(
    host: Host, supervisor: Supervisor, written: Bytes, taken: nat, answer: Option<Answer>, published: bool)

  datatype Launch = Launch(identity: Bytes, requireDurable: bool, pipeStdin: bool)

  /**
   HostFails: a timeout, a cancellation or any other exception on the host's
   side. SupervisorAborts: the timer, the owner's death, or anything else.
   */
  datatype Event =
    | SupervisorReady
    | HostReads(received: Bytes)
    | CallbackAnswers(answer: Answer)
    | Publishes
    | SendsGo
    | Drains
    | WritesPayload(payload: Bytes)
    | HostFails
    | HostDies
    | SupervisorReads(size: nat)
    | SupervisorSeesEnd
    | SupervisorDecides
    | SupervisorAborts

  const INIT := State(AwaitingReady, Starting, [], 0, None, false)

  predicate Gone(h: Host) { h == Failed || h == Dead }

  function Step(l: Launch, s: State, e: Event): State {
    match e
    case SupervisorReady =>
      if s.supervisor.Starting? then s.(supervisor := Reading([])) else s
    case HostReads(received) =>
      if s.host.AwaitingReady? then
        s.(host := if received == ReadyFrame(l.identity) then Identified else Failed)
      else s
    case CallbackAnswers(answer) =>
      if s.host.Identified? then
        s.(host := if Accepted(answer, l.requireDurable) then Owned else Failed, answer := Some(answer))
      else s
    case Publishes => if s.host.Owned? then s.(host := Announced, published := true) else s
    case SendsGo => if s.host.Announced? then s.(host := Sent, written := s.written + GO) else s
    case Drains => if s.host.Sent? then s.(host := Launched) else s
    case WritesPayload(payload) =>
      if s.host.Launched? && l.pipeStdin then s.(written := s.written + payload) else s
    case HostFails => if s.host.Launched? || Gone(s.host) then s else s.(host := Failed)
    case HostDies => s.(host := Dead)
    case SupervisorReads(size) =>
      if s.supervisor.Reading? && 1 <= size && size <= |GO| - |s.supervisor.frame| && s.taken + size <= |s.written|
      then s.(supervisor := Reading(s.supervisor.frame + s.written[s.taken..s.taken + size]), taken := s.taken + size)
      else s
    case SupervisorSeesEnd =>
      if s.supervisor.Reading? && |s.supervisor.frame| < |GO| && s.taken >= |s.written| && Gone(s.host)
      then s.(supervisor := Aborted) else s
    case SupervisorDecides =>
      if s.supervisor.Reading? && |s.supervisor.frame| >= |GO|
      then s.(supervisor := if s.supervisor.frame == GO then Running else Aborted) else s
    case SupervisorAborts => s.(supervisor := Aborted)
  }

  function Run(l: Launch, s: State, events: seq<Event>): State {
    if |events| == 0 then s else Step(l, Run(l, s, events[..|events| - 1]), events[|events| - 1])
  }

  // ---------------------------------------------------------------------
  // The two programs: one method per step
  // ---------------------------------------------------------------------

  class GatedLaunch {
    const launch: Launch
    var host: Host
    var supervisor: Supervisor
    var written: Bytes
    var taken: nat
    var answer: Option<Answer>
    var published: bool

    ghost function View(): State
      reads this
    {
      State(host, supervisor, written, taken, answer, published)
    }

    constructor (launch: Launch)
      ensures View() == INIT && this.launch == launch
    {
      this.launch := launch;
      host, supervisor, written, taken, answer, published := AwaitingReady, Starting, [], 0, None, false;
    }

    /** The host: exactly the expected number of bytes, or an exception. */
    method CheckReady(received: Bytes)
      requires host.AwaitingReady?
      modifies this
      ensures View() == Step(launch, old(View()), HostReads(received))
    {
      host := if received == ReadyFrame(launch.identity) then Identified else Failed;
    }

    /** No callback leaves the acknowledgement at nothing. */
    method RecordOwnership(reply: Answer)
      requires host.Identified?
      modifies this
      ensures View() == Step(launch, old(View()), CallbackAnswers(reply))
    {
      answer := Some(reply);
      host := if reply == No || (launch.requireDurable && reply != Yes) then Failed else Owned;
    }

    method PublishStarted()
      requires host.Owned?
      modifies this
      ensures View() == Step(launch, old(View()), Publishes)
    {
      published := true;
      host := Announced;
    }

    method SendGo()
      requires host.Announced?
      modifies this
      ensures View() == Step(launch, old(View()), SendsGo)
    {
      written := written + GO;
      host := Sent;
    }

    method DrainGo()
      requires host.Sent?
      modifies this
      ensures View() == Step(launch, old(View()), Drains)
    {
      host := Launched;
    }

    /** The supervisor: one read of at most what the frame still lacks. */
    method ReadChunk(size: nat)
      requires supervisor.Reading? && 1 <= size <= |GO| - |supervisor.frame| && taken + size <= |written|
      modifies this
      ensures View() == Step(launch, old(View()), Event.SupervisorReads(size))
    {
      hide GO;
      var chunk := written[taken..taken + size];
      supervisor := Reading(supervisor.frame + chunk);
      taken := taken + size;
    }

    method StartOrAbort() returns (started: bool)
      requires supervisor.Reading? && |supervisor.frame| >= |GO|
      modifies this
      ensures View() == Step(launch, old(View()), SupervisorDecides)
      ensures started <==> supervisor.Running?
    {
      hide GO;
      started := supervisor.frame == GO;
      supervisor := if started then Running else Aborted;
    }
  }

  /** The host wrote nothing, or GO first, and GO only when the launch was owned and published. */
  ghost predicate Written(l: Launch, s: State) {
    && (s.written == [] || GO <= s.written)
    && (s.written != [] ==> s.published)
    && (s.published ==> s.answer.Some? && Accepted(s.answer.value, l.requireDurable))
    && (s.host.Owned? ==> s.answer.Some? && Accepted(s.answer.value, l.requireDurable))
    && (s.host.Announced? ==> s.published && s.written == [])
    && (s.host.AwaitingReady? || s.host.Identified? || s.host.Owned? ==> s.written == [] && !s.published)
    && (s.host.Sent? || s.host.Launched? ==> s.written != [])
  }

  /** The supervisor has taken exactly its frame. */
  ghost predicate Taken(s: State) {
    && s.taken <= |s.written|
    && (s.supervisor.Starting? ==> s.taken == 0)
    && (s.supervisor.Reading? ==> s.supervisor.frame == s.written[..s.taken] && s.taken <= |GO|)
    && (s.supervisor.Running? ==> s.taken == |GO| && GO <= s.written)
  }

  lemma StepKeepsWritten(l: Launch, s: State, e: Event)
    requires Written(l, s)
    ensures Written(l, Step(l, s, e)) && s.written <= Step(l, s, e).written
  {
    hide GO, ReadyFrame;
    GoIsNotEmpty();
  }

  lemma GoIsNotEmpty()
    ensures |GO| > 0
  {
  }

  lemma StepKeepsTaken(l: Launch, s: State, e: Event)
    requires Written(l, s) && Taken(s)
    ensures Taken(Step(l, s, e))
  {
    hide GO, ReadyFrame, Written;
    StepKeepsWritten(l, s, e);
    var next := Step(l, s, e);
    assert next.written[..s.taken] == s.written[..s.taken];
    match e {
      case SupervisorReads(size) =>
        if next.taken != s.taken {
          assert s.written[..s.taken] + s.written[s.taken..s.taken + size] == s.written[..s.taken + size];
        }
      case SupervisorDecides =>
        if next.supervisor.Running? && s.supervisor.Reading? {
          assert s.written[..s.taken] == GO;
        }
      case _ =>
    }
  }

  lemma {:induction false} RunKeepsInvariant(l: Launch, events: seq<Event>)
    ensures Written(l, Run(l, INIT, events)) && Taken(Run(l, INIT, events))
  {
    hide Written, Taken, Step;
    if |events| == 0 {
      StartHolds(l);
    } else {
      var before := Run(l, INIT, events[..|events| - 1]);
      RunKeepsInvariant(l, events[..|events| - 1]);
      StepKeepsWritten(l, before, events[|events| - 1]);
      StepKeepsTaken(l, before, events[|events| - 1]);
    }
  }

  lemma StartHolds(l: Launch)
    ensures Written(l, INIT) && Taken(INIT)
  {
    hide GO;
  }

  /**
   In every interleaving the child starts only after the callback accepted
   ownership (positively, when it must be durable), the launch was published and
   GO was sent; and its stdin is everything the host wrote after GO.
   */
  lemma ChildStartsOwned(l: Launch, events: seq<Event>)
    requires Run(l, INIT, events).supervisor.Running?
    ensures var s := Run(l, INIT, events);
            && s.answer.Some? && s.answer.value != No && (l.requireDurable ==> s.answer.value == Yes)
            && s.published
            && s.taken == |GO| && GO <= s.written && s.written == GO + s.written[s.taken..]
  {
    hide GO;
    RunKeepsInvariant(l, events);
    GoIsNotEmpty();
    var s := Run(l, INIT, events);
    assert s.written == s.written[..|GO|] + s.written[|GO|..];
  }

  /** A host that gives up or dies before it sent GO: the child never starts. */
  lemma {:induction false} GivenUpNeverStarts(l: Launch, events: seq<Event>, more: seq<Event>)
    requires var s := Run(l, INIT, events); Gone(s.host) && s.written == []
    ensures var t := Run(l, Run(l, INIT, events), more);
            Gone(t.host) && t.written == [] && !t.supervisor.Running?
  {
    hide GO, ReadyFrame, Written, Step;
    GoIsNotEmpty();
    var s := Run(l, INIT, events);
    if |more| == 0 {
      RunKeepsInvariant(l, events);
    } else {
      var before := Run(l, s, more[..|more| - 1]);
      GivenUpNeverStarts(l, events, more[..|more| - 1]);
      TakenRuns(l, events, more[..|more| - 1]);
      GivenUpStep(l, before, more[|more| - 1]);
    }
  }

  lemma {:induction false} TakenRuns(l: Launch, events: seq<Event>, more: seq<Event>)
    ensures var t := Run(l, Run(l, INIT, events), more); Taken(t) && Written(l, t)
  {
    hide Taken, Written, Step;
    RunKeepsInvariant(l, events);
    if |more| > 0 {
      var before := Run(l, Run(l, INIT, events), more[..|more| - 1]);
      TakenRuns(l, events, more[..|more| - 1]);
      StepKeepsWritten(l, before, more[|more| - 1]);
      StepKeepsTaken(l, before, more[|more| - 1]);
    }
  }

  lemma GivenUpStep(l: Launch, s: State, e: Event)
    requires Gone(s.host) && s.written == [] && !s.supervisor.Running? && Taken(s) && |GO| > 0
    ensures Gone(Step(l, s, e).host) && Step(l, s, e).written == [] && !Step(l, s, e).supervisor.Running?
  {
    hide GO, ReadyFrame;
  }

  /** A refused callback, or none where one is required, is such a case. */
  lemma RefusalGivesUp(l: Launch, events: seq<Event>, answer: Answer)
    requires Run(l, INIT, events).host.Identified?
    requires answer == No || (l.requireDurable && answer != Yes)
    ensures var s := Step(l, Run(l, INIT, events), CallbackAnswers(answer));
            s.host == Failed && s.written == []
  {
    hide GO, Taken;
    RunKeepsInvariant(l, events);
  }

  // ---------------------------------------------------------------------
  // What each side waits for
  // ---------------------------------------------------------------------

  /**
   The host moves on by one event at each stage, and gives up by the wrong
   READY frame, by a callback that does not accept, or by a failure before the
   launch is complete.
   */
  lemma HostMovesIff(l: Launch, s: State, e: Event)
    ensures var h := Step(l, s, e).host;
            && (h.Identified? && h != s.host <==> s.host.AwaitingReady? && e == HostReads(READY + l.identity + "\n"))
            && (h.Owned? && h != s.host <==>
                s.host.Identified? && e.CallbackAnswers?
                && (e.answer == Yes || (e.answer == Nothing && !l.requireDurable)))
            && (h.Announced? && h != s.host <==> s.host.Owned? && e == Publishes)
            && (h.Sent? && h != s.host <==> s.host.Announced? && e == SendsGo)
            && (h.Launched? && h != s.host <==> s.host.Sent? && e == Drains)
            && (h.Dead? <==> s.host.Dead? || e == HostDies)
            && (h.Failed? && h != s.host <==> GivesUp(l, s, e))
    ensures Step(l, s, e).written ==
              s.written + (if s.host.Announced? && e == SendsGo then GO
                           else if s.host.Launched? && e.WritesPayload? && l.pipeStdin then e.payload else [])
  {
    hide GO;
    assert s.written + [] == s.written;
  }

  predicate GivesUp(l: Launch, s: State, e: Event) {
    || (s.host.AwaitingReady? && e.HostReads? && e.received != READY + l.identity + "\n")
    || (s.host.Identified? && e.CallbackAnswers? && (e.answer == No || (e.answer == Nothing && l.requireDurable)))
    || (s.host !in {Launched, Failed, Dead} && e == HostFails)
  }

  /**
   In every run the supervisor starts the child at the first look at a whole
   frame: what it reads is never anything but GO. It ends without a child by a
   stream that the host closed before the frame was whole, or by an abort.
   */
  lemma SupervisorMovesIff(l: Launch, events: seq<Event>, e: Event)
    ensures var s, t := Run(l, INIT, events), Step(l, Run(l, INIT, events), e);
            && (t.supervisor.Running? && !s.supervisor.Running? <==>
                s.supervisor.Reading? && e == SupervisorDecides && |s.supervisor.frame| == |GO|)
            && (t.supervisor.Aborted? && !s.supervisor.Aborted? <==>
                || (e == SupervisorAborts && !s.supervisor.Aborted?)
                || (s.supervisor.Reading? && e == SupervisorSeesEnd && |s.supervisor.frame| < |GO|
                    && s.taken == |s.written| && Gone(s.host)))
            && (t.supervisor.Reading? && !s.supervisor.Reading? <==> s.supervisor.Starting? && e == SupervisorReady)
  {
    hide GO, ReadyFrame;
    RunKeepsInvariant(l, events);
    var s := Run(l, INIT, events);
    if s.supervisor.Reading? && |s.supervisor.frame| == |GO| {
      GoIsNotEmpty();
      assert GO <= s.written;
      assert s.written[..|GO|] == GO;
    }
  }

  /** The supervisor's reads of the given sizes. */
  function Reads(sizes: seq<nat>): seq<Event> {
    seq(|sizes|, i requires 0 <= i < |sizes| => SupervisorReads(sizes[i]))
  }

  function Sum(sizes: seq<nat>): nat {
    if |sizes| == 0 then 0 else Sum(sizes[..|sizes| - 1]) + sizes[|sizes| - 1]
  }

  /** The host's half of an orderly launch, with the supervisor up in time. */
  function Handshake(l: Launch, answer: Answer, payload: Bytes): seq<Event> {
    [SupervisorReady, HostReads(READY + l.identity + "\n"), CallbackAnswers(answer), Publishes, SendsGo, Drains,
     WritesPayload(payload)]
  }

  lemma HandshakeArrives(l: Launch, answer: Answer, payload: Bytes)
    requires answer == Yes || (answer == Nothing && !l.requireDurable)
    ensures Run(l, INIT, Handshake(l, answer, payload))
            == State(Launched, Reading([]), GO + (if l.pipeStdin then payload else []), 0, Some(answer), true)
  {
    hide GO, READY;
    var all := Handshake(l, answer, payload);
    RunsOneMore(l, INIT, all, 0);
    RunsOneMore(l, INIT, all, 1);
    RunsOneMore(l, INIT, all, 2);
    RunsOneMore(l, INIT, all, 3);
    RunsOneMore(l, INIT, all, 4);
    RunsOneMore(l, INIT, all, 5);
    RunsOneMore(l, INIT, all, 6);
    assert all[..7] == all;
    assert [] + GO == GO && GO + [] == GO;
  }

  lemma RunsOneMore(l: Launch, s: State, events: seq<Event>, k: nat)
    requires k < |events|
    ensures Run(l, s, events[..k + 1]) == Step(l, Run(l, s, events[..k]), events[k])
    ensures Run(l, s, events[..0]) == s
  {
    assert events[..k + 1][..k] == events[..k];
  }

  lemma {:induction false} ReadsTake(l: Launch, s: State, sizes: seq<nat>)
    requires s.supervisor == Reading([]) && s.taken == 0
    requires (forall i :: 0 <= i < |sizes| ==> sizes[i] >= 1) && Sum(sizes) <= |GO| && Sum(sizes) <= |s.written|
    ensures Run(l, s, Reads(sizes)) == s.(supervisor := Reading(s.written[..Sum(sizes)]), taken := Sum(sizes))
  {
    hide GO, Step;
    if |sizes| > 0 {
      var init := sizes[..|sizes| - 1];
      ReadsTake(l, s, init);
      assert Reads(sizes)[..|sizes| - 1] == Reads(init);
      OneRead(l, Run(l, s, Reads(init)), sizes[|sizes| - 1]);
    }
  }

  lemma OneRead(l: Launch, s: State, size: nat)
    requires 1 <= size && s.taken + size <= |s.written| && s.taken + size <= |GO|
    requires s.supervisor == Reading(s.written[..s.taken])
    ensures Step(l, s, SupervisorReads(size))
            == s.(supervisor := Reading(s.written[..s.taken + size]), taken := s.taken + size)
  {
    hide GO;
    assert s.written[..s.taken] + s.written[s.taken..s.taken + size] == s.written[..s.taken + size];
  }

  lemma {:induction false} RunAppend(l: Launch, s: State, first: seq<Event>, then_: seq<Event>)
    ensures Run(l, s, first + then_) == Run(l, Run(l, s, first), then_)
  {
    hide Step;
    if |then_| == 0 {
      assert first + then_ == first;
    } else {
      var init := then_[..|then_| - 1];
      RunAppend(l, s, first, init);
      assert (first + then_)[..|first + then_| - 1] == first + init;
    }
  }

  /**
   An orderly launch starts the child: the expected READY frame, an accepting
   callback, publication and GO, read in pieces of any sizes. What is left for
   the child's stdin is the payload, if the launch has one.
   */
  lemma LaunchStartsChild(l: Launch, answer: Answer, payload: Bytes, sizes: seq<nat>)
    requires answer == Yes || (answer == Nothing && !l.requireDurable)
    requires (forall i :: 0 <= i < |sizes| ==> sizes[i] >= 1) && Sum(sizes) == |GO|
    ensures var s := Run(l, INIT, Handshake(l, answer, payload) + Reads(sizes) + [SupervisorDecides]);
            && s.host.Launched? && s.supervisor.Running?
            && s.written == GO + (if l.pipeStdin then payload else []) && s.taken == |GO|
  {
    hide GO, Step, Handshake, Reads, Run, Sum;
    HandshakeArrives(l, answer, payload);
    var given := if l.pipeStdin then payload else [];
    var launched := Run(l, INIT, Handshake(l, answer, payload));
    assert launched.written == GO + given;
    ReadsTake(l, launched, sizes);
    RunAppend(l, INIT, Handshake(l, answer, payload), Reads(sizes));
    RunAppend(l, INIT, Handshake(l, answer, payload) + Reads(sizes), [SupervisorDecides]);
    RunOne(l, Run(l, launched, Reads(sizes)), SupervisorDecides);
    assert (GO + given)[..|GO|] == GO && (GO + given)[|GO|..] == given;
    DecidesOnGo(l, Run(l, launched, Reads(sizes)));
  }

  lemma RunOne(l: Launch, s: State, e: Event)
    ensures Run(l, s, [e]) == Step(l, s, e)
  {
    hide Step;
    assert [e][..0] == [];
  }

  lemma DecidesOnGo(l: Launch, s: State)
    requires s.supervisor == Reading(GO)
    ensures Step(l, s, SupervisorDecides) == s.(supervisor := Running)
  {
    hide GO;
  }
}
