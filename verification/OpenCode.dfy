/**
 The OpenCode backend (src/symphony/backends/opencode.py): events are published live while stdout
 arrives in chunks, then reconciled with the decoding of the whole output.
 */
module OpenCode {
  import opened Prelude

  type Bytes = seq<bv8>

  const LF: bv8 := 10

  // ---------------------------------------------------------------------------------------------
  // Events
  // ---------------------------------------------------------------------------------------------

  /** Decoded JSON. Objects are maps, so equal values are those with the same canonical dump. */
  datatype Json =
    | Null
    | Bool(b: bool)
    | Num(n: int)
    | Str(s: string)
    | Arr(items: seq<Json>)
    | Obj(fields: map<string, Json>)

  /** A decoded frame that is an object; it serves as its own fingerprint. */
  type Event = map<string, Json>

  /** The engines the backend calls: UTF-8, JSON, str.splitlines, str.strip and int(). */
  datatype Engine = Engine(
    utf8: Bytes -> string,
    json: string -> Option<Json>,
    lines: string -> seq<string>,
    strip: string -> string,
    toInt: Json -> Option<int>)

  function Objects(items: seq<Json>): seq<Event> {
    if items == [] then []
    else (if items[0].Obj? then [items[0].fields] else []) + Objects(items[1..])
  }

  function LineEvents(eng: Engine, lines: seq<string>): seq<Event> {
    if lines == [] then []
    else
      var text := eng.strip(lines[0]);
      var parsed := if text == "" then None else eng.json(text);
      (if parsed.Some? && parsed.value.Obj? then [parsed.value.fields] else []) + LineEvents(eng, lines[1..])
  }

  /** _decode_events: one JSON document, or else one document per line. */
  function Decode(eng: Engine, text: string): seq<Event> {
    if text == "" then []
    else
      match eng.json(text)
      case None => LineEvents(eng, eng.lines(text))
      case Some(Obj(fields)) => [fields]
      case Some(Arr(items)) => Objects(items)
      case Some(_) => []
  }

  // ---------------------------------------------------------------------------------------------
  // Token usage
  // ---------------------------------------------------------------------------------------------

  datatype Usage = Usage(input: int, output: int, total: int)

  const ZERO := Usage(0, 0, 0)

  function Add(a: Usage, b: Usage): Usage {
    Usage(a.input + b.input, a.output + b.output, a.total + b.total)
  }

  const TOKEN_KEYS: set<string> := {
    "cached", "cache_input_tokens", "cache_read", "cacheRead", "cache_write", "cacheWrite", "candidates",
    "completion", "completion_tokens", "input", "input_tokens", "output", "output_tokens", "prompt",
    "prompt_tokens", "reasoning", "thoughts", "tool", "total", "totalTokens", "total_tokens"}

  function IntAt(eng: Engine, data: Event, key: string): int {
    if key !in data || data[key].Null? || data[key].Bool? then 0
    else
      var n := eng.toInt(data[key]);
      if n.Some? then n.value else 0
  }

  /** _int_value: the first key with a non-zero integer. */
  function FirstInt(eng: Engine, data: Event, keys: seq<string>): int {
    if keys == [] then 0
    else if IntAt(eng, data, keys[0]) != 0 then IntAt(eng, data, keys[0])
    else FirstInt(eng, data, keys[1..])
  }

  /** _sum_int_values: the positive integers among the keys, added up. */
  function SumInts(eng: Engine, data: Event, keys: seq<string>): int {
    if keys == [] then 0
    else
      var n := IntAt(eng, data, keys[0]);
      (if n > 0 then n else 0) + SumInts(eng, data, keys[1..])
  }

  /** What _apply_usage adds for one usage dictionary. */
  function UsageOf(eng: Engine, data: Event): Usage {
    var plain := FirstInt(eng, data, ["input_tokens", "prompt_tokens", "input", "prompt"]);
    var explicit := FirstInt(eng, data, ["cache_input_tokens", "cached"]);
    var nested :=
      if "cache" in data && data["cache"].Obj? then
        SumInts(eng, data["cache"].fields, ["read", "write", "cache_read", "cache_write", "cacheRead", "cacheWrite"])
      else 0;
    var cached :=
      if explicit != 0 then explicit
      else SumInts(eng, data, ["cache_read", "cacheRead", "cache_write", "cacheWrite"]) + nested;
    var input := plain + cached;
    var output := FirstInt(eng, data, ["output_tokens", "completion_tokens", "output", "completion",
                                       "reasoning", "candidates", "thoughts", "tool"]);
    var total := FirstInt(eng, data, ["total_tokens", "totalTokens", "total"]);
    Usage(input, output, if total == 0 then input + output else total)
  }

  /** The usage of every dictionary _usage_dicts finds in a value. */
  function ValueUsage(eng: Engine, value: Json): Usage
    decreases value, 1, 0
  {
    match value
    case Arr(items) => ItemsUsage(eng, items)
    case Obj(fields) =>
      Add(if TOKEN_KEYS * fields.Keys != {} then UsageOf(eng, fields) else ZERO,
          KeysUsage(eng, value, ["usage", "tokens", "stats", "cost", "part", "info"]))
    case _ => ZERO
  }

  function ItemsUsage(eng: Engine, items: seq<Json>): Usage
    decreases items, 0, 0
  {
    if items == [] then ZERO else Add(ValueUsage(eng, items[0]), ItemsUsage(eng, items[1..]))
  }

  function KeysUsage(eng: Engine, value: Json, keys: seq<string>): Usage
    requires value.Obj?
    decreases value, 0, |keys|
  {
    if keys == [] then ZERO
    else
      Add(if keys[0] in value.fields then ValueUsage(eng, value.fields[keys[0]]) else ZERO,
          KeysUsage(eng, value, keys[1..]))
  }

  function EventUsage(eng: Engine, e: Event): Usage {
    ValueUsage(eng, Obj(e))
  }

  function TotalUsage(eng: Engine, events: seq<Event>): Usage {
    if events == [] then ZERO
    else Add(TotalUsage(eng, events[..|events| - 1]), EventUsage(eng, events[|events| - 1]))
  }

  // ---------------------------------------------------------------------------------------------
  // Frames
  // ---------------------------------------------------------------------------------------------

  function FindLf(b: Bytes): (r: Option<nat>)
    ensures r.Some? ==> r.value < |b| && b[r.value] == LF && LF !in b[..r.value]
    ensures r.None? ==> LF !in b
  {
    if b == [] then None
    else if b[0] == LF then Some(0)
    else
      var more := FindLf(b[1..]);
      if more.None? then None else Some(more.value + 1)
  }

  datatype Cut = Cut(frames: seq<Bytes>, tail: Bytes)

  /** The line-feed terminated pieces of b and what is left after the last line feed. */
  function CutLines(b: Bytes): Cut
    decreases |b|
  {
    var k := FindLf(b);
    if k.None? then Cut([], b)
    else
      var more := CutLines(b[k.value + 1..]);
      Cut([b[..k.value + 1]] + more.frames, more.tail)
  }

  function Close(c: Cut): seq<Bytes> {
    if c.tail == [] then c.frames else c.frames + [c.tail]
  }

  /** The frames of a whole stream. */
  function Frames(stream: Bytes): seq<Bytes> {
    Close(CutLines(stream))
  }

  function Concat(pieces: seq<Bytes>): Bytes {
    if pieces == [] then [] else pieces[0] + Concat(pieces[1..])
  }

  /** What is read before the end of the stream, which an empty chunk announces. */
  function Stream(chunks: seq<Bytes>): Bytes {
    if chunks == [] || chunks[0] == [] then [] else chunks[0] + Stream(chunks[1..])
  }

  lemma {:induction false} CutAppend(a: Bytes, b: Bytes)
    ensures var first := CutLines(a);
            var second := CutLines(first.tail + b);
            CutLines(a + b) == Cut(first.frames + second.frames, second.tail)
    decreases |a|
  {
    var k := FindLf(a);
    if k.None? {
      assert [] + CutLines(a + b).frames == CutLines(a + b).frames;
    } else {
      var n := k.value + 1;
      FindLfAppend(a, b);
      assert (a + b)[..n] == a[..n] && (a + b)[n..] == a[n..] + b;
      CutAppend(a[n..], b);
      var more := CutLines(a[n..]);
      var second := CutLines(more.tail + b);
      assert [a[..n]] + (more.frames + second.frames) == ([a[..n]] + more.frames) + second.frames;
    }
  }

  lemma {:induction false} FindLfAppend(a: Bytes, b: Bytes)
    requires FindLf(a).Some?
    ensures FindLf(a + b) == FindLf(a)
  {
    if a[0] != LF {
      assert (a + b)[1..] == a[1..] + b;
      FindLfAppend(a[1..], b);
    }
  }

  lemma FramesStep(stream: Bytes)
    requires FindLf(stream).Some?
    ensures var n := FindLf(stream).value + 1;
            Frames(stream) == [stream[..n]] + Frames(stream[n..])
  {
    hide FindLf;
  }

  /** Frames lose nothing. */
  lemma {:induction false} FramesLossless(stream: Bytes)
    ensures Concat(Frames(stream)) == stream
    decreases |stream|
  {
    hide FindLf, Frames;
    var k := FindLf(stream);
    if k.Some? {
      var n := k.value + 1;
      FramesStep(stream);
      FramesLossless(stream[n..]);
      assert ([stream[..n]] + Frames(stream[n..]))[1..] == Frames(stream[n..]);
      assert stream[..n] + stream[n..] == stream;
    } else {
      FramesWithoutLf(stream);
      assert stream + Concat([]) == stream;
    }
  }

  lemma FramesWithoutLf(stream: Bytes)
    requires FindLf(stream).None?
    ensures Frames(stream) == if stream == [] then [] else [stream]
  {
    hide FindLf;
  }

  /** A frame is a line with its line feed; only the last one can lack it. */
  predicate IsFrame(f: Bytes, last: bool) {
    f != [] && LF !in f[..|f| - 1] && (f[|f| - 1] == LF || last)
  }

  lemma {:induction false} FramesAreLines(stream: Bytes)
    ensures forall i :: 0 <= i < |Frames(stream)| ==> IsFrame(Frames(stream)[i], i == |Frames(stream)| - 1)
    decreases |stream|
  {
    hide Frames;
    var k := FindLf(stream);
    if k.Some? {
      var n := k.value + 1;
      var first, rest := stream[..n], Frames(stream[n..]);
      FramesStep(stream);
      FramesAreLines(stream[n..]);
      assert first[..|first| - 1] == stream[..k.value];
      assert IsFrame(first, false);
      assert forall i :: 0 < i < |Frames(stream)| ==> Frames(stream)[i] == rest[i - 1];
    } else {
      FramesWithoutLf(stream);
    }
  }

  function FrameEvents(eng: Engine, frames: seq<Bytes>): seq<Event> {
    if frames == [] then []
    else FrameEvents(eng, frames[..|frames| - 1]) + Decode(eng, eng.utf8(frames[|frames| - 1]))
  }

  lemma {:induction false} FrameEventsAppend(eng: Engine, a: seq<Bytes>, b: seq<Bytes>)
    ensures FrameEvents(eng, a + b) == FrameEvents(eng, a) + FrameEvents(eng, b)
  {
    hide Decode;
    if b == [] {
      assert a + b == a;
    } else {
      var n := |b| - 1;
      assert (a + b)[..|a + b| - 1] == a + b[..n];
      FrameEventsAppend(eng, a, b[..n]);
      var last := Decode(eng, eng.utf8(b[n]));
      assert FrameEvents(eng, a) + (FrameEvents(eng, b[..n]) + last)
          == (FrameEvents(eng, a) + FrameEvents(eng, b[..n])) + last;
    }
  }

  lemma {:induction false} TailIsOneLine(b: Bytes)
    ensures CutLines(CutLines(b).tail) == Cut([], CutLines(b).tail)
    decreases |b|
  {
    hide FindLf;
    var k := FindLf(b);
    if k.Some? {
      TailIsOneLine(b[k.value + 1..]);
    }
  }

  /** The events of a stream, split where part of it has been read. */
  lemma StreamSplit(eng: Engine, a: Bytes, b: Bytes)
    ensures FrameEvents(eng, Frames(a + b))
         == FrameEvents(eng, CutLines(a).frames) + FrameEvents(eng, Frames(CutLines(a).tail + b))
  {
    hide CutLines, FrameEvents;
    CutAppend(a, b);
    var second := CutLines(CutLines(a).tail + b);
    assert Close(Cut(CutLines(a).frames + second.frames, second.tail)) == CutLines(a).frames + Close(second);
    FrameEventsAppend(eng, CutLines(a).frames, Close(second));
  }

  lemma LastFrame(eng: Engine, tail: Bytes)
    requires CutLines(tail) == Cut([], tail)
    ensures FrameEvents(eng, Frames(tail)) == if tail == [] then [] else Decode(eng, eng.utf8(tail))
  {
    hide CutLines, Decode, FrameEvents;
    NoFrames(eng);
    if tail != [] {
      assert Frames(tail) == [tail];
      OneFrame(eng, tail);
    }
  }

  lemma NoFrames(eng: Engine)
    ensures FrameEvents(eng, []) == []
  {
  }

  lemma OneFrame(eng: Engine, f: Bytes)
    ensures FrameEvents(eng, [f]) == Decode(eng, eng.utf8(f))
  {
    hide Decode;
    assert [f][..0] == [];
    assert FrameEvents(eng, []) == [];
  }

  // ---------------------------------------------------------------------------------------------
  // Sessions
  // ---------------------------------------------------------------------------------------------

  function FirstString(data: Event, keys: seq<string>): Option<string> {
    if keys == [] then None
    else if keys[0] in data && data[keys[0]].Str? && data[keys[0]].s != "" then Some(data[keys[0]].s)
    else FirstString(data, keys[1..])
  }

  /** _extract_session_id. */
  function SessionOf(value: Json): Option<string>
    requires value.Obj?
    decreases value, 1
  {
    var own := FirstString(value.fields, ["session_id", "sessionId", "sessionID"]);
    if own.Some? then own
    else
      var session := NestedSession(value, "session");
      if session.Some? then session else NestedSession(value, "data")
  }

  function NestedSession(value: Json, key: string): Option<string>
    requires value.Obj?
    decreases value, 0
  {
    if key !in value.fields || !value.fields[key].Obj? then None
    else
      var inner := SessionOf(value.fields[key]);
      if inner.Some? then inner else FirstString(value.fields[key].fields, ["id"])
  }

  /** An event is published unless it names another session than the one being resumed. */
  predicate Accepts(expected: Option<string>, e: Event) {
    var sid := SessionOf(Obj(e));
    sid.None? || expected.None? || sid == expected
  }

  /** How far publishing a list of events gets: all of it, or up to the first one not accepted. */
  datatype Progress = Progress(ok: bool, events: seq<Event>)

  function Publish(expected: Option<string>, events: seq<Event>): Progress {
    if events == [] then Progress(true, [])
    else if !Accepts(expected, events[0]) then Progress(false, [])
    else
      var more := Publish(expected, events[1..]);
      Progress(more.ok, [events[0]] + more.events)
  }

  function Then(first: Progress, second: Progress): Progress {
    if first.ok then Progress(second.ok, first.events + second.events) else first
  }

  lemma {:induction false} PublishAppend(expected: Option<string>, a: seq<Event>, b: seq<Event>)
    ensures Publish(expected, a + b) == Then(Publish(expected, a), Publish(expected, b))
  {
    hide Accepts;
    var second := Publish(expected, b);
    if a == [] {
      assert a + b == b;
      assert [] + second.events == second.events;
    } else {
      assert (a + b)[1..] == a[1..] + b;
      PublishAppend(expected, a[1..], b);
      var more := Publish(expected, a[1..]);
      assert [a[0]] + (more.events + second.events) == ([a[0]] + more.events) + second.events;
    }
  }

  /** Publishing completes exactly when every event is accepted, and then nothing is left out. */
  lemma {:induction false} PublishAll(expected: Option<string>, events: seq<Event>)
    ensures Publish(expected, events).ok <==> forall i :: 0 <= i < |events| ==> Accepts(expected, events[i])
    ensures Publish(expected, events).ok ==> Publish(expected, events).events == events
    ensures Publish(expected, events).events <= events
  {
    hide Accepts;
    if events != [] {
      var first, rest := events[0], events[1..];
      PublishAll(expected, rest);
      assert events == [first] + rest;
      if Accepts(expected, first) && Publish(expected, rest).ok {
        forall i | 0 <= i < |events|
          ensures Accepts(expected, events[i])
        {
          assert i > 0 ==> events[i] == rest[i - 1];
        }
      } else if Accepts(expected, first) {
        var i :| 0 <= i < |rest| && !Accepts(expected, rest[i]);
        assert events[i + 1] == rest[i];
      }
    }
  }

  // ---------------------------------------------------------------------------------------------
  // Reconciling the batch with the stream
  // ---------------------------------------------------------------------------------------------

  /** The batch events the streamed counts do not account for. */
  function Unmatched(events: seq<Event>, counts: multiset<Event>): seq<Event> {
    if events == [] then []
    else if events[0] in counts then Unmatched(events[1..], counts - multiset{events[0]})
    else [events[0]] + Unmatched(events[1..], counts)
  }

  lemma {:induction false} UnmatchedCounts(events: seq<Event>, counts: multiset<Event>)
    ensures multiset(Unmatched(events, counts)) == multiset(events) - counts
  {
    if events != [] {
      var e := events[0];
      assert events == [e] + events[1..];
      if e in counts {
        UnmatchedCounts(events[1..], counts - multiset{e});
      } else {
        UnmatchedCounts(events[1..], counts);
      }
    }
  }

  /** Every event as often as it occurs in the list that has more of it. */
  function Most(streamed: seq<Event>, batch: seq<Event>): multiset<Event> {
    multiset(streamed) + (multiset(batch) - multiset(streamed))
  }

  /** Each event is published as often as it was streamed or as it stands in the batch, whichever is more. */
  lemma PublishedIsMaximum(streamed: seq<Event>, batch: seq<Event>, e: Event)
    ensures var published := multiset(streamed + Unmatched(batch, multiset(streamed)));
            var s, b := multiset(streamed)[e], multiset(batch)[e];
            published[e] == if s >= b then s else b
  {
    UnmatchedCounts(batch, multiset(streamed));
  }

  lemma {:induction false} UsageAppend(eng: Engine, a: seq<Event>, b: seq<Event>)
    ensures TotalUsage(eng, a + b) == Add(TotalUsage(eng, a), TotalUsage(eng, b))
  {
    hide EventUsage;
    if b == [] {
      assert a + b == a;
    } else {
      assert (a + b)[..|a + b| - 1] == a + b[..|b| - 1];
      UsageAppend(eng, a, b[..|b| - 1]);
    }
  }

  lemma RemoveOne(a: seq<Event>, before: seq<Event>, e: Event, after: seq<Event>)
    requires multiset(a + [e]) == multiset(before + [e] + after)
    ensures multiset(a) == multiset(before + after)
  {
    assert multiset(a + [e]) == multiset(a) + multiset{e};
    assert multiset(before + [e] + after) == multiset(before) + multiset{e} + multiset(after);
    assert multiset(before + after) == multiset(before) + multiset(after);
    assert multiset(a) == (multiset(a) + multiset{e}) - multiset{e};
  }

  lemma UsageMove(eng: Engine, before: seq<Event>, e: Event, after: seq<Event>)
    ensures TotalUsage(eng, before + [e] + after) == Add(TotalUsage(eng, before + after), EventUsage(eng, e))
  {
    hide EventUsage, TotalUsage;
    UsageAppend(eng, before, after);
    UsageAppend(eng, before + [e], after);
    UsageSnoc(eng, before, e);
  }

  lemma UsageSnoc(eng: Engine, a: seq<Event>, e: Event)
    ensures TotalUsage(eng, a + [e]) == Add(TotalUsage(eng, a), EventUsage(eng, e))
  {
    hide EventUsage;
    assert (a + [e])[..|a|] == a;
  }

  /** Usage depends on how often each event is published, not on when. */
  lemma {:induction false} UsageOfMultiset(eng: Engine, a: seq<Event>, b: seq<Event>)
    requires multiset(a) == multiset(b)
    ensures TotalUsage(eng, a) == TotalUsage(eng, b)
    decreases |a|
  {
    hide EventUsage, TotalUsage;
    if a == [] {
      assert |multiset(b)| == 0;
      assert b == [];
    } else {
      var n := |a| - 1;
      var e := a[n];
      assert e in multiset(b);
      var i :| 0 <= i < |b| && b[i] == e;
      var before, after := b[..i], b[i + 1..];
      assert a == a[..n] + [e] && b == before + [e] + after;
      RemoveOne(a[..n], before, e, after);
      UsageOfMultiset(eng, a[..n], before + after);
      UsageMove(eng, before, e, after);
      UsageSnoc(eng, a[..n], e);
    }
  }

  /**
   The final usage is the starting usage plus the sum over the published multiset: any listing of the
   maximum of streamed and batch events gives it, so no cut of the stream into chunks matters.
   */
  lemma FinalUsage(eng: Engine, streamed: seq<Event>, batch: seq<Event>, listing: seq<Event>)
    requires multiset(listing) == Most(streamed, batch)
    ensures TotalUsage(eng, streamed + Unmatched(batch, multiset(streamed))) == TotalUsage(eng, listing)
  {
    UnmatchedCounts(batch, multiset(streamed));
    UsageOfMultiset(eng, streamed + Unmatched(batch, multiset(streamed)), listing);
  }

  /** When stream and batch decode to the same events, each is counted exactly once. */
  lemma NoDoubleCounting(eng: Engine, streamed: seq<Event>, batch: seq<Event>)
    requires multiset(streamed) == multiset(batch)
    ensures Unmatched(batch, multiset(streamed)) == []
    ensures TotalUsage(eng, streamed + Unmatched(batch, multiset(streamed))) == TotalUsage(eng, batch)
  {
    UnmatchedCounts(batch, multiset(streamed));
    assert |multiset(Unmatched(batch, multiset(streamed)))| == 0;
    assert streamed + [] == streamed;
    UsageOfMultiset(eng, streamed, batch);
  }

  // ---------------------------------------------------------------------------------------------
  // The backend
  // ---------------------------------------------------------------------------------------------

  class OpenCodeBackend {
    const eng: Engine
    var closed: bool
    var session: Option<string>
    var expected: Option<string>
    var confirmed: bool
    var streamedCounts: multiset<Event>
    var usage: Usage
    ghost var published: seq<Event>
    /** How much was published when the session being resumed was selected. */
    ghost var resumedAt: nat
    ghost var resumed: Option<string>

    constructor (eng: Engine)
      ensures Valid() && this.eng == eng && published == [] && expected.None?
    {
      this.eng := eng;
      closed, session, expected, confirmed, streamedCounts, usage := false, None, None, false, multiset{}, ZERO;
      published, resumedAt, resumed := [], 0, None;
    }

    /**
     Usage is what was published, and the session the last one an event named since it was selected;
     while a resume is expected no other session is adopted, and the resume counts as confirmed exactly
     when an event published since then named the session.
     */
    ghost predicate Valid()
      reads `session, `expected, `confirmed, `usage, `published, `resumedAt, `resumed
    {
      && usage == TotalUsage(eng, published)
      && resumedAt <= |published|
      && session == LastNamed(published, resumedAt, resumed)
      && (expected.Some? ==> session == expected)
      && (expected.Some? ==> (confirmed <==> Shown(published, resumedAt, expected)))
    }

    /** resume_session. */
    method ResumeSession(id: string, valid: bool) returns (ok: bool)
      requires Valid()
      modifies this`session, this`expected, this`confirmed, this`resumedAt, this`resumed
      ensures Valid()
      ensures ok <==> !closed && valid
      ensures ok ==> session == expected == resumed == Some(id) && !confirmed && resumedAt == |published|
      ensures !ok ==>
                && session == old(session) && expected == old(expected) && confirmed == old(confirmed)
                && resumedAt == old(resumedAt) && resumed == old(resumed)
    {
      ok := !closed && valid;
      if ok {
        session, expected, confirmed := Some(id), Some(id), false;
        resumedAt, resumed := |published|, Some(id);
      }
    }

    /** _publish_stream_event; false stands for the failed turn it raises. */
    method PublishEvent(e: Event) returns (ok: bool)
      requires Valid()
      modifies this`session, this`confirmed, this`usage, this`published
      ensures Valid()
      ensures ok <==> Accepts(expected, e)
      ensures published == old(published) + (if ok then [e] else [])
      ensures session == if ok && SessionOf(Obj(e)).Some? then SessionOf(Obj(e)) else old(session)
    {
      hide TotalUsage, EventUsage;
      var sid := SessionOf(Obj(e));
      if sid.Some? {
        if expected.Some? {
          if sid != expected {
            return false;
          }
          confirmed := true;
        }
        session := sid;
      }
      ShownGrows(published, e, resumedAt, expected);
      LastNamedSnoc(published, e, resumedAt, resumed);
      UsageSnoc(eng, published, e);
      published := published + [e];
      usage := Add(usage, EventUsage(eng, e));
      ok := true;
    }

    /** _publish_stream_frame. */
    method PublishFrame(frame: Bytes) returns (ok: bool)
      requires Valid()
      modifies this`session, this`confirmed, this`usage, this`published, this`streamedCounts
      ensures Valid()
      ensures var p := Publish(expected, Decode(eng, eng.utf8(frame)));
              ok == p.ok && Advanced(old(published), old(streamedCounts), p.events, published, streamedCounts)
    {
      hide Decode, Accepts, TotalUsage, Publish, Shown, LastNamed, Valid, Advanced;
      var events := Decode(eng, eng.utf8(frame));
      PublishNothing(expected);
      AdvancedNothing(published, streamedCounts);
      assert events[..0] == [];
      for i := 0 to |events|
        invariant Valid()
        invariant var p := Publish(expected, events[..i]);
                  p.ok && Advanced(old(published), old(streamedCounts), p.events, published, streamedCounts)
      {
        PublishStep(expected, events, i);
        ghost var publishedBefore, countsBefore := published, streamedCounts;
        ok := PublishEvent(events[i]);
        if !ok {
          assert publishedBefore + [] == publishedBefore;
          return;
        }
        streamedCounts := streamedCounts + multiset{events[i]};
        AdvancedOne(publishedBefore, countsBefore, events[i]);
        AdvancedFurther(old(published), old(streamedCounts), Publish(expected, events[..i]).events,
                        publishedBefore, countsBefore, [events[i]], published, streamedCounts);
      }
      assert events[..|events|] == events;
      ok := true;
    }

    /** The inner loop of _read_stdout: publish every complete frame of what is pending. */
    method PublishComplete(pending: Bytes) returns (ok: bool, tail: Bytes)
      requires Valid()
      modifies this`session, this`confirmed, this`usage, this`published, this`streamedCounts
      ensures Valid()
      ensures var p := Publish(expected, FrameEvents(eng, CutLines(pending).frames));
              ok == p.ok && Advanced(old(published), old(streamedCounts), p.events, published, streamedCounts)
      ensures ok ==> tail == CutLines(pending).tail
    {
      hide Decode, Accepts, TotalUsage, Publish, Shown, CutLines, FrameEvents, FindLf, Valid, Advanced;
      tail := pending;
      ghost var goal := Publish(expected, FrameEvents(eng, CutLines(pending).frames));
      ghost var sofar := Progress(true, []);
      ThenNothing(goal);
      AdvancedNothing(published, streamedCounts);
      var end := FindLf(tail);
      while end.Some?
        invariant Valid()
        invariant end == FindLf(tail)
        invariant CutLines(tail).tail == CutLines(pending).tail
        invariant sofar.ok
        invariant goal == Then(sofar, Publish(expected, FrameEvents(eng, CutLines(tail).frames)))
        invariant Advanced(old(published), old(streamedCounts), sofar.events, published, streamedCounts)
        decreases |tail|
      {
        var frame := tail[..end.value + 1];
        ghost var these := FrameStep(eng, expected, tail, sofar);
        ghost var publishedBefore, countsBefore := published, streamedCounts;
        ok := PublishFrame(frame);
        AdvancedFurther(old(published), old(streamedCounts), sofar.events,
                        publishedBefore, countsBefore, these.events, published, streamedCounts);
        if !ok {
          return;
        }
        sofar := Then(sofar, these);
        tail := tail[end.value + 1..];
        end := FindLf(tail);
      }
      NoFrame(eng, tail);
      PublishNothing(expected);
      ThenNothing(sofar);
      ok := true;
    }

    /** _read_stdout: what is published does not depend on how the stream was cut into chunks. */
    method ReadStdout(chunks: seq<Bytes>) returns (ok: bool, output: Bytes)
      requires Valid()
      modifies this`session, this`confirmed, this`usage, this`published, this`streamedCounts
      ensures Valid()
      ensures var p := Publish(expected, FrameEvents(eng, Frames(Stream(chunks))));
              ok == p.ok && Advanced(old(published), multiset{}, p.events, published, streamedCounts)
      ensures ok ==> output == Stream(chunks)
    {
      hide Decode, Accepts, TotalUsage, Publish, Shown, CutLines, FrameEvents, Frames, Stream, SessionOf, Valid,
        Advanced;
      output := [];
      var pending: Bytes := [];
      streamedCounts := multiset{};
      ghost var goal := Publish(expected, FrameEvents(eng, Frames(Stream(chunks))));
      ghost var sofar := Progress(true, []);
      var n := 0;
      StartOfStream(chunks);
      ThenNothing(goal);
      AdvancedNothing(published, multiset{});
      while n < |chunks| && chunks[n] != []
        invariant 0 <= n <= |chunks|
        invariant Valid()
        invariant Stream(chunks) == output + Stream(chunks[n..])
        invariant pending == CutLines(output).tail
        invariant sofar.ok
        invariant goal == Then(sofar, Publish(expected, FrameEvents(eng, Frames(pending + Stream(chunks[n..])))))
        invariant Advanced(old(published), multiset{}, sofar.events, published, streamedCounts)
      {
        ghost var later := Stream(chunks[n + 1..]);
        NextChunk(chunks, n, output, pending);
        ghost var these := ChunkStep(eng, expected, pending + chunks[n], later, sofar);
        CutAppend(output, chunks[n]);
        ghost var publishedBefore, countsBefore := published, streamedCounts;
        ok, pending := PublishComplete(pending + chunks[n]);
        AdvancedFurther(old(published), multiset{}, sofar.events,
                        publishedBefore, countsBefore, these.events, published, streamedCounts);
        if !ok {
          return;
        }
        output := output + chunks[n];
        sofar := Then(sofar, these);
        n := n + 1;
      }
      EndOfStream(chunks, n, output, pending);
      TailIsOneLine(output);
      LastFrame(eng, pending);
      PublishNothing(expected);
      ThenNothing(sofar);
      ok := true;
      if pending != [] {
        ghost var publishedBefore, countsBefore := published, streamedCounts;
        ok := PublishFrame(pending);
        AdvancedFurther(old(published), multiset{}, sofar.events,
                        publishedBefore, countsBefore, Publish(expected, Decode(eng, eng.utf8(pending))).events,
                        published, streamedCounts);
      }
    }

    /** _complete_turn: publish what the stream did not, then insist on the expected session. */
    method CompleteTurn(text: string) returns (ok: bool)
      requires Valid()
      modifies this`session, this`expected, this`confirmed, this`usage, this`published, this`streamedCounts
      ensures Valid()
      ensures var p := Publish(old(expected), Unmatched(Decode(eng, text), old(streamedCounts)));
              && published == old(published) + p.events
              && (ok <==> p.ok && (old(expected).Some? ==> Shown(published, resumedAt, old(expected))))
              && streamedCounts == (if p.ok then multiset{} else old(streamedCounts))
              && expected == (if ok then None else old(expected))
      ensures ok && old(expected).Some? ==> session == old(expected)
    {
      hide Decode, Accepts, TotalUsage, Publish, Shown, Unmatched, LastNamed;
      var events := Decode(eng, text);
      var streamed := streamedCounts;
      ghost var goal := Publish(expected, Unmatched(events, streamed));
      ghost var sofar := Progress(true, []);
      assert events[0..] == events && [] + goal.events == goal.events;
      for i := 0 to |events|
        invariant Valid() && expected == old(expected) && streamedCounts == old(streamedCounts)
        invariant sofar.ok
        invariant goal == Then(sofar, Publish(expected, Unmatched(events[i..], streamed)))
        invariant published == old(published) + sofar.events
      {
        UnmatchedStep(events, i, streamed);
        if events[i] in streamed {
          streamed := streamed - multiset{events[i]};
        } else {
          ghost var rest := Unmatched(events[i + 1..], streamed);
          PublishOne(expected, events[i]);
          PublishAppend(expected, [events[i]], rest);
          ThenAssociative(sofar, Publish(expected, [events[i]]), Publish(expected, rest));
          ok := PublishEvent(events[i]);
          if !ok {
            assert sofar.events + [] == sofar.events;
            return;
          }
          sofar := Then(sofar, Publish(expected, [events[i]]));
        }
      }
      assert events[|events|..] == [];
      NothingUnmatched(streamed);
      PublishNothing(expected);
      assert sofar.events + [] == sofar.events;
      streamedCounts := multiset{};
      if expected.Some? {
        if !confirmed {
          return false;
        }
        expected, confirmed := None, false;
      }
      ok := true;
    }

    /**
     _drive_turn on a child whose output came in these chunks and that exited with rc. A turn that
     completes adds to the usage the sum over the maximum of the streamed and the batch events,
     whatever the chunks; and it completes only if a session being resumed was named since.
     */
    method DriveTurn(chunks: seq<Bytes>, rc: int) returns (ok: bool)
      requires Valid()
      modifies this`session, this`expected, this`confirmed, this`usage, this`published, this`streamedCounts
      ensures Valid()
      ensures var stream := FrameEvents(eng, Frames(Stream(chunks)));
              var streamed := Publish(old(expected), stream);
              var text := eng.strip(eng.utf8(Stream(chunks)));
              var rest := Publish(old(expected), Unmatched(Decode(eng, text), multiset(streamed.events)));
              && published == old(published) + streamed.events
                              + (if streamed.ok && rc == 0 && text != "" then rest.events else [])
              && (ok <==>
                    && streamed.ok && rc == 0 && text != "" && rest.ok
                    && (old(expected).Some? ==> Shown(published, resumedAt, old(expected))))
              && (ok ==> forall listing: seq<Event> :: multiset(listing) == Most(stream, Decode(eng, text)) ==>
                    usage == Add(old(usage), TotalUsage(eng, listing)))
      ensures expected == if ok then None else old(expected)
    {
      hide Decode, Accepts, TotalUsage, Publish, Shown, Unmatched, FrameEvents, Frames, Stream;
      ghost var stream := FrameEvents(eng, Frames(Stream(chunks)));
      ghost var before, resumed := published, expected;
      var read, output := ReadStdout(chunks);
      PublishAll(resumed, stream);
      var text := eng.strip(eng.utf8(output));
      if !read || rc != 0 || text == "" {
        assert published + [] == published;
        return false;
      }
      ghost var batch := Unmatched(Decode(eng, text), streamedCounts);
      assert multiset{} + multiset(stream) == multiset(stream);
      PublishAll(resumed, batch);
      ok := CompleteTurn(text);
      if ok {
        assert published == before + stream + batch;
        forall listing: seq<Event> | multiset(listing) == Most(stream, Decode(eng, text))
          ensures usage == Add(old(usage), TotalUsage(eng, listing))
        {
          FinalUsage(eng, stream, Decode(eng, text), listing);
          UsageAppend(eng, before, stream + batch);
          assert before + stream + batch == before + (stream + batch);
        }
      }
    }
  }

  /** A stretch of publishing: these events were appended, and each was counted. */
  ghost predicate Advanced(published: seq<Event>, counts: multiset<Event>, events: seq<Event>,
                           published': seq<Event>, counts': multiset<Event>) {
    published' == published + events && counts' == counts + multiset(events)
  }

  lemma AdvancedNothing(published: seq<Event>, counts: multiset<Event>)
    ensures Advanced(published, counts, [], published, counts)
  {
  }

  lemma AdvancedOne(published: seq<Event>, counts: multiset<Event>, e: Event)
    ensures Advanced(published, counts, [e], published + [e], counts + multiset{e})
  {
  }

  lemma AdvancedFurther(p0: seq<Event>, c0: multiset<Event>, a: seq<Event>, p1: seq<Event>, c1: multiset<Event>,
                        b: seq<Event>, p2: seq<Event>, c2: multiset<Event>)
    requires Advanced(p0, c0, a, p1, c1) && Advanced(p1, c1, b, p2, c2)
    ensures Advanced(p0, c0, a + b, p2, c2)
  {
    assert p0 + a + b == p0 + (a + b);
  }

  lemma ThenNothing(p: Progress)
    ensures Then(Progress(true, []), p) == p
    ensures Then(p, Progress(true, [])) == p
  {
    assert [] + p.events == p.events && p.events + [] == p.events;
  }

  /** Some event published since then named the session. */
  ghost predicate Shown(published: seq<Event>, since: nat, sid: Option<string>) {
    exists i :: since <= i < |published| && SessionOf(Obj(published[i])) == sid
  }

  /** The session named last by what was published since then, or else the one of before. */
  ghost function LastNamed(published: seq<Event>, since: nat, first: Option<string>): Option<string> {
    if |published| <= since then first
    else
      var sid := SessionOf(Obj(published[|published| - 1]));
      if sid.Some? then sid else LastNamed(published[..|published| - 1], since, first)
  }

  lemma LastNamedSnoc(published: seq<Event>, e: Event, since: nat, first: Option<string>)
    requires since <= |published|
    ensures LastNamed(published + [e], since, first)
         == if SessionOf(Obj(e)).Some? then SessionOf(Obj(e)) else LastNamed(published, since, first)
  {
    hide SessionOf;
    assert (published + [e])[..|published|] == published;
  }

  lemma ShownGrows(published: seq<Event>, e: Event, since: nat, sid: Option<string>)
    requires since <= |published|
    ensures Shown(published + [e], since, sid) <==> Shown(published, since, sid) || SessionOf(Obj(e)) == sid
  {
    hide SessionOf;
    var all := published + [e];
    assert all[|published|] == e;
    if Shown(published, since, sid) {
      var i :| since <= i < |published| && SessionOf(Obj(published[i])) == sid;
      assert all[i] == published[i];
    }
  }

  lemma PublishNothing(expected: Option<string>)
    ensures Publish(expected, []) == Progress(true, [])
  {
  }

  lemma PublishOne(expected: Option<string>, e: Event)
    ensures Publish(expected, [e]) == if Accepts(expected, e) then Progress(true, [e]) else Progress(false, [])
  {
    hide Accepts;
    assert [e][1..] == [];
    assert Publish(expected, []) == Progress(true, []);
  }

  lemma PublishStep(expected: Option<string>, events: seq<Event>, i: nat)
    requires i < |events| && Publish(expected, events[..i]).ok
    ensures var before := Publish(expected, events[..i]);
            if Accepts(expected, events[i]) then
              Publish(expected, events[..i + 1]) == Progress(true, before.events + [events[i]])
            else
              Publish(expected, events) == Progress(false, before.events)
  {
    hide Accepts, Publish;
    var before := Publish(expected, events[..i]);
    PublishOne(expected, events[i]);
    PublishAppend(expected, events[..i], [events[i]]);
    assert events[..i + 1] == events[..i] + [events[i]];
    PublishAppend(expected, events[..i + 1], events[i + 1..]);
    assert events == events[..i + 1] + events[i + 1..];
    assert before.events + [] == before.events;
  }

  lemma ThenAssociative(a: Progress, b: Progress, c: Progress)
    ensures Then(a, Then(b, c)) == Then(Then(a, b), c)
  {
    assert (a.events + b.events) + c.events == a.events + (b.events + c.events);
  }

  lemma UnmatchedStep(events: seq<Event>, i: nat, counts: multiset<Event>)
    requires i < |events|
    ensures Unmatched(events[i..], counts)
         == if events[i] in counts then Unmatched(events[i + 1..], counts - multiset{events[i]})
            else [events[i]] + Unmatched(events[i + 1..], counts)
  {
    assert events[i..][0] == events[i] && events[i..][1..] == events[i + 1..];
  }

  lemma NothingUnmatched(counts: multiset<Event>)
    ensures Unmatched([], counts) == []
  {
  }

  /** Publishing the first frame of b, then the rest. */
  lemma FrameStep(eng: Engine, expected: Option<string>, b: Bytes, sofar: Progress) returns (these: Progress)
    requires FindLf(b).Some? && sofar.ok
    ensures var n := FindLf(b).value + 1;
            && CutLines(b).tail == CutLines(b[n..]).tail
            && these == Publish(expected, Decode(eng, eng.utf8(b[..n])))
            && Then(sofar, Publish(expected, FrameEvents(eng, CutLines(b).frames)))
            == Then(Then(sofar, these), Publish(expected, FrameEvents(eng, CutLines(b[n..]).frames)))
  {
    hide FindLf, CutLines, Decode, FrameEvents, Publish, Then;
    var n := FindLf(b).value + 1;
    FirstFrame(eng, b);
    these := Publish(expected, Decode(eng, eng.utf8(b[..n])));
    var later := FrameEvents(eng, CutLines(b[n..]).frames);
    PublishAppend(expected, Decode(eng, eng.utf8(b[..n])), later);
    ThenAssociative(sofar, these, Publish(expected, later));
  }

  /** Publishing the complete frames of b, then what its tail and the later bytes make. */
  lemma ChunkStep(eng: Engine, expected: Option<string>, b: Bytes, later: Bytes, sofar: Progress)
    returns (these: Progress)
    requires sofar.ok
    ensures these == Publish(expected, FrameEvents(eng, CutLines(b).frames))
    ensures Then(sofar, Publish(expected, FrameEvents(eng, Frames(b + later))))
         == Then(Then(sofar, these), Publish(expected, FrameEvents(eng, Frames(CutLines(b).tail + later))))
  {
    hide CutLines, FrameEvents, Publish, Then, Frames;
    these := Publish(expected, FrameEvents(eng, CutLines(b).frames));
    var rest := FrameEvents(eng, Frames(CutLines(b).tail + later));
    StreamSplit(eng, b, later);
    PublishAppend(expected, FrameEvents(eng, CutLines(b).frames), rest);
    ThenAssociative(sofar, these, Publish(expected, rest));
  }

  lemma StartOfStream(chunks: seq<Bytes>)
    ensures CutLines([]) == Cut([], [])
    ensures Stream(chunks) == [] + Stream(chunks[0..])
    ensures [] + Stream(chunks[0..]) == Stream(chunks)
  {
    assert chunks[0..] == chunks;
  }

  lemma NoFrame(eng: Engine, tail: Bytes)
    requires FindLf(tail).None?
    ensures CutLines(tail) == Cut([], tail) && FrameEvents(eng, CutLines(tail).frames) == []
  {
    hide FindLf;
  }

  lemma NextChunk(chunks: seq<Bytes>, n: nat, output: Bytes, pending: Bytes)
    requires n < |chunks| && chunks[n] != []
    requires Stream(chunks) == output + Stream(chunks[n..])
    ensures Stream(chunks) == (output + chunks[n]) + Stream(chunks[n + 1..])
    ensures pending + Stream(chunks[n..]) == (pending + chunks[n]) + Stream(chunks[n + 1..])
  {
    assert chunks[n..][0] == chunks[n] && chunks[n..][1..] == chunks[n + 1..];
    var later := Stream(chunks[n + 1..]);
    assert Stream(chunks[n..]) == chunks[n] + later;
  }

  lemma EndOfStream(chunks: seq<Bytes>, n: nat, output: Bytes, pending: Bytes)
    requires n <= |chunks| && (n < |chunks| ==> chunks[n] == [])
    requires Stream(chunks) == output + Stream(chunks[n..])
    ensures Stream(chunks) == output && pending + Stream(chunks[n..]) == pending
  {
    assert n < |chunks| ==> chunks[n..][0] == chunks[n];
    assert Stream(chunks[n..]) == [];
  }

  lemma FirstFrame(eng: Engine, b: Bytes)
    requires FindLf(b).Some?
    ensures var n := FindLf(b).value + 1;
            && CutLines(b).tail == CutLines(b[n..]).tail
            && FrameEvents(eng, CutLines(b).frames)
            == Decode(eng, eng.utf8(b[..n])) + FrameEvents(eng, CutLines(b[n..]).frames)
  {
    hide FindLf, Decode, FrameEvents;
    var n := FindLf(b).value + 1;
    FrameEventsAppend(eng, [b[..n]], CutLines(b[n..]).frames);
    OneFrame(eng, b[..n]);
  }
}
