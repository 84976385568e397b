/**
 What the OpenCode backend (src/symphony/backends/opencode.py) reads out of an event: which events a text
 holds, what usage an event reports, and which session it names, told on the decoded values.
 */
module OpenCodeMeaning {
  import opened Prelude
  import opened OpenCode

  // ---------------------------------------------------------------------------------------------
  // Usage of one dictionary
  // ---------------------------------------------------------------------------------------------

  const INPUT_KEYS := ["input_tokens", "prompt_tokens", "input", "prompt"]
  const CACHED_KEYS := ["cache_input_tokens", "cached"]
  const CACHE_PARTS := ["cache_read", "cacheRead", "cache_write", "cacheWrite"]
  const NESTED_PARTS := ["read", "write", "cache_read", "cache_write", "cacheRead", "cacheWrite"]
  const OUTPUT_KEYS :=
    ["output_tokens", "completion_tokens", "output", "completion", "reasoning", "candidates", "thoughts", "tool"]
  const TOTAL_KEYS := ["total_tokens", "totalTokens", "total"]

  /** A number a key holds: there, neither null nor a boolean, and read as an integer other than zero. */
  ghost predicate Holds(eng: Engine, data: Event, key: string, n: int) {
    key in data && !data[key].Null? && !data[key].Bool? && eng.toInt(data[key]) == Some(n) && n != 0
  }

  /** The first of the keys that holds a number holds this one; zero when none does. */
  ghost predicate FirstHeld(eng: Engine, data: Event, keys: seq<string>, n: int) {
    || (n == 0 && forall i, m :: 0 <= i < |keys| ==> !Holds(eng, data, keys[i], m))
    || (exists i ::
          && 0 <= i < |keys| && Holds(eng, data, keys[i], n)
          && forall j, m :: 0 <= j < i ==> !Holds(eng, data, keys[j], m))
  }

  /** What each key adds: the number it holds if that is positive. */
  ghost predicate Adds(eng: Engine, data: Event, key: string, n: int) {
    n >= 0 && if n > 0 then Holds(eng, data, key, n) else forall m :: m > 0 ==> !Holds(eng, data, key, m)
  }

  function Sum(ns: seq<int>): int {
    if |ns| == 0 then 0 else ns[0] + Sum(ns[1..])
  }

  ghost predicate AddUpTo(eng: Engine, data: Event, keys: seq<string>, n: int) {
    exists ns: seq<int> ::
      Sum(ns) == n && |ns| == |keys| && forall i :: 0 <= i < |keys| ==> Adds(eng, data, keys[i], ns[i])
  }

  /** What the parts in a nested cache object add up to, and nothing without one. */
  ghost predicate InCache(eng: Engine, data: Event, n: int) {
    if "cache" in data && data["cache"].Obj? then AddUpTo(eng, data["cache"].fields, NESTED_PARTS, n) else n == 0
  }

  /** The tokens read from the cache beside the input: the explicit number, or the sum of the parts. */
  ghost predicate Cached(eng: Engine, data: Event, n: int) {
    exists explicit, parts, nested ::
      && FirstHeld(eng, data, CACHED_KEYS, explicit) && AddUpTo(eng, data, CACHE_PARTS, parts)
      && InCache(eng, data, nested)
      && n == if explicit != 0 then explicit else parts + nested
  }

  /** Input with the cache, output, and the total that is given or else their sum. */
  ghost predicate Reports(eng: Engine, data: Event, u: Usage) {
    exists plain, cached, total ::
      && FirstHeld(eng, data, INPUT_KEYS, plain) && Cached(eng, data, cached) && u.input == plain + cached
      && FirstHeld(eng, data, OUTPUT_KEYS, u.output)
      && FirstHeld(eng, data, TOTAL_KEYS, total) && u.total == if total != 0 then total else u.input + u.output
  }

  lemma IntAtMeans(eng: Engine, data: Event, key: string, n: int)
    ensures Holds(eng, data, key, n) <==> IntAt(eng, data, key) == n != 0
    ensures Adds(eng, data, key, n) <==> n == (if IntAt(eng, data, key) > 0 then IntAt(eng, data, key) else 0)
  {
    var m := IntAt(eng, data, key);
    assert m != 0 ==> Holds(eng, data, key, m);
  }

  lemma {:induction false} FirstIntMeans(eng: Engine, data: Event, keys: seq<string>, n: int)
    ensures FirstInt(eng, data, keys) == n <==> FirstHeld(eng, data, keys, n)
    decreases |keys|
  {
    hide IntAt, Holds;
    if |keys| > 0 {
      var first := IntAt(eng, data, keys[0]);
      forall i, m | 0 <= i < |keys| ensures Holds(eng, data, keys[i], m) <==> IntAt(eng, data, keys[i]) == m != 0 {
        IntAtMeans(eng, data, keys[i], m);
      }
      FirstIntMeans(eng, data, keys[1..], n);
      assert forall i :: 0 < i < |keys| ==> keys[i] == keys[1..][i - 1];
      if first != 0 {
        assert Holds(eng, data, keys[0], first);
      } else {
        assert forall m :: !Holds(eng, data, keys[0], m);
        FirstHeldLater(eng, data, keys, n);
      }
    }
  }

  lemma FirstHeldLater(eng: Engine, data: Event, keys: seq<string>, n: int)
    requires |keys| > 0 && forall m :: !Holds(eng, data, keys[0], m)
    ensures FirstHeld(eng, data, keys, n) <==> FirstHeld(eng, data, keys[1..], n)
  {
    hide Holds;
    var rest := keys[1..];
    assert forall i :: 0 < i < |keys| ==> keys[i] == rest[i - 1];
    assert forall i :: 0 <= i < |rest| ==> rest[i] == keys[i + 1];
    if FirstHeld(eng, data, rest, n) {
      if i :| 0 <= i < |rest| && Holds(eng, data, rest[i], n)
              && forall j, m :: 0 <= j < i ==> !Holds(eng, data, rest[j], m) {
        assert Holds(eng, data, keys[i + 1], n);
        forall j, m | 0 <= j < i + 1 ensures !Holds(eng, data, keys[j], m) {
          assert j > 0 ==> keys[j] == rest[j - 1];
        }
      }
    }
    if FirstHeld(eng, data, keys, n) {
      if i :| 0 <= i < |keys| && Holds(eng, data, keys[i], n)
              && forall j, m :: 0 <= j < i ==> !Holds(eng, data, keys[j], m) {
        assert Holds(eng, data, rest[i - 1], n);
        forall j, m | 0 <= j < i - 1 ensures !Holds(eng, data, rest[j], m) {
          assert rest[j] == keys[j + 1];
        }
      } else {
        forall i, m | 0 <= i < |rest| ensures !Holds(eng, data, rest[i], m) {
          assert rest[i] == keys[i + 1];
        }
      }
    }
  }

  lemma {:induction false} SumIntsMeans(eng: Engine, data: Event, keys: seq<string>, n: int)
    ensures SumInts(eng, data, keys) == n <==> AddUpTo(eng, data, keys, n)
    decreases |keys|
  {
    hide IntAt, Adds;
    if |keys| == 0 {
      assert Sum([]) == 0;
    } else {
      var first := if IntAt(eng, data, keys[0]) > 0 then IntAt(eng, data, keys[0]) else 0;
      forall m ensures Adds(eng, data, keys[0], m) <==> m == first {
        IntAtMeans(eng, data, keys[0], m);
      }
      SumIntsMeans(eng, data, keys[1..], n - first);
      if AddUpTo(eng, data, keys, n) {
        var ns: seq<int> :|
          Sum(ns) == n && |ns| == |keys| && forall i :: 0 <= i < |keys| ==> Adds(eng, data, keys[i], ns[i]);
        forall i | 0 <= i < |keys[1..]| ensures Adds(eng, data, keys[1..][i], ns[1..][i]) {
          assert Adds(eng, data, keys[i + 1], ns[i + 1]);
        }
        assert Sum(ns[1..]) == n - first;
      }
      if AddUpTo(eng, data, keys[1..], n - first) {
        var rest: seq<int> :| Sum(rest) == n - first && |rest| == |keys[1..]|
                              && forall i :: 0 <= i < |keys[1..]| ==> Adds(eng, data, keys[1..][i], rest[i]);
        var ns := [first] + rest;
        assert ns[1..] == rest;
        forall i | 0 <= i < |keys| ensures Adds(eng, data, keys[i], ns[i]) {
          if i > 0 {
            assert Adds(eng, data, keys[1..][i - 1], rest[i - 1]);
          }
        }
        assert Sum(ns) == n;
      }
    }
  }

  /** The usage of a dictionary is what it reports, and nothing else. */
  lemma UsageMeans(eng: Engine, data: Event, u: Usage)
    ensures UsageOf(eng, data) == u <==> Reports(eng, data, u)
  {
    hide FirstInt, SumInts, FirstHeld, AddUpTo;
    forall keys, n ensures FirstInt(eng, data, keys) == n <==> FirstHeld(eng, data, keys, n) {
      FirstIntMeans(eng, data, keys, n);
    }
    CachedMeans(eng, data);
    var plain, total := FirstInt(eng, data, INPUT_KEYS), FirstInt(eng, data, TOTAL_KEYS);
    assert FirstHeld(eng, data, INPUT_KEYS, plain) && FirstHeld(eng, data, TOTAL_KEYS, total);
    assert Cached(eng, data, CachedOf(eng, data));
  }

  /** What a nested cache object adds, as it is computed. */
  function NestedOf(eng: Engine, data: Event): int {
    if "cache" in data && data["cache"].Obj? then SumInts(eng, data["cache"].fields, NESTED_PARTS) else 0
  }

  function CachedOf(eng: Engine, data: Event): int {
    var explicit := FirstInt(eng, data, CACHED_KEYS);
    if explicit != 0 then explicit else SumInts(eng, data, CACHE_PARTS) + NestedOf(eng, data)
  }

  lemma CachedMeans(eng: Engine, data: Event)
    ensures forall n :: CachedOf(eng, data) == n <==> Cached(eng, data, n)
  {
    hide FirstInt, SumInts, FirstHeld, AddUpTo, InCache, NestedOf;
    forall n ensures FirstInt(eng, data, CACHED_KEYS) == n <==> FirstHeld(eng, data, CACHED_KEYS, n) {
      FirstIntMeans(eng, data, CACHED_KEYS, n);
    }
    forall n ensures SumInts(eng, data, CACHE_PARTS) == n <==> AddUpTo(eng, data, CACHE_PARTS, n) {
      SumIntsMeans(eng, data, CACHE_PARTS, n);
    }
    forall n ensures NestedOf(eng, data) == n <==> InCache(eng, data, n) {
      NestedMeansCache(eng, data, n);
    }
    var explicit, parts := FirstInt(eng, data, CACHED_KEYS), SumInts(eng, data, CACHE_PARTS);
    assert FirstHeld(eng, data, CACHED_KEYS, explicit) && AddUpTo(eng, data, CACHE_PARTS, parts);
    assert InCache(eng, data, NestedOf(eng, data));
  }

  lemma NestedMeansCache(eng: Engine, data: Event, n: int)
    ensures NestedOf(eng, data) == n <==> InCache(eng, data, n)
  {
    hide SumInts, AddUpTo;
    if "cache" in data && data["cache"].Obj? {
      SumIntsMeans(eng, data["cache"].fields, NESTED_PARTS, n);
    }
  }

  // ---------------------------------------------------------------------------------------------
  // Usage of an event
  // ---------------------------------------------------------------------------------------------

  const HOLDERS := ["usage", "tokens", "stats", "cost", "part", "info"]

  /** The way to a part of a value: an item of a list, or what one of six keys holds. */
  datatype Way = Item(n: nat) | Key(name: string)

  ghost predicate Leads(value: Json, way: seq<Way>, found: Event)
    decreases |way|
  {
    if |way| == 0 then value == Obj(found)
    else
      match way[0]
      case Item(n) => value.Arr? && n < |value.items| && Leads(value.items[n], way[1..], found)
      case Key(name) =>
        value.Obj? && name in HOLDERS && name in value.fields && Leads(value.fields[name], way[1..], found)
  }

  /** A dictionary that counts: some way leads to it, and it has a token key. */
  ghost predicate Counts(value: Json, data: Event) {
    TOKEN_KEYS * data.Keys != {} && exists way :: Leads(value, way, data)
  }

  /** The dictionaries that count, in the order they are found. */
  function Found(value: Json): seq<Event>
    decreases value, 1, 0
  {
    match value
    case Arr(items) => FoundInItems(items)
    case Obj(fields) => (if TOKEN_KEYS * fields.Keys != {} then [fields] else []) + FoundInKeys(value, HOLDERS)
    case _ => []
  }

  function FoundInItems(items: seq<Json>): seq<Event>
    decreases items, 0, 0
  {
    if items == [] then [] else Found(items[0]) + FoundInItems(items[1..])
  }

  function FoundInKeys(value: Json, keys: seq<string>): seq<Event>
    requires value.Obj?
    decreases value, 0, |keys|
  {
    if keys == [] then []
    else (if keys[0] in value.fields then Found(value.fields[keys[0]]) else []) + FoundInKeys(value, keys[1..])
  }

  function Usages(eng: Engine, found: seq<Event>): Usage {
    if |found| == 0 then ZERO else Add(UsageOf(eng, found[0]), Usages(eng, found[1..]))
  }

  lemma {:induction false} UsagesAppend(eng: Engine, a: seq<Event>, b: seq<Event>)
    ensures Usages(eng, a + b) == Add(Usages(eng, a), Usages(eng, b))
  {
    hide UsageOf, Add;
    if |a| == 0 {
      assert a + b == b;
      AddZero(Usages(eng, b));
    } else {
      assert (a + b)[0] == a[0] && (a + b)[1..] == a[1..] + b;
      UsagesAppend(eng, a[1..], b);
      AddAssociative(UsageOf(eng, a[0]), Usages(eng, a[1..]), Usages(eng, b));
    }
  }

  lemma AddZero(a: Usage)
    ensures Add(ZERO, a) == Add(a, ZERO) == a
  {
  }

  lemma AddAssociative(a: Usage, b: Usage, c: Usage)
    ensures Add(a, Add(b, c)) == Add(Add(a, b), c)
  {
  }

  /** The usage of an event is the sum over the dictionaries found in it. */
  lemma {:induction false} ValueUsageIsSum(eng: Engine, value: Json)
    ensures ValueUsage(eng, value) == Usages(eng, Found(value))
    decreases value, 1, 0
  {
    hide UsageOf, Add, KeysUsage, FoundInKeys;
    match value
    case Arr(items) => ItemsUsageIsSum(eng, items);
    case Obj(fields) =>
      var own := if TOKEN_KEYS * fields.Keys != {} then [fields] else [];
      KeysUsageIsSum(eng, value, HOLDERS);
      OwnUsage(eng, fields);
      UsagesAppend(eng, own, FoundInKeys(value, HOLDERS));
      assert ValueUsage(eng, value) == Add(Usages(eng, own), KeysUsage(eng, value, HOLDERS));
      assert Found(value) == own + FoundInKeys(value, HOLDERS);
    case _ =>
  }

  lemma OwnUsage(eng: Engine, fields: Event)
    ensures Usages(eng, [fields]) == UsageOf(eng, fields) && Usages(eng, []) == ZERO
  {
    hide UsageOf;
    assert [fields][1..] == [];
    AddZero(UsageOf(eng, fields));
  }

  lemma {:induction false} ItemsUsageIsSum(eng: Engine, items: seq<Json>)
    ensures ItemsUsage(eng, items) == Usages(eng, FoundInItems(items))
    decreases items, 0, 0
  {
    if items != [] {
      ValueUsageIsSum(eng, items[0]);
      ItemsUsageIsSum(eng, items[1..]);
      UsagesAppend(eng, Found(items[0]), FoundInItems(items[1..]));
    }
  }

  lemma {:induction false} KeysUsageIsSum(eng: Engine, value: Json, keys: seq<string>)
    requires value.Obj?
    ensures KeysUsage(eng, value, keys) == Usages(eng, FoundInKeys(value, keys))
    decreases value, 0, |keys|
  {
    if keys != [] {
      if keys[0] in value.fields {
        ValueUsageIsSum(eng, value.fields[keys[0]]);
      }
      KeysUsageIsSum(eng, value, keys[1..]);
      UsagesAppend(eng, if keys[0] in value.fields then Found(value.fields[keys[0]]) else [],
                   FoundInKeys(value, keys[1..]));
    }
  }

  /** And those are exactly the ones that count. */
  lemma {:induction false} FoundIff(value: Json, data: Event)
    ensures data in Found(value) <==> Counts(value, data)
    decreases value, 1, 0
  {
    hide Counts, Leads;
    match value
    case Arr(items) =>
      FoundInItemsIff(items, data);
      CountsInItems(items, data);
    case Obj(fields) =>
      FoundInKeysIff(value, HOLDERS, data);
      CountsInKeys(value, data);
    case _ =>
      CountsNowhere(value, data);
  }

  lemma CountsNowhere(value: Json, data: Event)
    requires !value.Arr? && !value.Obj?
    ensures !Counts(value, data)
  {
  }

  lemma CountsInItems(items: seq<Json>, data: Event)
    ensures Counts(Arr(items), data) <==> exists n :: 0 <= n < |items| && Counts(items[n], data)
  {
    if way: seq<Way> :| Leads(Arr(items), way, data) && TOKEN_KEYS * data.Keys != {} {
      assert Leads(items[way[0].n], way[1..], data);
    }
    if n :| 0 <= n < |items| && Counts(items[n], data) {
      var way :| Leads(items[n], way, data);
      assert ([Item(n)] + way)[1..] == way;
      assert Leads(Arr(items), [Item(n)] + way, data);
    }
  }

  lemma CountsInKeys(value: Json, data: Event)
    requires value.Obj?
    ensures Counts(value, data) <==>
              || (TOKEN_KEYS * data.Keys != {} && value.fields == data)
              || exists k :: k in HOLDERS && k in value.fields && Counts(value.fields[k], data)
  {
    if way: seq<Way> :| Leads(value, way, data) && TOKEN_KEYS * data.Keys != {} {
      if |way| > 0 {
        assert Leads(value.fields[way[0].name], way[1..], data);
      }
    }
    if value.fields == data {
      assert Leads(value, [], data);
    }
    if k :| k in HOLDERS && k in value.fields && Counts(value.fields[k], data) {
      var way :| Leads(value.fields[k], way, data);
      assert ([Key(k)] + way)[1..] == way;
      assert Leads(value, [Key(k)] + way, data);
    }
  }

  lemma {:induction false} FoundInItemsIff(items: seq<Json>, data: Event)
    ensures data in FoundInItems(items) <==> exists n :: 0 <= n < |items| && Counts(items[n], data)
    decreases items, 0, 0
  {
    hide Counts;
    if items != [] {
      FoundIff(items[0], data);
      FoundInItemsIff(items[1..], data);
      assert forall n :: 0 < n < |items| ==> items[n] == items[1..][n - 1];
      assert forall n :: 0 <= n < |items[1..]| ==> items[1..][n] == items[n + 1];
    }
  }

  lemma {:induction false} FoundInKeysIff(value: Json, keys: seq<string>, data: Event)
    requires value.Obj?
    ensures data in FoundInKeys(value, keys) <==>
              exists k :: k in keys && k in value.fields && Counts(value.fields[k], data)
    decreases value, 0, |keys|
  {
    hide Counts;
    if keys != [] {
      if keys[0] in value.fields {
        FoundIff(value.fields[keys[0]], data);
      }
      FoundInKeysIff(value, keys[1..], data);
      assert keys == [keys[0]] + keys[1..];
    }
  }

  // ---------------------------------------------------------------------------------------------
  // The events of a text
  // ---------------------------------------------------------------------------------------------

  /** The events are the objects among some decoded values, all of them and in order. */
  ghost predicate ObjectsAmong(values: seq<Option<Json>>, events: seq<Event>, at: seq<nat>) {
    && |at| == |events|
    && (forall k :: 0 <= k < |at| ==> at[k] < |values| && values[at[k]] == Some(Obj(events[k])))
    && (forall k, l :: 0 <= k < l < |at| ==> at[k] < at[l])
    && (forall i :: 0 <= i < |values| && values[i].Some? && values[i].value.Obj? ==> i in at)
  }

  function OneValue(parsed: Option<Json>): seq<Event> {
    if parsed.Some? && parsed.value.Obj? then [parsed.value.fields] else []
  }

  lemma AmongCons(first: Option<Json>, values: seq<Option<Json>>, events: seq<Event>, at: seq<nat>)
    returns (all: seq<nat>)
    requires ObjectsAmong(values, events, at)
    ensures ObjectsAmong([first] + values, OneValue(first) + events, all)
  {
    hide ObjectsAmong;
    var moved := Moved(at);
    AmongMoved(first, values, events, at);
    if OneValue(first) == [] {
      all := moved;
      assert OneValue(first) + events == events;
      NotAnObject(first, values, events, moved);
    } else {
      all := [0] + moved;
      AnObject(first, values, events, moved);
    }
  }

  function Moved(at: seq<nat>): seq<nat> { seq(|at|, k requires 0 <= k < |at| => at[k] + 1) }

  /** The same events among more values: all objects but perhaps the first value. */
  ghost predicate AmongLater(values: seq<Option<Json>>, events: seq<Event>, at: seq<nat>) {
    && |at| == |events|
    && (forall k :: 0 <= k < |at| ==> 0 < at[k] < |values| && values[at[k]] == Some(Obj(events[k])))
    && (forall k, l :: 0 <= k < l < |at| ==> at[k] < at[l])
    && (forall i :: 0 < i < |values| && values[i].Some? && values[i].value.Obj? ==> i in at)
  }

  lemma AmongMoved(first: Option<Json>, values: seq<Option<Json>>, events: seq<Event>, at: seq<nat>)
    requires ObjectsAmong(values, events, at)
    ensures AmongLater([first] + values, events, Moved(at))
  {
    var more, moved := [first] + values, Moved(at);
    assert forall i :: 0 < i < |more| ==> more[i] == values[i - 1];
    forall i | 0 < i < |more| && more[i].Some? && more[i].value.Obj? ensures i in moved {
      assert i - 1 in at;
      var k :| 0 <= k < |at| && at[k] == i - 1;
      assert moved[k] == i;
    }
  }

  lemma NotAnObject(first: Option<Json>, values: seq<Option<Json>>, events: seq<Event>, at: seq<nat>)
    requires OneValue(first) == [] && AmongLater([first] + values, events, at)
    ensures ObjectsAmong([first] + values, events, at)
  {
  }

  lemma AnObject(first: Option<Json>, values: seq<Option<Json>>, events: seq<Event>, at: seq<nat>)
    requires OneValue(first) != [] && AmongLater([first] + values, events, at)
    ensures ObjectsAmong([first] + values, OneValue(first) + events, [0] + at)
  {
    var all := [0] + at;
    assert forall k :: 0 < k < |all| ==> all[k] == at[k - 1];
    assert all[0] == 0;
  }

  lemma {:induction false} ObjectsMean(items: seq<Json>) returns (at: seq<nat>)
    ensures ObjectsAmong(Somes(items), Objects(items), at)
  {
    if items == [] {
      at := [];
    } else {
      var rest := ObjectsMean(items[1..]);
      at := AmongCons(Some(items[0]), Somes(items[1..]), Objects(items[1..]), rest);
      assert Somes(items) == [Some(items[0])] + Somes(items[1..]);
    }
  }

  function Somes(items: seq<Json>): seq<Option<Json>> {
    seq(|items|, i requires 0 <= i < |items| => Some(items[i]))
  }

  /** What a line holds, once stripped: nothing when it is blank. */
  function LineValue(eng: Engine, line: string): Option<Json> {
    if eng.strip(line) == "" then None else eng.json(eng.strip(line))
  }

  function LineValues(eng: Engine, lines: seq<string>): seq<Option<Json>> {
    seq(|lines|, i requires 0 <= i < |lines| => LineValue(eng, lines[i]))
  }

  lemma {:induction false} LineEventsMean(eng: Engine, lines: seq<string>) returns (at: seq<nat>)
    ensures ObjectsAmong(LineValues(eng, lines), LineEvents(eng, lines), at)
  {
    if lines == [] {
      at := [];
    } else {
      var rest := LineEventsMean(eng, lines[1..]);
      at := AmongCons(LineValue(eng, lines[0]), LineValues(eng, lines[1..]), LineEvents(eng, lines[1..]), rest);
      assert LineValues(eng, lines) == [LineValue(eng, lines[0])] + LineValues(eng, lines[1..]);
    }
  }

  /**
   The events of a text: one document's object, or the objects of its list in order; and if the text is no
   document, the objects its lines hold, in order.
   */
  lemma DecodeMeans(eng: Engine, text: string) returns (at: seq<nat>)
    requires text != ""
    ensures var document := eng.json(text);
            if document.None? then ObjectsAmong(LineValues(eng, eng.lines(text)), Decode(eng, text), at)
            else if document.value.Arr? then ObjectsAmong(Somes(document.value.items), Decode(eng, text), at)
            else ObjectsAmong([document], Decode(eng, text), at)
    ensures Decode(eng, "") == []
  {
    match eng.json(text)
    case None => at := LineEventsMean(eng, eng.lines(text));
    case Some(Arr(items)) => at := ObjectsMean(items);
    case Some(Obj(_)) => at := [0];
    case Some(_) => at := [];
  }

  // ---------------------------------------------------------------------------------------------
  // The session an event names
  // ---------------------------------------------------------------------------------------------

  const SESSION_KEYS := ["session_id", "sessionId", "sessionID"]

  ghost predicate HoldsText(data: Event, key: string, s: string) {
    key in data && data[key] == Str(s) && s != ""
  }

  /** One of the three keys holds the text, and none of the keys before it holds any. */
  ghost predicate NamesItself(data: Event, s: string) {
    exists i ::
      && 0 <= i < |SESSION_KEYS| && HoldsText(data, SESSION_KEYS[i], s)
      && forall j, x :: 0 <= j < i ==> !HoldsText(data, SESSION_KEYS[j], x)
  }

  ghost predicate NoName(data: Event) {
    forall j, x :: 0 <= j < |SESSION_KEYS| ==> !HoldsText(data, SESSION_KEYS[j], x)
  }

  /** What the nested object names, or else its id. */
  ghost predicate NamesNested(value: Json, key: string, s: string)
    requires value.Obj?
    decreases value, 0
  {
    && key in value.fields && value.fields[key].Obj?
    && (|| Names(value.fields[key], s)
        || ((forall x :: !Names(value.fields[key], x)) && HoldsText(value.fields[key].fields, "id", s)))
  }

  /** A session named by the object itself, or else by what it holds as session, or else as data. */
  ghost predicate Names(value: Json, s: string)
    requires value.Obj?
    decreases value, 1
  {
    || NamesItself(value.fields, s)
    || (NoName(value.fields) && NamesNested(value, "session", s))
    || (NoName(value.fields) && (forall x :: !NamesNested(value, "session", x)) && NamesNested(value, "data", s))
  }

  lemma {:induction false} FirstStringMeans(data: Event, keys: seq<string>)
    ensures var r := FirstString(data, keys);
            if r.None? then forall j, x :: 0 <= j < |keys| ==> !HoldsText(data, keys[j], x)
            else exists i ::
                   && 0 <= i < |keys| && HoldsText(data, keys[i], r.value)
                   && forall j, x :: 0 <= j < i ==> !HoldsText(data, keys[j], x)
  {
    if keys != [] {
      FirstStringMeans(data, keys[1..]);
      assert forall i :: 0 < i < |keys| ==> keys[i] == keys[1..][i - 1];
      assert forall i :: 0 <= i < |keys[1..]| ==> keys[1..][i] == keys[i + 1];
      if keys[0] in data && data[keys[0]].Str? && data[keys[0]].s != "" {
        assert HoldsText(data, keys[0], data[keys[0]].s);
      } else if FirstString(data, keys[1..]).Some? {
        var s := FirstString(data, keys[1..]).value;
        var i :| 0 <= i < |keys[1..]| && HoldsText(data, keys[1..][i], s)
                 && forall j, x :: 0 <= j < i ==> !HoldsText(data, keys[1..][j], x);
        assert HoldsText(data, keys[i + 1], s);
      }
    }
  }

  lemma ItselfMeans(data: Event)
    ensures var r := FirstString(data, SESSION_KEYS);
            && (r.None? <==> NoName(data))
            && forall s :: NamesItself(data, s) <==> r == Some(s)
  {
    hide FirstString;
    FirstStringMeans(data, SESSION_KEYS);
  }

  /** The session of an event is the one it names, and there is none exactly when it names none. */
  lemma {:induction false} SessionMeans(value: Json)
    requires value.Obj?
    ensures forall s :: SessionOf(value) == Some(s) <==> Names(value, s)
    decreases value, 1
  {
    hide FirstString, NamesItself, NoName, NestedSession, NamesNested;
    ItselfMeans(value.fields);
    NestedMeans(value, "session");
    NestedMeans(value, "data");
  }

  lemma {:induction false} NestedMeans(value: Json, key: string)
    requires value.Obj?
    ensures forall s :: NestedSession(value, key) == Some(s) <==> NamesNested(value, key, s)
    decreases value, 0
  {
    hide SessionOf, Names;
    if key in value.fields && value.fields[key].Obj? {
      var inner := value.fields[key];
      SessionMeans(inner);
      assert SessionOf(inner).Some? ==> Names(inner, SessionOf(inner).value);
      IdMeans(inner.fields);
    }
  }

  lemma IdMeans(data: Event)
    ensures forall s :: FirstString(data, ["id"]) == Some(s) <==> HoldsText(data, "id", s)
  {
    assert ["id"][1..] == [];
    assert FirstString(data, []) == None;
  }
}
