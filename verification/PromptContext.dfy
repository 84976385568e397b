/**
 Which sections of a ticket a lane's first prompt keeps
 (src/symphony/prompt_context.py, build_issue_prompt_context).

 The section-name lists, the test for open plan items and the preamble's
 line filter are parameters.
 */
module PromptContext {
  import opened Prelude
  import opened TextUtil
  import opened Sections

  datatype Lane = Verify | Document | Build | OtherLane

  datatype Names = Names(
    scope: set<string>, owned: set<string>, failures: set<string>,
    verify: set<string>, document: set<string>, build: set<string>, plan: string)

  datatype Rules = Rules(names: Names, unresolved: string -> bool, clean: string -> string)

  // ---------------------------------------------------------------------
  // What is kept
  // ---------------------------------------------------------------------

  /** No agent-owned section up to and including i. */
  ghost predicate Leading(names: Names, ss: seq<Section>, i: nat)
    requires i < |ss|
  {
    forall j :: 0 <= j <= i ==> ss[j].name !in names.owned
  }

  /** The last section whose name is in the set. */
  ghost predicate Latest(set0: set<string>, ss: seq<Section>, i: nat)
    requires i < |ss|
  {
    ss[i].name in set0 && forall j :: i < j < |ss| ==> ss[j].name !in set0
  }

  /** The last section of its name, and the name is in the set. */
  ghost predicate LatestOfName(set0: set<string>, ss: seq<Section>, i: nat)
    requires i < |ss|
  {
    ss[i].name in set0 && forall j :: i < j < |ss| ==> ss[j].name != ss[i].name
  }

  ghost predicate KeptByLane(r: Rules, ss: seq<Section>, lane: Lane, i: nat)
    requires i < |ss|
  {
    match lane
    case Verify => LatestOfName(r.names.verify, ss, i)
    case Document => LatestOfName(r.names.document, ss, i)
    case Build =>
      || LatestOfName(r.names.build, ss, i)
      || Latest(r.names.failures, ss, i)
      || (Latest({r.names.plan}, ss, i) && r.unresolved(ss[i].body))
    case OtherLane => false
  }

  ghost predicate Kept(r: Rules, ss: seq<Section>, lane: Lane, rewind: bool, i: nat)
    requires i < |ss|
  {
    || Leading(r.names, ss, i)
    || ss[i].name in r.names.scope
    || (if rewind then Latest(r.names.failures, ss, i) else KeptByLane(r, ss, lane, i))
  }

  ghost predicate Numbered(ss: seq<Section>) {
    forall i :: 0 <= i < |ss| ==> ss[i].index == i
  }

  /** A selection is a dictionary from index to section. */
  ghost predicate Selects(selected: map<nat, Section>, ss: seq<Section>) {
    forall i :: i in selected ==> i < |ss| && selected[i] == ss[i]
  }

  // ---------------------------------------------------------------------
  // The selection's loops
  // ---------------------------------------------------------------------

  method LeadingScopeSections(names: Names, ss: seq<Section>) returns (out: seq<Section>)
    ensures |out| <= |ss| && out == ss[..|out|]
    ensures forall i :: 0 <= i < |ss| ==> (i < |out| <==> Leading(names, ss, i))
  {
    out := [];
    for i := 0 to |ss|
      invariant out == ss[..i]
      invariant forall j :: 0 <= j < i ==> ss[j].name !in names.owned
    {
      if ss[i].name in names.owned {
        break;
      }
      out := out + [ss[i]];
    }
  }

  method LatestSection(ss: seq<Section>, names: set<string>) returns (found: Option<Section>)
    requires Numbered(ss)
    ensures found.Some? ==> found.value.index < |ss| && found.value == ss[found.value.index]
                            && Latest(names, ss, found.value.index)
    ensures found.None? ==> forall i :: 0 <= i < |ss| ==> ss[i].name !in names
  {
    for i := |ss| downto 0
      invariant forall j :: i <= j < |ss| ==> ss[j].name !in names
    {
      if ss[i].name in names {
        return Some(ss[i]);
      }
    }
    return None;
  }

  /** Section `s` is the last of the name n, which is in the set. */
  ghost predicate IsLatest(names: set<string>, ss: seq<Section>, n: string, s: Section) {
    s.name == n && s.index < |ss| && s == ss[s.index] && LatestOfName(names, ss, s.index)
  }

  method LatestByName(ss: seq<Section>, names: set<string>) returns (latest: map<string, Section>)
    requires Numbered(ss)
    ensures forall n :: n in latest ==> IsLatest(names, ss, n, latest[n])
    ensures forall i :: 0 <= i < |ss| && ss[i].name in names ==> ss[i].name in latest
  {
    latest := map[];
    for i := 0 to |ss|
      invariant forall n :: n in latest ==> IsLatest(names, ss[..i], n, latest[n])
      invariant forall j :: 0 <= j < i && ss[j].name in names ==> ss[j].name in latest
    {
      var s := ss[i];
      forall n | n in latest && !(s.name in names && n == s.name) ensures IsLatest(names, ss[..i + 1], n, latest[n]) {
        assert IsLatest(names, ss[..i], n, latest[n]);
        var more := ss[..i + 1];
        assert forall j :: latest[n].index < j <= i ==> more[j].name != n;
      }
      if s.name in names {
        latest := latest[s.name := s];
        assert IsLatest(names, ss[..i + 1], s.name, s);
      }
    }
    assert ss[..|ss|] == ss;
  }

  lemma LatestIsUnique(names: set<string>, ss: seq<Section>, s: Section, i: nat)
    requires i < |ss| && IsLatest(names, ss, ss[i].name, s)
    ensures LatestOfName(names, ss, i) <==> s.index == i
  {
  }

  method SelectLatestMatching(selected: map<nat, Section>, ss: seq<Section>, names: set<string>)
    returns (more: map<nat, Section>)
    requires Numbered(ss) && Selects(selected, ss)
    ensures Selects(more, ss)
    ensures forall i :: 0 <= i < |ss| ==> (i in more <==> i in selected || LatestOfName(names, ss, i))
  {
    var latest := LatestByName(ss, names);
    var left := latest.Keys;
    more := selected;
    while left != {}
      invariant left <= latest.Keys && Selects(more, ss)
      invariant forall i :: 0 <= i < |ss| ==>
                  (i in more <==> i in selected
                                  || (ss[i].name in latest.Keys - left && latest[ss[i].name].index == i))
      decreases |left|
    {
      var n :| n in left;
      var s := latest[n];
      assert IsLatest(names, ss, n, s);
      more := more[s.index := s];
      left := left - {n};
    }
    forall i | 0 <= i < |ss|
      ensures LatestOfName(names, ss, i) <==> ss[i].name in latest && latest[ss[i].name].index == i
    {
      if ss[i].name in latest {
        LatestIsUnique(names, ss, latest[ss[i].name], i);
      }
    }
  }

  /** A section taken on its own: `selected[s.index] = s` when there is one. */
  method SelectOne(selected: map<nat, Section>, ss: seq<Section>, s: Option<Section>) returns (more: map<nat, Section>)
    requires Selects(selected, ss) && (s.Some? ==> s.value.index < |ss| && s.value == ss[s.value.index])
    ensures Selects(more, ss)
    ensures more.Keys == selected.Keys + if s.Some? then {s.value.index} else {}
  {
    more := if s.Some? then selected[s.value.index := s.value] else selected;
  }

  method SelectLeading(names: Names, ss: seq<Section>) returns (selected: map<nat, Section>)
    requires Numbered(ss)
    ensures Selects(selected, ss)
    ensures forall i :: 0 <= i < |ss| ==> (i in selected <==> Leading(names, ss, i))
  {
    hide Leading;
    selected := map[];
    var leading := LeadingScopeSections(names, ss);
    for i := 0 to |leading|
      invariant Selects(selected, ss)
      invariant forall k :: 0 <= k < |ss| ==> (k in selected <==> k < i)
    {
      assert leading[i] == ss[i];
      selected := selected[leading[i].index := leading[i]];
    }
  }

  method SelectScope(r: Rules, ss: seq<Section>) returns (selected: map<nat, Section>)
    requires Numbered(ss)
    ensures Selects(selected, ss)
    ensures forall i :: 0 <= i < |ss| ==>
              (i in selected <==> Leading(r.names, ss, i) || ss[i].name in r.names.scope)
  {
    hide Leading;
    selected := SelectLeading(r.names, ss);
    for i := 0 to |ss|
      invariant Selects(selected, ss)
      invariant forall j :: 0 <= j < |ss| ==>
                  (j in selected <==> Leading(r.names, ss, j) || (j < i && ss[j].name in r.names.scope))
    {
      if ss[i].name in r.names.scope && ss[i].index !in selected {
        selected := selected[ss[i].index := ss[i]];
      }
    }
  }

  method Select(r: Rules, ss: seq<Section>, lane: Lane, rewind: bool) returns (selected: map<nat, Section>)
    requires Numbered(ss)
    ensures Selects(selected, ss)
    ensures forall i :: 0 <= i < |ss| ==> (i in selected <==> Kept(r, ss, lane, rewind, i))
  {
    hide Leading, LatestOfName, Numbered, Selects;
    selected := SelectScope(r, ss);
    if rewind {
      selected := SelectLatest(selected, ss, r.names.failures);
    } else if lane == Verify {
      selected := SelectLatestMatching(selected, ss, r.names.verify);
    } else if lane == Document {
      selected := SelectLatestMatching(selected, ss, r.names.document);
    } else if lane == Build {
      selected := SelectForBuild(r, selected, ss);
    }
  }

  lemma OneLatest(names: set<string>, ss: seq<Section>, i: nat, j: nat)
    requires i < |ss| && j < |ss| && Latest(names, ss, i) && Latest(names, ss, j)
    ensures i == j
  {
  }

  method SelectLatest(selected: map<nat, Section>, ss: seq<Section>, names: set<string>)
    returns (more: map<nat, Section>)
    requires Numbered(ss) && Selects(selected, ss)
    ensures Selects(more, ss)
    ensures forall i :: 0 <= i < |ss| ==> (i in more <==> i in selected || Latest(names, ss, i))
  {
    var latest := LatestSection(ss, names);
    more := SelectOne(selected, ss, latest);
    forall i | 0 <= i < |ss| ensures i in more <==> i in selected || Latest(names, ss, i) {
      if Latest(names, ss, i) && latest.Some? {
        OneLatest(names, ss, i, latest.value.index);
      }
    }
  }

  method SelectForBuild(r: Rules, selected: map<nat, Section>, ss: seq<Section>) returns (more: map<nat, Section>)
    requires Numbered(ss) && Selects(selected, ss)
    ensures Selects(more, ss)
    ensures forall i :: 0 <= i < |ss| ==> (i in more <==> i in selected || KeptByLane(r, ss, Build, i))
  {
    hide LatestOfName;
    more := SelectLatestMatching(selected, ss, r.names.build);
    more := SelectLatest(more, ss, r.names.failures);
    ghost var before := more;
    var plan := LatestSection(ss, {r.names.plan});
    if plan.Some? && r.unresolved(plan.value.body) {
      more := SelectOne(more, ss, plan);
    }
    forall i | 0 <= i < |ss| && Latest({r.names.plan}, ss, i)
      ensures plan.Some? && plan.value.index == i
    {
      if plan.Some? {
        OneLatest({r.names.plan}, ss, i, plan.value.index);
      }
    }
  }

  // ---------------------------------------------------------------------
  // The context
  // ---------------------------------------------------------------------

  /** Positions in document order, each once. */
  ghost predicate Increasing(at: seq<nat>, bound: nat) {
    && (forall k :: 0 <= k < |at| ==> at[k] < bound)
    && (forall k, l :: 0 <= k < l < |at| ==> at[k] < at[l])
  }

  ghost predicate IsSelection(
      r: Rules, ss: seq<Section>, lane: Lane, rewind: bool, chosen: seq<Section>, at: seq<nat>)
  {
    && |at| == |chosen| && Increasing(at, |ss|)
    && (forall k :: 0 <= k < |at| ==> chosen[k] == ss[at[k]])
    && (forall i :: 0 <= i < |ss| ==> (i in at <==> Kept(r, ss, lane, rewind, i)))
  }

  /** The kept sections, sorted by index. */
  method ChooseSections(r: Rules, ss: seq<Section>, lane: Lane, rewind: bool)
    returns (chosen: seq<Section>, ghost at: seq<nat>)
    requires Numbered(ss)
    ensures IsSelection(r, ss, lane, rewind, chosen, at)
  {
    hide Kept, Numbered;
    var selected := Select(r, ss, lane, rewind);
    chosen, at := [], [];
    for i := 0 to |ss|
      invariant |at| == |chosen| && Increasing(at, i)
      invariant forall k :: 0 <= k < |at| ==> chosen[k] == ss[at[k]]
      invariant forall j :: 0 <= j < i ==> (j in at <==> j in selected)
    {
      if i in selected {
        chosen := chosen + [selected[i]];
        at := at + [i];
      }
    }
  }

  function Render(s: Section): string { Strip(s.heading + s.body) }

  function Chunks(chosen: seq<Section>): seq<string> {
    if |chosen| == 0 then []
    else Chunks(chosen[..|chosen| - 1])
         + if Render(chosen[|chosen| - 1]) != "" then [Render(chosen[|chosen| - 1])] else []
  }

  function Join(chunks: seq<string>): string {
    if |chunks| == 0 then "" else if |chunks| == 1 then chunks[0] else chunks[0] + "\n\n" + Join(chunks[1..])
  }

  function Opening(r: Rules, preamble: string): seq<string> {
    if r.clean(preamble) != "" then [r.clean(preamble)] else []
  }

  function Finish(r: Rules, description: string, chunks: seq<string>): string {
    if chunks != [] then Strip(Join(chunks)) else Strip(r.clean(description))
  }

  function Context(r: Rules, description: string, preamble: string, chosen: seq<Section>): string {
    Finish(r, description, Opening(r, preamble) + Chunks(chosen))
  }

  method BuildIssuePromptContext(r: Rules, lines: seq<Line>, lane: Lane, rewind: bool)
    returns (context: string, chosen: seq<Section>, ghost sections: seq<Section>, ghost at: seq<nat>)
    ensures Describes(sections, Parse(lines, false).groups)
    ensures IsSelection(r, sections, lane, rewind, chosen, at)
    ensures context == Context(r, Concat(lines), Concat(Parse(lines, false).preamble), chosen)
  {
    hide IsSelection, Parse, Concat, SectionOf, Normalize, Title;
    var preamble, ss := ParseTicketSections(lines);
    NumberedSections(ss, Parse(lines, false).groups);
    sections := ss;
    chosen, at := ChooseSections(r, ss, lane, rewind);
    context := RenderContext(r, Concat(lines), preamble, chosen);
  }

  method RenderContext(r: Rules, description: string, preamble: string, chosen: seq<Section>) returns (context: string)
    ensures context == Context(r, description, preamble, chosen)
  {
    hide Render, Finish, Chunks;
    var chunks: seq<string> := [];
    var cleaned := r.clean(preamble);
    if cleaned != "" {
      chunks := chunks + [cleaned];
    }
    assert chunks == Opening(r, preamble);
    chunks := RenderSections(chunks, chosen);
    context := Finish(r, description, chunks);
  }

  method RenderSections(first: seq<string>, chosen: seq<Section>) returns (chunks: seq<string>)
    ensures chunks == first + Chunks(chosen)
  {
    hide Render;
    chunks := first;
    for i := 0 to |chosen|
      invariant chunks == first + Chunks(chosen[..i])
    {
      var rendered := Render(chosen[i]);
      assert chosen[..i + 1][..i] == chosen[..i];
      if rendered != "" {
        chunks := chunks + [rendered];
      }
    }
    assert chosen[..|chosen|] == chosen;
  }

  lemma NumberedSections(ss: seq<Section>, groups: seq<Group>)
    requires Describes(ss, groups)
    ensures Numbered(ss)
  {
    hide Normalize, Title, Concat;
  }

  // ---------------------------------------------------------------------
  // Laws of the selection
  // ---------------------------------------------------------------------

  /** Leading scope and scope sections are kept in every lane, rewind or not. */
  lemma ScopeAlwaysKept(
      r: Rules, ss: seq<Section>, lane: Lane, rewind: bool, chosen: seq<Section>, at: seq<nat>, i: nat)
    requires IsSelection(r, ss, lane, rewind, chosen, at) && i < |ss|
    requires (forall j :: 0 <= j <= i ==> ss[j].name !in r.names.owned) || ss[i].name in r.names.scope
    ensures ss[i] in chosen
  {
    assert Kept(r, ss, lane, rewind, i);
    var k :| 0 <= k < |at| && at[k] == i;
    assert chosen[k] == ss[i];
  }

  /** A rewind keeps the newest failure section, and no other agent-owned one. */
  lemma RewindKeepsNewestFailure(
      r: Rules, ss: seq<Section>, lane: Lane, chosen: seq<Section>, at: seq<nat>, i: nat)
    requires IsSelection(r, ss, lane, true, chosen, at) && i < |ss|
    requires ss[i].name in r.names.failures
    ensures exists k :: 0 <= k < |at| && i <= at[k] && chosen[k].name in r.names.failures
    ensures r.names.scope !! r.names.owned ==>
              forall j :: j in at && ss[j].name in r.names.owned ==> Latest(r.names.failures, ss, j)
  {
    var n := NewestFrom(r.names.failures, ss, i);
    assert Kept(r, ss, lane, true, n);
    var k :| 0 <= k < |at| && at[k] == n;
    assert chosen[k].name in r.names.failures;
    if r.names.scope !! r.names.owned {
      forall j | j in at && ss[j].name in r.names.owned ensures Latest(r.names.failures, ss, j) {
        assert Kept(r, ss, lane, true, j) && !Leading(r.names, ss, j);
      }
    }
  }

  lemma {:induction false} NewestFrom(names: set<string>, ss: seq<Section>, i: nat) returns (n: nat)
    requires i < |ss| && ss[i].name in names
    ensures i <= n < |ss| && Latest(names, ss, n)
    decreases |ss| - i
  {
    if j :| i < j < |ss| && ss[j].name in names {
      n := NewestFrom(names, ss, j);
    } else {
      n := i;
    }
  }

  /** Compacting twice keeps everything the first pass kept. */
  lemma SelectionIsIdempotent(
      r: Rules, ss: seq<Section>, lane: Lane, rewind: bool, chosen: seq<Section>, at: seq<nat>, k: nat)
    requires IsSelection(r, ss, lane, rewind, chosen, at) && k < |chosen|
    ensures Kept(r, chosen, lane, rewind, k)
  {
    assert at[k] in at && Kept(r, ss, lane, rewind, at[k]);
    forall names | Latest(names, ss, at[k]) ensures Latest(names, chosen, k) {
    }
    forall names | LatestOfName(names, ss, at[k]) ensures LatestOfName(names, chosen, k) {
    }
    if Leading(r.names, ss, at[k]) {
      assert Leading(r.names, chosen, k);
    }
  }

  /** The kept sections written one after another read back as themselves. */
  lemma SelectionReparses(lines: seq<Line>, at: seq<nat>)
    requires Increasing(at, |Parse(lines, false).groups|)
    ensures var all := Parse(lines, false).groups;
            var kept := seq(|at|, k requires 0 <= k < |at| => all[at[k]]);
            Parse(GroupLines(kept), false) == Split([], kept)
  {
    hide OneSection, Closed, Parse;
    var all := Parse(lines, false).groups;
    var kept := seq(|at|, k requires 0 <= k < |at| => all[at[k]]);
    SectionsStandAlone(lines, false);
    forall i | 0 <= i < |kept| ensures OneSection(kept[i]) && (i < |kept| - 1 ==> Closed(kept[i])) {
      assert OneSection(all[at[i]]);
      if i < |kept| - 1 {
        assert at[i] < at[i + 1] && Closed(all[at[i]]);
      }
    }
    SelectionReadsBack(kept);
  }

  // ---------------------------------------------------------------------
  // Single sections
  // ---------------------------------------------------------------------

  /** A plan that nothing else keeps is kept in a build lane exactly when it is the newest and has open items. */
  lemma PlanKeptIff(r: Rules, ss: seq<Section>, i: nat)
    requires i < |ss| && ss[i].name == r.names.plan
    requires !Leading(r.names, ss, i)
    requires r.names.plan !in r.names.scope + r.names.build + r.names.failures
    ensures Kept(r, ss, Build, false, i)
       <==> r.unresolved(ss[i].body) && forall j :: i < j < |ss| ==> ss[j].name != r.names.plan
    ensures !Kept(r, ss, Build, true, i)
  {
  }

  function Shown(chosen: seq<Section>): nat {
    if |chosen| == 0 then 0
    else Shown(chosen[..|chosen| - 1]) + if Render(chosen[|chosen| - 1]) == "" then 0 else 1
  }

  /** The text has a chunk for each kept section that is not blank, in order, and no other. */
  lemma {:induction false} ChunksAre(chosen: seq<Section>, k: nat)
    requires k < |chosen|
    ensures |Chunks(chosen)| == Shown(chosen) && "" !in Chunks(chosen)
    ensures Shown(chosen[..k]) <= Shown(chosen[..k + 1]) <= Shown(chosen)
    ensures Render(chosen[k]) != "" ==>
              Shown(chosen[..k]) < |Chunks(chosen)| && Chunks(chosen)[Shown(chosen[..k])] == Render(chosen[k])
  {
    hide Render;
    var n := |chosen| - 1;
    assert chosen[..|chosen|] == chosen;
    if k < n {
      ChunksAre(chosen[..n], k);
      assert chosen[..n][..k] == chosen[..k] && chosen[..n][..k + 1] == chosen[..k + 1];
    } else {
      NoBlankChunk(chosen[..n]);
      assert chosen[..k + 1][..k] == chosen[..k];
    }
  }

  lemma {:induction false} NoBlankChunk(chosen: seq<Section>)
    ensures |Chunks(chosen)| == Shown(chosen) && "" !in Chunks(chosen)
  {
    hide Render;
    if |chosen| > 0 {
      NoBlankChunk(chosen[..|chosen| - 1]);
    }
  }
}
