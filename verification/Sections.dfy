/**
 Ticket bodies split into sections, and the sections a lane's prompt keeps
 (src/symphony/prompt_context.py).

 A text is given as its lines, each with its line ending, as
 `splitlines(keepends=True)` returns them.
 */
module Sections {
  import opened Prelude
  import opened TextUtil

  type Line = string

  // ---------------------------------------------------------------------
  // Which lines are headings and fences
  // ---------------------------------------------------------------------

  predicate OneOrTwoMarks(line: Line, marks: nat) {
    && 1 <= marks <= 2 && marks <= |line|
    && forall i :: 0 <= i < marks ==> line[i] == '#'
  }

  /**
   The match of `^#{1,2}\s+(.+?)\s*$`: marks, white space up to `start`, a title
   up to `stop`, white space up to `end`, and then the end or a last newline.
   */
  ghost predicate HeadingMatch(line: Line, marks: nat, start: nat, stop: nat, end: nat) {
    && OneOrTwoMarks(line, marks)
    && marks < start < stop <= end <= |line|
    && (forall i :: marks <= i < start ==> IsSpace(line[i]))
    && (forall i :: start <= i < stop ==> line[i] != '\n')
    && (forall i :: stop <= i < end ==> IsSpace(line[i]))
    && (end == |line| || (end == |line| - 1 && line[end] == '\n'))
  }

  predicate HeadingAfter(line: Line, marks: nat) {
    && OneOrTwoMarks(line, marks) && marks + 1 < |line|
    && IsSpace(line[marks]) && line[marks + 1] != '\n'
  }

  predicate IsHeading(line: Line) {
    HeadingAfter(line, 1) || HeadingAfter(line, 2)
  }

  /** On a line, where a newline can only come last, the rule is the pattern. */
  lemma HeadingRule(line: Line)
    requires forall i :: 0 <= i < |line| - 1 ==> line[i] != '\n'
    ensures IsHeading(line)
       <==> exists marks: nat, start: nat, stop: nat, end: nat :: HeadingMatch(line, marks, start, stop, end)
  {
    if IsHeading(line) {
      var marks := if HeadingAfter(line, 1) then 1 else 2;
      assert |line| >= 2;
      var stop := if line[|line| - 1] == '\n' then |line| - 1 else |line|;
      assert HeadingMatch(line, marks, marks + 1, stop, stop);
    }
    if marks: nat, start: nat, stop: nat, end: nat :| HeadingMatch(line, marks, start, stop, end) {
      assert IsSpace(line[marks]);
      assert line[marks + 1] != '\n';
      assert HeadingAfter(line, marks);
    }
  }

  function Marks(line: Line): nat
    requires IsHeading(line)
  {
    if HeadingAfter(line, 1) then 1 else 2
  }

  predicate IsFence(line: Line) {
    var text := LStrip(line);
    |text| >= 3 && (text[0] == text[1] == text[2] == '`' || text[0] == text[1] == text[2] == '~')
  }

  function StripMarks(s: string): string {
    if s != "" && s[0] == '#' then StripMarks(s[1..])
    else if s != "" && s[|s| - 1] == '#' then StripMarks(s[..|s| - 1])
    else s
  }

  function Title(line: Line): string
    requires IsHeading(line)
  {
    Strip(StripMarks(Strip(line[Marks(line)..])))
  }

  /** Runs of anything but letters and digits become one space. */
  function Squash(s: string): string {
    if s == "" then ""
    else
      var c := if 'A' <= s[0] <= 'Z' then s[0] + 32 as char else s[0];
      var rest := Squash(s[1..]);
      if 'a' <= c <= 'z' || '0' <= c <= '9' then [c] + rest
      else if rest != "" && rest[0] == ' ' then rest
      else " " + rest
  }

  function Normalize(title: string): string { Strip(Squash(title)) }

  // ---------------------------------------------------------------------
  // The split, as a function of the lines
  // ---------------------------------------------------------------------

  datatype Group = Group(heading: Line, body: seq<Line>)

  datatype Split = Split(preamble: seq<Line>, groups: seq<Group>)

  /** Reading on from a given state: inside a code fence or not. */
  function Parse(lines: seq<Line>, fence: bool): (r: Split)
    ensures forall g :: g in r.groups ==> IsHeading(g.heading)
  {
    if |lines| == 0 then Split([], [])
    else if !fence && IsHeading(lines[0]) then
      var rest := Parse(lines[1..], false);
      Split([], [Group(lines[0], rest.preamble)] + rest.groups)
    else
      var rest := Parse(lines[1..], fence != IsFence(lines[0]));
      Split([lines[0]] + rest.preamble, rest.groups)
  }

  function FencesIn(lines: seq<Line>): nat {
    if |lines| == 0 then 0
    else FencesIn(lines[..|lines| - 1]) + if IsFence(lines[|lines| - 1]) then 1 else 0
  }

  /** The fence state after some lines: only the fence lines among them count. */
  function FenceAfter(lines: seq<Line>, fence: bool): bool {
    fence != (FencesIn(lines) % 2 == 1)
  }

  /** Text before the first heading of `b` belongs to the last section of `a`. */
  function Glue(a: Split, b: Split): Split {
    if |a.groups| == 0 then Split(a.preamble + b.preamble, b.groups)
    else
      var last := a.groups[|a.groups| - 1];
      Split(a.preamble, a.groups[..|a.groups| - 1] + [Group(last.heading, last.body + b.preamble)] + b.groups)
  }

  lemma HeadingIsNoFence(line: Line)
    requires IsHeading(line)
    ensures !IsFence(line)
  {
    assert line[0] == '#' && !IsSpace('#');
  }

  lemma {:induction false} FencesInFront(lines: seq<Line>)
    requires |lines| > 0
    ensures FencesIn(lines) == FencesIn(lines[1..]) + if IsFence(lines[0]) then 1 else 0
  {
    hide IsFence;
    if |lines| > 1 {
      FencesInFront(lines[..|lines| - 1]);
      assert lines[..|lines| - 1][1..] == lines[1..][..|lines| - 2];
    } else {
      assert lines[1..] == [] && lines[..0] == [];
    }
  }

  lemma {:induction false} GlueFront(line: Line, a: Split, b: Split)
    ensures Glue(Split([line] + a.preamble, a.groups), b)
         == Split([line] + Glue(a, b).preamble, Glue(a, b).groups)
    ensures Glue(Split([], [Group(line, a.preamble)] + a.groups), b)
         == Split([], [Group(line, Glue(a, b).preamble)] + Glue(a, b).groups)
  {
    if |a.groups| == 0 {
      assert [line] + a.preamble + b.preamble == [line] + (a.preamble + b.preamble);
      assert ([Group(line, a.preamble)] + a.groups)[..0] == [];
    } else {
      var whole := [Group(line, a.preamble)] + a.groups;
      assert whole[..|whole| - 1] == [Group(line, a.preamble)] + a.groups[..|a.groups| - 1];
      assert whole[|whole| - 1] == a.groups[|a.groups| - 1];
    }
  }

  /**
   A text can be cut anywhere: reading on from the fence state at the cut
   gives the same sections.
   */
  lemma {:induction false} ParseCut(a: seq<Line>, b: seq<Line>, fence: bool)
    ensures Parse(a + b, fence) == Glue(Parse(a, fence), Parse(b, FenceAfter(a, fence)))
  {
    hide IsHeading, IsFence, Glue;
    if |a| == 0 {
      assert a + b == b;
      GlueEmpty(Parse(b, fence));
    } else {
      assert (a + b)[0] == a[0] && (a + b)[1..] == a[1..] + b;
      FencesInFront(a);
      if !fence && IsHeading(a[0]) {
        HeadingIsNoFence(a[0]);
      }
      var next := if !fence && IsHeading(a[0]) then false else fence != IsFence(a[0]);
      assert FenceAfter(a, fence) == FenceAfter(a[1..], next);
      ParseCut(a[1..], b, next);
      GlueFront(a[0], Parse(a[1..], next), Parse(b, FenceAfter(a, fence)));
    }
  }

  lemma {:induction false} GlueEmpty(b: Split)
    ensures Glue(Split([], []), b) == b
  {
    assert [] + b.preamble == b.preamble;
  }

  // ---------------------------------------------------------------------
  // Nothing is lost
  // ---------------------------------------------------------------------

  function Concat(lines: seq<Line>): string {
    if |lines| == 0 then "" else lines[0] + Concat(lines[1..])
  }

  function GroupLines(groups: seq<Group>): seq<Line> {
    if |groups| == 0 then [] else [groups[0].heading] + groups[0].body + GroupLines(groups[1..])
  }

  function AllLines(s: Split): seq<Line> { s.preamble + GroupLines(s.groups) }

  lemma {:induction false} ParseIsLossless(lines: seq<Line>, fence: bool)
    ensures AllLines(Parse(lines, fence)) == lines
  {
    hide IsHeading, IsFence;
    if |lines| > 0 {
      if !fence && IsHeading(lines[0]) {
        ParseIsLossless(lines[1..], false);
        var rest := Parse(lines[1..], false);
        var groups := [Group(lines[0], rest.preamble)] + rest.groups;
        assert groups[1..] == rest.groups;
        assert GroupLines(groups) == [lines[0]] + rest.preamble + GroupLines(rest.groups);
      } else {
        ParseIsLossless(lines[1..], fence != IsFence(lines[0]));
      }
      assert lines == [lines[0]] + lines[1..];
    }
  }

  // ---------------------------------------------------------------------
  // Headings are the heading lines outside fences
  // ---------------------------------------------------------------------

  /** Outside a fence: an even number of fence lines came before. */
  ghost function OpenHeadings(lines: seq<Line>): seq<Line> {
    if |lines| == 0 then []
    else
      var before, line := lines[..|lines| - 1], lines[|lines| - 1];
      OpenHeadings(before) + if IsHeading(line) && FencesIn(before) % 2 == 0 then [line] else []
  }

  ghost function HeadingsOf(groups: seq<Group>): seq<Line> {
    seq(|groups|, i requires 0 <= i < |groups| => groups[i].heading)
  }

  lemma {:induction false} HeadingsOutsideFences(lines: seq<Line>)
    ensures HeadingsOf(Parse(lines, false).groups) == OpenHeadings(lines)
  {
    hide IsHeading, IsFence, Glue, Parse, HeadingsOf;
    if |lines| == 0 {
      NoHeadings();
      assert lines == [];
    } else {
      var before, line := lines[..|lines| - 1], lines[|lines| - 1];
      HeadingsOutsideFences(before);
      assert lines == before + [line];
      ParseCut(before, [line], false);
      var fence := FenceAfter(before, false);
      OneLine(line, fence);
      HeadingsGlue(Parse(before, false), Parse([line], fence));
      OneHeading(line);
    }
  }

  lemma NoHeadings()
    ensures HeadingsOf(Parse([], false).groups) == []
  {
  }

  lemma OneHeading(line: Line)
    ensures HeadingsOf([]) == [] && HeadingsOf([Group(line, [])]) == [line]
  {
  }

  lemma OneLine(line: Line, fence: bool)
    ensures Parse([line], fence)
         == if !fence && IsHeading(line) then Split([], [Group(line, [])]) else Split([line], [])
  {
    assert [line][1..] == [];
  }

  lemma HeadingsGlue(a: Split, b: Split)
    ensures HeadingsOf(Glue(a, b).groups) == HeadingsOf(a.groups) + HeadingsOf(b.groups)
  {
  }

  // ---------------------------------------------------------------------
  // Sections stand alone
  // ---------------------------------------------------------------------

  /** Lines that read back as exactly one section. */
  ghost predicate OneSection(g: Group) {
    Parse([g.heading] + g.body, false) == Split([], [g])
  }

  /** Fences opened in a section are closed in it, unless it is the last. */
  ghost predicate Closed(g: Group) {
    FencesIn(g.body) % 2 == 0
  }

  ghost predicate Standing(groups: seq<Group>) {
    && (forall i :: 0 <= i < |groups| ==> OneSection(groups[i]))
    && (forall i :: 0 <= i < |groups| - 1 ==> Closed(groups[i]))
  }

  lemma PlainStep(line: Line, rest: seq<Line>, fence: bool)
    requires fence || !IsHeading(line)
    requires Parse(rest, fence != IsFence(line)) == Split(rest, [])
    ensures Parse([line] + rest, fence) == Split([line] + rest, [])
  {
    hide IsHeading, IsFence;
    assert ([line] + rest)[1..] == rest;
  }

  lemma FenceStep(line: Line, rest: seq<Line>, fence: bool)
    ensures FenceAfter([line] + rest, fence) == FenceAfter(rest, fence != IsFence(line))
  {
    hide IsFence, FencesIn;
    assert ([line] + rest)[1..] == rest;
    FencesInFront([line] + rest);
  }

  /** The text before the first heading has none, and closes its fences if one follows. */
  lemma {:induction false} PreambleIsPlain(lines: seq<Line>, fence: bool)
    ensures var s := Parse(lines, fence);
            && Parse(s.preamble, fence) == Split(s.preamble, [])
            && (|s.groups| > 0 ==> !FenceAfter(s.preamble, fence))
  {
    hide IsHeading, IsFence, FenceAfter;
    if |lines| == 0 {
    } else if !fence && IsHeading(lines[0]) {
      assert !FenceAfter([], false) by { EmptyFence(); }
    } else {
      var next := fence != IsFence(lines[0]);
      var rest := Parse(lines[1..], next);
      PreambleIsPlain(lines[1..], next);
      assert Parse(lines, fence) == Split([lines[0]] + rest.preamble, rest.groups);
      PlainStep(lines[0], rest.preamble, fence);
      FenceStep(lines[0], rest.preamble, fence);
    }
  }

  lemma EmptyFence()
    ensures !FenceAfter([], false)
  {
  }

  lemma {:induction false} SectionsStandAlone(lines: seq<Line>, fence: bool)
    ensures Standing(Parse(lines, fence).groups)
  {
    hide IsHeading, IsFence, OneSection, Closed;
    if |lines| > 0 {
      if !fence && IsHeading(lines[0]) {
        SectionsStandAlone(lines[1..], false);
        FirstStandsAlone(lines);
      } else {
        SectionsStandAlone(lines[1..], fence != IsFence(lines[0]));
      }
    }
  }

  lemma FirstStandsAlone(lines: seq<Line>)
    requires |lines| > 0 && IsHeading(lines[0])
    ensures var rest := Parse(lines[1..], false);
            var first := Group(lines[0], rest.preamble);
            OneSection(first) && (|rest.groups| > 0 ==> Closed(first))
  {
    hide IsHeading, IsFence;
    var rest := Parse(lines[1..], false);
    PreambleIsPlain(lines[1..], false);
    assert ([lines[0]] + rest.preamble)[1..] == rest.preamble;
  }

  /** Reading a selection of sections gives the selection: compaction is stable. */
  lemma {:induction false} SelectionReadsBack(groups: seq<Group>)
    requires Standing(groups)
    ensures Parse(GroupLines(groups), false) == Split([], groups)
  {
    hide IsHeading, IsFence, Glue;
    if |groups| > 0 {
      var first := [groups[0].heading] + groups[0].body;
      assert OneSection(groups[0]);
      SelectionReadsBack(groups[1..]);
      if |groups| == 1 {
        assert groups == [groups[0]];
        assert GroupLines(groups) == first;
      } else {
        ParseCut(first, GroupLines(groups[1..]), false);
        assert Closed(groups[0]);
        FirstIsHeading(groups[0]);
        FencesInFront(first);
        assert first[1..] == groups[0].body;
        GlueSection(groups[0], groups[1..]);
        assert [groups[0]] + groups[1..] == groups;
      }
    }
  }

  lemma FirstIsHeading(g: Group)
    requires OneSection(g)
    ensures IsHeading(g.heading) && !IsFence(g.heading)
  {
    hide IsHeading, IsFence;
    assert g in Parse([g.heading] + g.body, false).groups;
    HeadingIsNoFence(g.heading);
  }

  lemma GlueSection(g: Group, rest: seq<Group>)
    ensures Glue(Split([], [g]), Split([], rest)) == Split([], [g] + rest)
  {
    assert [g][..0] == [] && g.body + [] == g.body;
  }

  // ---------------------------------------------------------------------
  // The parser's loop
  // ---------------------------------------------------------------------

  datatype Section = Section(heading: Line, title: string, name: string, body: string, index: nat)

  function SectionOf(g: Group, index: nat): Section
    requires IsHeading(g.heading)
  {
    Section(g.heading, Title(g.heading), Normalize(Title(g.heading)), Concat(g.body), index)
  }

  predicate Describes(sections: seq<Section>, groups: seq<Group>) {
    && |sections| == |groups|
    && forall i :: 0 <= i < |groups| ==>
         IsHeading(groups[i].heading) && sections[i] == SectionOf(groups[i], i)
  }

  /** What the loop has read: the flushed sections, and the open one if any. */
  datatype State = State(preamble: seq<Line>, done: seq<Group>, heading: Option<Line>, body: seq<Line>, fence: bool)

  ghost function Read(s: State): Split {
    if s.heading.None? then Split(s.preamble, s.done)
    else Split(s.preamble, s.done + [Group(s.heading.value, s.body)])
  }

  ghost predicate UpTo(s: State, lines: seq<Line>) {
    && Read(s) == Parse(lines, false) && s.fence == FenceAfter(lines, false)
    && (s.heading.None? ==> s.done == [])
    && (s.heading.Some? ==> IsHeading(s.heading.value))
  }

  lemma StepHeading(s: State, lines: seq<Line>, line: Line)
    requires UpTo(s, lines) && !s.fence && IsHeading(line)
    ensures UpTo(State(s.preamble, Read(s).groups, Some(line), [], s.fence), lines + [line])
  {
    hide IsHeading, IsFence;
    ParseCut(lines, [line], false);
    OneLine(line, s.fence);
    HeadingIsNoFence(line);
    assert (lines + [line])[..|lines|] == lines;
    var groups := Parse(lines, false).groups;
    if |groups| > 0 {
      var last := groups[|groups| - 1];
      assert Group(last.heading, last.body + []) == last;
      assert groups[..|groups| - 1] + [last] == groups;
    }
  }

  lemma StepText(s: State, lines: seq<Line>, line: Line)
    requires UpTo(s, lines) && (s.fence || !IsHeading(line))
    ensures UpTo(if s.heading.None? then s.(preamble := s.preamble + [line], fence := s.fence != IsFence(line))
                 else s.(body := s.body + [line], fence := s.fence != IsFence(line)), lines + [line])
  {
    hide IsHeading, IsFence, Parse, Glue;
    ParseCut(lines, [line], false);
    OneLine(line, s.fence);
    FenceSnoc(lines, line);
    if s.heading.Some? {
      GlueText(s.preamble, s.done, Group(s.heading.value, s.body), line);
    } else {
      GluePreamble(s.preamble, line);
    }
  }

  lemma FenceSnoc(lines: seq<Line>, line: Line)
    ensures FenceAfter(lines + [line], false) == (FenceAfter(lines, false) != IsFence(line))
  {
    hide IsFence;
    assert (lines + [line])[..|lines|] == lines;
  }

  lemma GlueText(preamble: seq<Line>, done: seq<Group>, g: Group, line: Line)
    ensures Glue(Split(preamble, done + [g]), Split([line], []))
         == Split(preamble, done + [Group(g.heading, g.body + [line])])
  {
    assert (done + [g])[..|done|] == done;
  }

  lemma GluePreamble(preamble: seq<Line>, line: Line)
    ensures Glue(Split(preamble, []), Split([line], [])) == Split(preamble + [line], [])
  {
  }

  lemma Described(sections: seq<Section>, groups: seq<Group>, g: Group)
    requires Describes(sections, groups) && IsHeading(g.heading)
    ensures Describes(sections + [SectionOf(g, |sections|)], groups + [g])
  {
    hide IsHeading, Title, Normalize, Concat;
    var more, all := sections + [SectionOf(g, |sections|)], groups + [g];
    forall i | 0 <= i < |all| ensures IsHeading(all[i].heading) && more[i] == SectionOf(all[i], i) {
      if i < |groups| {
        assert all[i] == groups[i] && more[i] == sections[i];
      }
    }
  }

  method ParseTicketSections(lines: seq<Line>) returns (preamble: string, sections: seq<Section>)
    ensures preamble == Concat(Parse(lines, false).preamble)
    ensures Describes(sections, Parse(lines, false).groups)
  {
    hide *;
    ghost var read := State([], [], None, [], false);
    StartUp();
    preamble, sections := "", [];
    var heading: Option<Line>, body, fence := None, "", false;
    for i := 0 to |lines|
      invariant UpTo(read, lines[..i]) && Agrees(read, preamble, sections, heading, body, fence)
    {
      var line := lines[i];
      assert lines[..i + 1] == lines[..i] + [line];
      AgreesMeans(read, preamble, sections, heading, body, fence);
      if !fence && IsHeading(line) {
        StepHeading(read, lines[..i], line);
        Flushed(read, preamble, sections, heading, body, fence, line);
        if heading.Some? {
          sections := sections + [SectionAt(heading.value, body, |sections|)];
        }
        heading, body := Some(line), "";
        read := State(read.preamble, Read(read).groups, Some(line), [], read.fence);
      } else {
        StepText(read, lines[..i], line);
        Taken(read, preamble, sections, heading, body, fence, line);
        if heading.None? {
          preamble := preamble + line;
          read := read.(preamble := read.preamble + [line], fence := read.fence != IsFence(line));
        } else {
          body := body + line;
          read := read.(body := read.body + [line], fence := read.fence != IsFence(line));
        }
        if IsFence(line) {
          fence := !fence;
        }
      }
    }
    assert lines[..|lines|] == lines;
    Finished(read, preamble, sections, heading, body, fence, lines);
    if heading.Some? {
      sections := sections + [SectionAt(heading.value, body, |sections|)];
    }
  }

  function SectionAt(heading: Line, body: string, index: nat): Section
    requires IsHeading(heading)
  {
    Section(heading, Title(heading), Normalize(Title(heading)), body, index)
  }

  /** The loop's variables hold the text of what has been read. */
  ghost predicate Agrees(
      s: State, preamble: string, sections: seq<Section>, heading: Option<Line>, body: string, fence: bool)
  {
    && preamble == Concat(s.preamble) && Describes(sections, s.done)
    && heading == s.heading && body == Concat(s.body) && fence == s.fence
    && (s.heading.Some? ==> IsHeading(s.heading.value))
    && (s.heading.None? ==> s.done == [] && s.body == [])
  }

  lemma StartUp()
    ensures UpTo(State([], [], None, [], false), []) && Agrees(State([], [], None, [], false), "", [], None, "", false)
  {
  }

  lemma AgreesMeans(
      s: State, preamble: string, sections: seq<Section>, heading: Option<Line>, body: string, fence: bool)
    requires Agrees(s, preamble, sections, heading, body, fence)
    ensures heading == s.heading && fence == s.fence && (heading.Some? ==> IsHeading(heading.value))
  {
    hide IsHeading, Concat, Describes;
  }

  lemma {:induction false} ConcatSnoc(lines: seq<Line>, line: Line)
    ensures Concat(lines + [line]) == Concat(lines) + line
  {
    if |lines| == 0 {
      assert lines + [line] == [line];
      assert Concat([line][1..]) == "";
    } else {
      assert (lines + [line])[1..] == lines[1..] + [line];
      ConcatSnoc(lines[1..], line);
      assert lines[0] + (Concat(lines[1..]) + line) == lines[0] + Concat(lines[1..]) + line;
    }
  }

  lemma Flushed(
      s: State, preamble: string, sections: seq<Section>, heading: Option<Line>, body: string, fence: bool, line: Line)
    requires Agrees(s, preamble, sections, heading, body, fence) && IsHeading(line)
    ensures heading.Some? ==> IsHeading(heading.value)
    ensures Agrees(State(s.preamble, Read(s).groups, Some(line), [], s.fence), preamble,
                   if heading.Some? then sections + [SectionAt(heading.value, body, |sections|)] else sections,
                   Some(line), "", fence)
  {
    hide IsHeading, Title, Normalize;
    if heading.Some? {
      Described(sections, s.done, Group(heading.value, s.body));
    }
  }

  lemma Taken(
      s: State, preamble: string, sections: seq<Section>, heading: Option<Line>, body: string, fence: bool, line: Line)
    requires Agrees(s, preamble, sections, heading, body, fence)
    ensures heading.None? ==>
              Agrees(s.(preamble := s.preamble + [line], fence := s.fence != IsFence(line)), preamble + line,
                     sections, heading, body, if IsFence(line) then !fence else fence)
    ensures heading.Some? ==>
              Agrees(s.(body := s.body + [line], fence := s.fence != IsFence(line)), preamble,
                     sections, heading, body + line, if IsFence(line) then !fence else fence)
  {
    hide IsHeading, IsFence, Describes;
    ConcatSnoc(s.preamble, line);
    ConcatSnoc(s.body, line);
  }

  lemma Finished(
      s: State, preamble: string, sections: seq<Section>, heading: Option<Line>, body: string, fence: bool,
      lines: seq<Line>)
    requires Agrees(s, preamble, sections, heading, body, fence) && UpTo(s, lines)
    ensures heading.Some? ==> IsHeading(heading.value)
    ensures preamble == Concat(Parse(lines, false).preamble)
    ensures Describes(if heading.Some? then sections + [SectionAt(heading.value, body, |sections|)] else sections,
                      Parse(lines, false).groups)
  {
    hide IsHeading, Title, Normalize, Parse;
    if heading.Some? {
      Described(sections, s.done, Group(heading.value, s.body));
    }
  }

  /** The preamble and every heading and body put back together are the text. */
  function Rendered(sections: seq<Section>): string {
    if |sections| == 0 then "" else Rendered(sections[..|sections| - 1]) + sections[|sections| - 1].heading
                                    + sections[|sections| - 1].body
  }

  lemma {:induction false} ConcatAppend(a: seq<Line>, b: seq<Line>)
    ensures Concat(a + b) == Concat(a) + Concat(b)
  {
    if |a| == 0 {
      assert a + b == b;
    } else {
      assert (a + b)[1..] == a[1..] + b;
      ConcatAppend(a[1..], b);
    }
  }

  lemma {:induction false} GroupLinesSnoc(groups: seq<Group>, g: Group)
    ensures GroupLines(groups + [g]) == GroupLines(groups) + [g.heading] + g.body
  {
    if |groups| == 0 {
      assert groups + [g] == [g] && [g][1..] == [];
    } else {
      assert (groups + [g])[1..] == groups[1..] + [g];
      GroupLinesSnoc(groups[1..], g);
    }
  }

  lemma {:induction false} RenderedIsText(sections: seq<Section>, groups: seq<Group>)
    requires Describes(sections, groups)
    ensures Rendered(sections) == Concat(GroupLines(groups))
  {
    hide IsHeading, Title, Normalize;
    if |groups| > 0 {
      var n := |groups| - 1;
      var before, g := groups[..n], groups[n];
      assert Describes(sections[..n], before);
      RenderedIsText(sections[..n], before);
      assert groups == before + [g];
      GroupLinesSnoc(before, g);
      ConcatAppend(GroupLines(before) + [g.heading], g.body);
      ConcatSnoc(GroupLines(before), g.heading);
    }
  }

  lemma NothingLost(lines: seq<Line>, preamble: string, sections: seq<Section>)
    requires preamble == Concat(Parse(lines, false).preamble)
    requires Describes(sections, Parse(lines, false).groups)
    ensures preamble + Rendered(sections) == Concat(lines)
  {
    hide Parse, Describes;
    RenderedIsText(sections, Parse(lines, false).groups);
    ParseIsLossless(lines, false);
    ConcatAppend(Parse(lines, false).preamble, GroupLines(Parse(lines, false).groups));
  }

  // ---------------------------------------------------------------------
  // Fences, titles and names
  // ---------------------------------------------------------------------

  predicate AllBlank(s: string) { forall i :: 0 <= i < |s| ==> IsSpace(s[i]) }

  lemma {:induction false} LStripOf(blank: string, rest: string)
    requires AllBlank(blank) && (rest == "" || !IsSpace(rest[0]))
    ensures LStrip(blank + rest) == rest
  {
    hide IsSpace;
    if blank == "" {
      assert blank + rest == rest;
    } else {
      assert (blank + rest)[1..] == blank[1..] + rest;
      LStripOf(blank[1..], rest);
    }
  }

  lemma NoBlankMarks()
    ensures !IsSpace('`') && !IsSpace('~') && !IsSpace('#')
  {
  }

  lemma OneFence(indent: string, mark: char, rest: string)
    requires AllBlank(indent) && (mark == '`' || mark == '~')
    ensures IsFence(indent + ([mark, mark, mark] + rest))
  {
    hide LStrip, IsSpace;
    NoBlankMarks();
    var text := [mark, mark, mark] + rest;
    assert text[0] == text[1] == text[2] == mark;
    LStripOf(indent, text);
  }

  /** Whatever the indent: three backquotes or three tildes make a fence. */
  lemma FencesAre(indent: string, rest: string)
    requires AllBlank(indent)
    ensures IsFence(indent + ("```" + rest)) && IsFence(indent + ("~~~" + rest))
  {
    hide IsFence;
    OneFence(indent, '`', rest);
    OneFence(indent, '~', rest);
    assert "```" == ['`', '`', '`'] && "~~~" == ['~', '~', '~'];
  }

  /** And nothing else does. */
  lemma FenceStarts(line: Line)
    requires IsFence(line)
    ensures "```" <= LStrip(line) || "~~~" <= LStrip(line)
  {
    hide LStrip;
  }

  predicate MarksOnly(s: string) { forall i :: 0 <= i < |s| ==> s[i] == '#' }

  /** A title of its own: no blank and no mark at either end. */
  predicate BareTitle(t: string) {
    t != "" && Stripped(t) && t[0] != '#' && t[|t| - 1] != '#'
  }

  lemma {:induction false} MarksAround(before: string, t: string, after: string)
    requires MarksOnly(before) && MarksOnly(after) && t != "" && t[0] != '#' && t[|t| - 1] != '#'
    ensures StripMarks(before + t + after) == t
    decreases |before| + |after|
  {
    var s := before + t + after;
    if before != "" {
      assert s[0] == '#' && s[1..] == before[1..] + t + after;
      MarksAround(before[1..], t, after);
    } else if after != "" {
      var n := |after| - 1;
      assert s[0] == t[0] && s[|s| - 1] == after[n] && s[..|s| - 1] == before + t + after[..n];
      MarksAround(before, t, after[..n]);
    } else {
      assert s == t;
    }
  }

  lemma StripBetween(before: string, t: string, after: string)
    requires AllBlank(before) && AllBlank(after) && t != "" && Stripped(t)
    ensures Strip(before + (t + after)) == t
  {
    hide IsSpace, LStrip;
    LStripOf(before, t + after);
    RStripOf(t, after);
  }

  lemma {:induction false} RStripOf(t: string, blank: string)
    requires AllBlank(blank) && t != "" && Stripped(t)
    ensures RStrip(t + blank) == t
  {
    hide IsSpace;
    var s := t + blank;
    if blank == "" {
      assert s == t;
    } else {
      var n := |blank| - 1;
      assert s[|s| - 1] == blank[n] && s[..|s| - 1] == t + blank[..n];
      RStripOf(t, blank[..n]);
    }
  }

  /** A heading with closing marks, blanks around everything, has the title between. */
  lemma TitleBetweenMarks(line: Line, blank: string, t: string, gap: string, closing: string, tail: string)
    requires IsHeading(line) && BareTitle(t)
    requires AllBlank(blank) && AllBlank(gap) && MarksOnly(closing) && AllBlank(tail)
    requires line[Marks(line)..] == blank + ((t + (gap + closing)) + tail)
    ensures closing != "" ==> Title(line) == t
    ensures closing == gap == "" ==> Title(line) == t
  {
    hide IsHeading, Marks, IsSpace, Strip, StripMarks, LStrip;
    var middle := t + (gap + closing);
    if closing != "" {
      LastIsMark(t, gap, closing);
      StripBetween(blank, middle, tail);
      MarksBehind(t, gap, closing);
      StripGap(t, gap);
    } else if gap == "" {
      assert middle == t;
      StripBetween(blank, t, tail);
      MarksAround("", t, "");
      assert "" + t + "" == t;
      StripFixes(t);
    }
  }

  lemma LastIsMark(t: string, gap: string, closing: string)
    requires BareTitle(t) && MarksOnly(closing) && closing != ""
    ensures t + (gap + closing) != "" && Stripped(t + (gap + closing))
  {
    var all := t + (gap + closing);
    assert all[0] == t[0] && all[|all| - 1] == closing[|closing| - 1];
    assert !IsSpace('#');
  }

  lemma MarksBehind(t: string, gap: string, closing: string)
    requires BareTitle(t) && AllBlank(gap) && MarksOnly(closing)
    ensures StripMarks(t + (gap + closing)) == t + gap
  {
    var front := t + gap;
    assert t + (gap + closing) == "" + front + closing;
    assert front[0] == t[0];
    assert front[|front| - 1] == if gap == "" then t[|t| - 1] else gap[|gap| - 1];
    assert !IsSpace('#');
    MarksAround("", front, closing);
  }

  lemma StripGap(t: string, gap: string)
    requires BareTitle(t) && AllBlank(gap)
    ensures Strip(t + gap) == t
  {
    hide IsSpace, Strip;
    StripBetween("", t, gap);
    assert "" + (t + gap) == t + gap;
  }

  predicate WordChar(c: char) { 'a' <= c <= 'z' || 'A' <= c <= 'Z' || '0' <= c <= '9' }

  /** Letters and digits keep their place. */
  lemma {:induction false} SquashJoins(a: string, b: string)
    requires b == "" || WordChar(b[0])
    ensures Squash(a + b) == Squash(a) + Squash(b)
  {
    hide Squash;
    NothingSquashed();
    if a == "" {
      assert a + b == b;
    } else {
      assert (a + b)[1..] == a[1..] + b;
      SquashJoins(a[1..], b);
      SquashCons(a);
      SquashCons(a + b);
      if b != "" {
        FirstIsWord(b);
      }
      PutJoins(a[0], Squash(a[1..]), Squash(b));
    }
  }

  /** One character in front of a squashed text. */
  function Put(c: char, rest: string): string {
    if 'A' <= c <= 'Z' then [c + 32 as char] + rest
    else if WordChar(c) then [c] + rest
    else if rest != "" && rest[0] == ' ' then rest
    else " " + rest
  }

  lemma NothingSquashed()
    ensures Squash("") == ""
  {
  }

  lemma SquashCons(s: string)
    requires s != ""
    ensures Squash(s) == Put(s[0], Squash(s[1..]))
  {
  }

  lemma PutJoins(c: char, x: string, y: string)
    requires y == "" || y[0] != ' '
    ensures Put(c, x + y) == Put(c, x) + y
  {
    assert x != "" ==> (x + y)[0] == x[0];
    assert x == "" ==> x + y == y;
    assert Put(c, x) + y == if Put(c, x) == x then x + y else [Put(c, x)[0]] + (x + y);
  }

  lemma FirstIsWord(b: string)
    requires b != "" && WordChar(b[0])
    ensures Squash(b) != "" && Squash(b)[0] != ' '
  {
  }

  /** Everything between them becomes one space. */
  lemma {:induction false} GapIsOneSpace(gap: string)
    requires gap != "" && forall i :: 0 <= i < |gap| ==> !WordChar(gap[i])
    ensures Squash(gap) == " "
  {
    if |gap| > 1 {
      GapIsOneSpace(gap[1..]);
    } else {
      assert gap[1..] == "";
    }
  }

  /** Capitals become small; small letters and digits stay. */
  lemma LettersSquashed(i: nat)
    requires i < 26
    ensures Squash([('A' as int + i) as char]) == [('a' as int + i) as char]
    ensures Squash([('a' as int + i) as char]) == [('a' as int + i) as char]
    ensures i < 10 ==> Squash([('0' as int + i) as char]) == [('0' as int + i) as char]
  {
    OneSquashed(('A' as int + i) as char);
    OneSquashed(('a' as int + i) as char);
    if i < 10 {
      OneSquashed(('0' as int + i) as char);
    }
  }

  lemma OneSquashed(c: char)
    requires WordChar(c)
    ensures Squash([c]) == [if 'A' <= c <= 'Z' then c + 32 as char else c]
  {
    assert [c][1..] == "";
  }

  /** A section's name has words of small letters and digits, one space apart, and nothing around them. */
  predicate IsName(s: string) {
    && (forall i :: 0 <= i < |s| ==> 'a' <= s[i] <= 'z' || '0' <= s[i] <= '9' || s[i] == ' ')
    && (forall i :: 0 < i < |s| ==> !(s[i - 1] == s[i] == ' '))
  }

  lemma {:induction false} SquashIsName(s: string)
    ensures IsName(Squash(s))
  {
    if s != "" {
      SquashIsName(s[1..]);
    }
  }

  lemma PartIsName(s: string, from: nat, to: nat)
    requires IsName(s) && from <= to <= |s|
    ensures IsName(s[from..to])
  {
    var part := s[from..to];
    assert forall i :: 0 <= i < |part| ==> part[i] == s[from + i];
  }

  lemma NormalizedIsName(title: string)
    ensures IsName(Normalize(title)) && Stripped(Normalize(title))
  {
    hide IsSpace, IsName, LStrip, RStrip;
    var s := Squash(title);
    SquashIsName(title);
    StripIsStripped(s);
    var l := LStrip(s);
    PartIsName(s, |s| - |l|, |s|);
    PartIsName(l, 0, |RStrip(l)|);
  }
}
