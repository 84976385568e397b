/**
 The kept sections as text (src/symphony/prompt_context.py): each is stripped of
 outer white space, and they are joined by an empty line. What is read back from
 that text is the kept sections again, unless one of them is nothing but marks
 and white space.
 */
module RenderedContext {
  import opened TextUtil
  import opened Sections
  import opened PromptContext

  // ---------------------------------------------------------------------
  // White space at the ends
  // ---------------------------------------------------------------------

  predicate AllSpace(s: string) {
    forall i :: 0 <= i < |s| ==> IsSpace(s[i])
  }

  lemma {:induction false} RStripDrops(s: string)
    ensures AllSpace(s[|RStrip(s)|..])
  {
    if s != "" && IsSpace(s[|s| - 1]) {
      var rest := s[..|s| - 1];
      RStripDrops(rest);
      forall i | |RStrip(s)| <= i < |s| ensures IsSpace(s[i]) {
        if i < |rest| {
          assert IsSpace(rest[|RStrip(rest)|..][i - |RStrip(rest)|]);
        }
      }
    }
  }

  lemma {:induction false} LStripDrops(s: string)
    ensures AllSpace(s[..|s| - |LStrip(s)|])
  {
    if s != "" && IsSpace(s[0]) {
      LStripDrops(s[1..]);
      var n := |s| - |LStrip(s)|;
      forall i | 0 <= i < n ensures IsSpace(s[i]) {
        if i > 0 {
          assert IsSpace(s[1..][..n - 1][i - 1]);
        }
      }
    }
  }

  /** What is left after the blanks behind are gone is told from the ends alone. */
  lemma {:induction false} RStripIs(r: string, tail: string)
    requires (r == "" || !IsSpace(r[|r| - 1])) && AllSpace(tail)
    ensures RStrip(r + tail) == r
  {
    hide IsSpace;
    if tail == "" {
      assert r + tail == r;
    } else {
      var n := |tail| - 1;
      RStripIs(r, tail[..n]);
      assert IsSpace(tail[n]);
      assert (r + tail)[..|r| + n] == r + tail[..n];
    }
  }

  lemma {:induction false} LStripIs(head: string, r: string)
    requires (r == "" || !IsSpace(r[0])) && AllSpace(head)
    ensures LStrip(head + r) == r
  {
    hide IsSpace, LStrip;
    if head == "" {
      assert head + r == r;
      LStripStep(r);
    } else {
      assert AllSpace(head[1..]) && IsSpace(head[0]);
      LStripIs(head[1..], r);
      LStripStep(head + r);
      assert (head + r)[1..] == head[1..] + r;
    }
  }

  lemma LStripStep(s: string)
    ensures s == "" || !IsSpace(s[0]) ==> LStrip(s) == s
    ensures s != "" && IsSpace(s[0]) ==> LStrip(s) == LStrip(s[1..])
  {
    hide IsSpace;
  }

  lemma RStripSplit(s: string) returns (tail: string)
    ensures s == RStrip(s) + tail && AllSpace(tail)
  {
    tail := s[|RStrip(s)|..];
    RStripDrops(s);
  }

  lemma LStripSplit(s: string) returns (head: string)
    ensures s == head + LStrip(s) && AllSpace(head)
  {
    head := s[..|s| - |LStrip(s)|];
    LStripDrops(s);
  }

  lemma SpacesJoined(a: string, b: string)
    requires AllSpace(a) && AllSpace(b)
    ensures AllSpace(a + b)
  {
  }

  lemma RStripTail(s: string, tail: string)
    requires AllSpace(tail)
    ensures RStrip(s + tail) == RStrip(s)
  {
    hide IsSpace, RStrip, AllSpace;
    var own := RStripSplit(s);
    SpacesJoined(own, tail);
    RStripIs(RStrip(s), own + tail);
    assert RStrip(s) + (own + tail) == s + tail;
  }

  lemma StripTail(s: string, tail: string)
    requires AllSpace(tail)
    ensures Strip(s + tail) == Strip(s)
  {
    hide IsSpace, RStrip, LStrip, AllSpace;
    var head := LStripSplit(s);
    var rest := LStrip(s);
    if rest == "" {
      assert head == s;
      SpacesJoined(head, tail);
      LStripIs(head + tail, "");
      assert head + tail + "" == s + tail;
    } else {
      LStripIs(head, rest + tail);
      assert head + (rest + tail) == s + tail;
      RStripTail(rest, tail);
    }
  }

  lemma RStripBehind(front: string, s: string)
    requires RStrip(s) != ""
    ensures RStrip(front + s) == front + RStrip(s)
  {
    hide IsSpace, RStrip, AllSpace;
    var tail := RStripSplit(s);
    assert (front + RStrip(s))[|front| + |RStrip(s)| - 1] == RStrip(s)[|RStrip(s)| - 1];
    RStripIs(front + RStrip(s), tail);
    assert front + RStrip(s) + tail == front + s;
  }

  lemma BlankTail(front: string, s: string)
    requires RStrip(s) == ""
    ensures RStrip(front + s) == RStrip(front) && AllSpace(s)
  {
    var tail := RStripSplit(s);
    assert tail == s;
    RStripTail(front, s);
  }

  // ---------------------------------------------------------------------
  // The text of the kept sections, as lines
  // ---------------------------------------------------------------------

  function LinesOf(g: Group): seq<Line> { [g.heading] + g.body }

  /** The lines of a stripped text: no blank ones at the end, and no blanks behind the last. */
  function Trim(lines: seq<Line>): seq<Line> {
    if |lines| == 0 then []
    else
      var n := |lines| - 1;
      if RStrip(lines[n]) == "" then Trim(lines[..n]) else lines[..n] + [RStrip(lines[n])]
  }

  /** With the empty line that sets it apart from the next section. */
  function Spaced(lines: seq<Line>): seq<Line> {
    if |lines| == 0 then [] else lines[..|lines| - 1] + [lines[|lines| - 1] + "\n", "\n"]
  }

  function Written(groups: seq<Group>): seq<Line> {
    if |groups| == 0 then []
    else if |groups| == 1 then Trim(LinesOf(groups[0]))
    else Spaced(Trim(LinesOf(groups[0]))) + Written(groups[1..])
  }

  lemma {:induction false} TrimText(lines: seq<Line>)
    ensures Concat(Trim(lines)) == RStrip(Concat(lines))
  {
    if |lines| > 0 {
      var n := |lines| - 1;
      var last := lines[n];
      assert lines == lines[..n] + [last];
      ConcatSnoc(lines[..n], last);
      if RStrip(last) == "" {
        TrimText(lines[..n]);
        BlankTail(Concat(lines[..n]), last);
      } else {
        ConcatSnoc(lines[..n], RStrip(last));
        RStripBehind(Concat(lines[..n]), last);
      }
    }
  }

  lemma SpacedText(lines: seq<Line>)
    requires |lines| > 0
    ensures Concat(Spaced(lines)) == Concat(lines) + "\n\n"
  {
    hide Concat;
    var n := |lines| - 1;
    assert lines == lines[..n] + [lines[n]];
    SpacedSnoc(lines[..n], lines[n]);
  }

  lemma SpacedSnoc(front: seq<Line>, last: Line)
    ensures Concat(front + [last + "\n", "\n"]) == Concat(front + [last]) + "\n\n"
  {
    hide Concat;
    assert front + [last + "\n", "\n"] == front + [last + "\n"] + ["\n"];
    ConcatSnoc(front + [last + "\n"], "\n");
    ConcatSnoc(front, last + "\n");
    ConcatSnoc(front, last);
    TwoNewlines(Concat(front), last);
  }

  lemma TwoNewlines(a: string, b: string)
    ensures a + (b + "\n") + "\n" == a + b + "\n\n"
  {
  }

  /** The stripped text of one section; its heading begins with a mark. */
  lemma SectionText(g: Group)
    requires IsHeading(g.heading)
    ensures Concat(Trim(LinesOf(g))) == Strip(g.heading + Concat(g.body))
    ensures Trim(LinesOf(g)) != [] && Strip(g.heading + Concat(g.body)) != ""
    ensures Stripped(Strip(g.heading + Concat(g.body)))
  {
    var text := g.heading + Concat(g.body);
    assert LinesOf(g)[1..] == g.body;
    assert Concat(LinesOf(g)) == text;
    TrimText(LinesOf(g));
    assert text[0] == '#' && !IsSpace('#');
    LStripIs("", text);
    assert "" + text == text;
    var tail := RStripSplit(text);
    StripIsStripped(text);
  }

  ghost function Texts(groups: seq<Group>): seq<string> {
    seq(|groups|, i requires 0 <= i < |groups| => Strip(groups[i].heading + Concat(groups[i].body)))
  }

  ghost predicate AllHeaded(groups: seq<Group>) {
    forall g :: g in groups ==> IsHeading(g.heading)
  }

  lemma {:induction false} WrittenText(groups: seq<Group>)
    requires AllHeaded(groups)
    ensures Concat(Written(groups)) == Join(Texts(groups))
    ensures |groups| > 0 ==> Join(Texts(groups)) != "" && Stripped(Join(Texts(groups)))
  {
    hide IsHeading, Trim, Spaced, Strip;
    if |groups| > 0 {
      SectionText(groups[0]);
      var text := Strip(groups[0].heading + Concat(groups[0].body));
      assert Texts(groups)[1..] == Texts(groups[1..]);
      if |groups| > 1 {
        var first := Trim(LinesOf(groups[0]));
        WrittenText(groups[1..]);
        SpacedText(first);
        ConcatAppend(Spaced(first), Written(groups[1..]));
        assert Join(Texts(groups)) == text + "\n\n" + Join(Texts(groups[1..]));
        assert Join(Texts(groups))[0] == text[0];
      } else {
        assert Join(Texts(groups)) == text;
      }
    }
  }

  /** The sections are these groups of lines, as text. */
  ghost predicate AreTextsOf(chosen: seq<Section>, kept: seq<Group>) {
    && |chosen| == |kept|
    && forall i :: 0 <= i < |kept| ==> chosen[i].heading == kept[i].heading && chosen[i].body == Concat(kept[i].body)
  }

  lemma {:induction false} ChunksAreTexts(chosen: seq<Section>, kept: seq<Group>)
    requires AreTextsOf(chosen, kept) && AllHeaded(kept)
    ensures Chunks(chosen) == Texts(kept)
  {
    hide IsHeading, Strip, Concat;
    if |kept| > 0 {
      var n := |kept| - 1;
      ChunksAreTexts(chosen[..n], kept[..n]);
      SectionText(kept[n]);
      assert Texts(kept) == Texts(kept[..n]) + [Render(chosen[n])];
    } else {
      assert Chunks(chosen) == [];
    }
  }

  /** The context is those lines, behind what is left of the preamble. */
  lemma ContextIsWritten(r: Rules, description: string, preamble: string, chosen: seq<Section>, kept: seq<Group>)
    requires |chosen| > 0 && AreTextsOf(chosen, kept) && AllHeaded(kept)
    ensures Context(r, description, preamble, chosen)
         == if r.clean(preamble) == "" then Concat(Written(kept))
            else Strip(r.clean(preamble) + "\n\n" + Concat(Written(kept)))
  {
    hide IsHeading, Strip, Concat, Written, Chunks, AllHeaded;
    ChunksAreTexts(chosen, kept);
    WrittenText(kept);
    var texts := Texts(kept);
    if r.clean(preamble) == "" {
      assert Opening(r, preamble) + texts == texts;
      StripFixes(Join(texts));
    } else {
      assert (Opening(r, preamble) + texts)[1..] == texts;
    }
  }

  // ---------------------------------------------------------------------
  // Reading it back
  // ---------------------------------------------------------------------

  /** Nothing but marks and white space. */
  predicate Blank(g: Group) {
    IsHeading(g.heading) && AllSpace(g.heading[Marks(g.heading)..] + Concat(g.body))
  }

  /** The same title, and the same text but for white space at its end. */
  ghost predicate Same(g: Group, back: Group) {
    && IsHeading(g.heading) && IsHeading(back.heading)
    && Title(back.heading) == Title(g.heading)
    && Strip(back.heading + Concat(back.body)) == Strip(g.heading + Concat(g.body))
  }

  ghost predicate ReadsBack(preamble: seq<Line>, kept: seq<Group>, s: Split) {
    && s.preamble == preamble && |s.groups| == |kept|
    && forall i :: 0 <= i < |kept| ==> Same(kept[i], s.groups[i])
  }

  /** A line without the blanks behind it is a heading only if it was, and a fence as before. */
  lemma RStripLine(line: Line)
    ensures IsHeading(RStrip(line)) ==> IsHeading(line)
    ensures IsFence(RStrip(line)) == IsFence(line)
    ensures IsHeading(line) && |RStrip(line)| > Marks(line) ==>
              IsHeading(RStrip(line)) && Marks(RStrip(line)) == Marks(line)
  {
    hide IsFence, RStrip;
    var r := RStrip(line);
    var tail := RStripSplit(line);
    FenceTail(r, tail);
    HeadingTail(r, tail);
  }

  lemma HeadingTail(r: Line, tail: string)
    requires r == "" || !IsSpace(r[|r| - 1])
    ensures IsHeading(r) ==> IsHeading(r + tail)
    ensures IsHeading(r + tail) && |r| > Marks(r + tail) ==> IsHeading(r) && Marks(r) == Marks(r + tail)
  {
    var line := r + tail;
    assert forall i :: 0 <= i < |r| ==> line[i] == r[i];
  }

  predicate Fenced(text: string) {
    |text| >= 3 && (text[0] == text[1] == text[2] == '`' || text[0] == text[1] == text[2] == '~')
  }

  lemma FenceIs(line: Line)
    ensures IsFence(line) == Fenced(LStrip(line))
  {
  }

  lemma FencedTail(text: string, tail: string)
    requires text != "" && AllSpace(tail)
    ensures Fenced(text + tail) == Fenced(text)
  {
    assert !IsSpace('`') && !IsSpace('~');
    if |text| < 3 && |text + tail| >= 3 {
      assert (text + tail)[2] == tail[2 - |text|];
    }
  }

  lemma FenceTail(r: Line, tail: string)
    requires AllSpace(tail)
    ensures IsFence(r + tail) == IsFence(r)
  {
    hide IsFence, Fenced, LStrip, IsSpace;
    FenceIs(r);
    FenceIs(r + tail);
    var head := LStripSplit(r);
    var text := LStrip(r);
    if text == "" {
      assert r == head;
      SpacesJoined(r, tail);
      LStripIs(r + tail, "");
      assert r + tail + "" == r + tail;
    } else {
      LStripIs(head, text + tail);
      assert head + (text + tail) == r + tail;
      FencedTail(text, tail);
    }
  }

  lemma NewlineBehind(line: Line)
    requires line != "" && !IsSpace(line[|line| - 1])
    ensures IsHeading(line + "\n") == IsHeading(line) && IsFence(line + "\n") == IsFence(line)
    ensures IsHeading(line) ==> Marks(line + "\n") == Marks(line)
  {
    FenceTail(line, "\n");
  }

  /** Plain lines stay plain, with the same fences. */
  lemma {:induction false} TrimPlain(lines: seq<Line>, fence: bool)
    requires Parse(lines, fence) == Split(lines, [])
    ensures Parse(Trim(lines), fence) == Split(Trim(lines), [])
    ensures FencesIn(Trim(lines)) == FencesIn(lines)
    decreases |lines|
  {
    hide IsHeading, IsFence, Glue, Parse, RStrip, FencesIn, FenceAfter;
    if |lines| > 0 {
      var n := |lines| - 1;
      var last := lines[n];
      LastPlain(lines, fence);
      RStripLine(last);
      FencesSnoc(lines[..n], last);
      assert lines == lines[..n] + [last];
      if RStrip(last) == "" {
        TrimPlain(lines[..n], fence);
        EmptyIsNoFence();
      } else {
        PlainSnoc(lines[..n], RStrip(last), fence);
        FencesSnoc(lines[..n], RStrip(last));
      }
    }
  }

  lemma FencesSnoc(lines: seq<Line>, line: Line)
    ensures FencesIn(lines + [line]) == FencesIn(lines) + if IsFence(line) then 1 else 0
  {
    hide IsFence;
    assert (lines + [line])[..|lines|] == lines;
  }

  lemma EmptyIsNoFence()
    ensures !IsFence("") && !IsFence("\n") && !IsHeading("\n") && !IsHeading("")
  {
    LStripIs("\n", "");
    assert "\n" + "" == "\n";
  }

  lemma PlainSnoc(lines: seq<Line>, line: Line, fence: bool)
    requires Parse(lines, fence) == Split(lines, []) && (FenceAfter(lines, fence) || !IsHeading(line))
    ensures Parse(lines + [line], fence) == Split(lines + [line], [])
  {
    hide IsHeading, IsFence, Parse, FenceAfter;
    ParseCut(lines, [line], fence);
    OneLine(line, FenceAfter(lines, fence));
  }

  /** Cutting off the last of some plain lines. */
  lemma LastPlain(lines: seq<Line>, fence: bool)
    requires |lines| > 0 && Parse(lines, fence) == Split(lines, [])
    ensures var n := |lines| - 1;
            && Parse(lines[..n], fence) == Split(lines[..n], [])
            && (FenceAfter(lines[..n], fence) || !IsHeading(lines[n]))
  {
    hide IsHeading, IsFence, Parse, FenceAfter;
    var n := |lines| - 1;
    var front, last := lines[..n], lines[n];
    assert lines == front + [last];
    ParseCut(front, [last], fence);
    OneLine(last, FenceAfter(front, fence));
    ParseIsLossless(front, fence);
    if |Parse(front, fence).groups| == 0 {
      assert GroupLines([]) == [];
      assert Parse(front, fence).preamble + [] == Parse(front, fence).preamble;
    }
  }

  /** So does the empty line behind them. */
  lemma SpacedPlain(lines: seq<Line>, fence: bool)
    requires |lines| > 0 && lines[|lines| - 1] != "" && !IsSpace(lines[|lines| - 1][|lines[|lines| - 1]| - 1])
    requires Parse(lines, fence) == Split(lines, [])
    ensures Parse(Spaced(lines), fence) == Split(Spaced(lines), [])
    ensures FencesIn(Spaced(lines)) == FencesIn(lines)
  {
    hide IsHeading, IsFence, Parse, FenceAfter;
    var n := |lines| - 1;
    var front, last := lines[..n], lines[n];
    LastPlain(lines, fence);
    NewlineBehind(last);
    PlainSnoc(front, last + "\n", fence);
    EmptyIsNoFence();
    PlainSnoc(front + [last + "\n"], "\n", fence);
    assert Spaced(lines) == front + [last + "\n"] + ["\n"];
    assert (front + [last + "\n"])[..n] == front;
    assert Spaced(lines)[..n + 1] == front + [last + "\n"];
  }

  lemma {:induction false} TrimEnds(lines: seq<Line>)
    requires Trim(lines) != []
    ensures var last := Trim(lines)[|Trim(lines)| - 1]; last != "" && !IsSpace(last[|last| - 1])
  {
    if RStrip(lines[|lines| - 1]) == "" {
      TrimEnds(lines[..|lines| - 1]);
    }
  }

  lemma {:induction false} TrimFront(line: Line, lines: seq<Line>)
    ensures Trim([line] + lines) == if Trim(lines) == [] then Trim([line]) else [line] + Trim(lines)
  {
    if |lines| == 0 {
      assert [line] + lines == [line];
    } else {
      var n := |lines| - 1;
      assert ([line] + lines)[..n + 1] == [line] + lines[..n];
      TrimFront(line, lines[..n]);
      assert [line] + (lines[..n] + [RStrip(lines[n])]) == [line] + lines[..n] + [RStrip(lines[n])];
    }
  }

  lemma {:induction false} TrimNothing(lines: seq<Line>)
    ensures Trim(lines) == [] <==> AllSpace(Concat(lines))
  {
    if |lines| > 0 {
      var n := |lines| - 1;
      assert lines == lines[..n] + [lines[n]];
      ConcatSnoc(lines[..n], lines[n]);
      var tail := RStripSplit(lines[n]);
      TrimNothing(lines[..n]);
      if RStrip(lines[n]) != "" {
        var r := RStrip(lines[n]);
        assert Concat(lines)[|Concat(lines[..n])| + |r| - 1] == r[|r| - 1];
      } else {
        assert lines[n] == tail;
        SpacesSplit(Concat(lines[..n]), lines[n]);
      }
    }
  }

  lemma SpacesSplit(a: string, b: string)
    ensures AllSpace(a + b) <==> AllSpace(a) && AllSpace(b)
  {
    if AllSpace(a + b) {
      forall i | 0 <= i < |a| ensures IsSpace(a[i]) {
        assert (a + b)[i] == a[i];
      }
      forall i | 0 <= i < |b| ensures IsSpace(b[i]) {
        assert (a + b)[|a| + i] == b[i];
      }
    }
  }

  /** A section's lines as they are written: the last section's, or those of one before it. */
  function Piece(g: Group, last: bool): seq<Line> {
    if last then Trim(LinesOf(g)) else Spaced(Trim(LinesOf(g)))
  }

  lemma PieceText(g: Group, last: bool)
    requires IsHeading(g.heading)
    ensures Piece(g, last) != [] && Strip(Concat(Piece(g, last))) == Strip(g.heading + Concat(g.body))
  {
    hide IsHeading, Strip, Concat, Trim, Spaced;
    SectionText(g);
    var text := Strip(g.heading + Concat(g.body));
    StripFixes(text);
    SpacedText(Trim(LinesOf(g)));
    StripTail(text, "\n\n");
    assert Spaced(Trim(LinesOf(g))) != [] by { SpacedLength(Trim(LinesOf(g))); }
  }

  lemma SpacedLength(lines: seq<Line>)
    ensures |Spaced(lines)| == if lines == [] then 0 else |lines| + 1
  {
  }

  lemma BodyIsPlain(g: Group)
    requires OneSection(g)
    ensures IsHeading(g.heading) && !IsFence(g.heading) && Parse(g.body, false) == Split(g.body, [])
  {
    hide IsHeading, IsFence;
    FirstIsHeading(g);
    assert ([g.heading] + g.body)[1..] == g.body;
    var rest := Parse(g.body, false);
    assert [Group(g.heading, rest.preamble)] + rest.groups == [g];
    assert ([Group(g.heading, rest.preamble)] + rest.groups)[0] == g;
    assert |rest.groups| == 0;
  }

  lemma TitleTail(line: Line, back: Line, r: string, tail: string)
    requires IsHeading(line) && IsHeading(back) && Marks(back) == Marks(line) < |r|
    requires line == r + tail && AllSpace(tail) && (back == r || back == r + "\n")
    ensures Title(back) == Title(line)
  {
    hide IsHeading, Marks, Strip, StripMarks;
    var m := Marks(line);
    assert line[m..] == r[m..] + tail;
    StripTail(r[m..], tail);
    if back == r + "\n" {
      assert back[m..] == r[m..] + "\n";
      StripTail(r[m..], "\n");
    }
  }

  /** The first line of a piece, when it is a heading, keeps its title, and the rest is plain. */
  ghost predicate HasHead(g: Group, piece: seq<Line>)
    requires IsHeading(g.heading)
  {
    && piece != [] && IsHeading(piece[0]) && Title(piece[0]) == Title(g.heading)
    && Parse(piece[1..], false) == Split(piece[1..], [])
    && FencesIn(piece[1..]) == FencesIn(g.body)
  }

  /** Some text is left of the body: the heading line is as it was. */
  lemma HeadWithBody(g: Group, last: bool)
    requires OneSection(g) && Trim(g.body) != []
    ensures IsHeading(g.heading) && HasHead(g, Piece(g, last))
  {
    hide IsHeading, IsFence, Trim, Spaced, Parse, OneSection, Title, FencesIn;
    BodyIsPlain(g);
    TrimFront(g.heading, g.body);
    TrimPlain(g.body, false);
    TrimEnds(g.body);
    SpacedPlain(Trim(g.body), false);
    SpacedFront(g.heading, Trim(g.body));
    assert ([g.heading] + Trim(g.body))[1..] == Trim(g.body);
    assert ([g.heading] + Spaced(Trim(g.body)))[1..] == Spaced(Trim(g.body));
  }

  lemma SpacedFront(line: Line, lines: seq<Line>)
    requires lines != []
    ensures Spaced([line] + lines) == [line] + Spaced(lines)
  {
  }

  /** Nothing is left of the body: the heading line is stripped too. */
  lemma HeadAlone(g: Group, last: bool)
    requires OneSection(g) && Trim(g.body) == [] && IsHeading(g.heading) && |RStrip(g.heading)| > Marks(g.heading)
    ensures HasHead(g, Piece(g, last))
  {
    hide IsHeading, IsFence, Trim, Parse, OneSection, Title, FencesIn, RStrip, Marks;
    BodyIsPlain(g);
    TrimPlain(g.body, false);
    NoLines();
    var r := RStrip(g.heading);
    var tail := RStripSplit(g.heading);
    RStripLine(g.heading);
    NewlineBehind(r);
    TitleTail(g.heading, r, r, tail);
    TitleTail(g.heading, r + "\n", r, tail);
    AloneTrimmed(g);
    assert Trim(LinesOf(g)) == [r];
    assert [r][1..] == [] && [r + "\n", "\n"][1..] == ["\n"];
    assert Spaced([r]) == [r + "\n", "\n"];
  }

  lemma NoLines()
    ensures Parse([], false) == Split([], []) && Parse(["\n"], false) == Split(["\n"], [])
    ensures FencesIn([]) == 0 && FencesIn(["\n"]) == 0
  {
    hide IsHeading, IsFence;
    EmptyIsNoFence();
    OneLine("\n", false);
    FencesSnoc([], "\n");
    assert [] + ["\n"] == ["\n"];
  }

  lemma AloneTrimmed(g: Group)
    requires IsHeading(g.heading) && Trim(g.body) == []
    ensures Trim(LinesOf(g)) == [RStrip(g.heading)]
  {
    hide RStrip;
    TrimFront(g.heading, g.body);
    assert [g.heading][..0] == [];
    assert g.heading[0] == '#' && !IsSpace('#');
    var tail := RStripSplit(g.heading);
  }

  lemma BlankMeans(g: Group)
    requires IsHeading(g.heading)
    ensures Blank(g) <==> Trim(g.body) == [] && |RStrip(g.heading)| <= Marks(g.heading)
  {
    hide Trim, Concat, IsSpace, RStrip;
    var m := Marks(g.heading);
    TrimNothing(g.body);
    SpacesSplit(g.heading[m..], Concat(g.body));
    var r := RStrip(g.heading);
    var tail := RStripSplit(g.heading);
    if |r| <= m {
      assert g.heading[m..] == tail[m - |r|..];
    } else {
      assert g.heading[m..][|r| - 1 - m] == r[|r| - 1];
    }
  }

  /** Of a blank section only the marks are left, which are no heading. */
  lemma BlankPiece(g: Group, last: bool)
    requires OneSection(g) && Blank(g)
    ensures Parse(Piece(g, last), false) == Split(Piece(g, last), [])
    ensures FencesIn(Piece(g, last)) == FencesIn(g.body) == 0
  {
    hide IsHeading, IsFence, Trim, Parse, OneSection, FencesIn, RStrip, Marks, Blank, FenceAfter;
    BodyIsPlain(g);
    BlankMeans(g);
    TrimPlain(g.body, false);
    NoLines();
    AloneTrimmed(g);
    var r := RStrip(g.heading);
    RStripLine(g.heading);
    MarksOnly(g.heading, r);
    PlainSnoc([], r, false);
    FencesSnoc([], r);
    assert [] + [r] == [r];
    TrimEnds(LinesOf(g));
    SpacedPlain([r], false);
  }

  lemma MarksOnly(line: Line, r: Line)
    requires IsHeading(line) && |r| <= Marks(line)
    ensures !IsHeading(r)
  {
  }

  /** A piece reads back as its section, or, if that is blank, as plain text. */
  lemma PieceReads(g: Group, last: bool)
    requires OneSection(g)
    ensures var piece := Piece(g, last);
            && FencesIn(piece) == FencesIn(g.body)
            && (Blank(g) ==> Parse(piece, false) == Split(piece, []))
            && (!Blank(g) ==>
                  |Parse(piece, false).groups| == 1 && Parse(piece, false).preamble == []
                  && Same(g, Parse(piece, false).groups[0]))
  {
    hide IsHeading, IsFence, Trim, Parse, OneSection, Title, FencesIn, RStrip, Marks, Blank, Piece, Strip, Concat;
    FirstIsHeading(g);
    BlankMeans(g);
    if Blank(g) {
      BlankPiece(g, last);
    } else {
      if Trim(g.body) == [] {
        HeadAlone(g, last);
      } else {
        HeadWithBody(g, last);
      }
      PieceText(g, last);
      HeadedPiece(Piece(g, last));
    }
  }

  lemma HeadedPiece(piece: seq<Line>)
    requires piece != [] && IsHeading(piece[0]) && Parse(piece[1..], false) == Split(piece[1..], [])
    ensures Parse(piece, false) == Split([], [Group(piece[0], piece[1..])])
    ensures FencesIn(piece) == FencesIn(piece[1..])
    ensures Concat(piece) == piece[0] + Concat(piece[1..])
  {
    hide IsHeading, IsFence;
    HeadingIsNoFence(piece[0]);
    FencesInFront(piece);
  }

  /** How many are not blank. */
  function Shown(groups: seq<Group>): nat {
    if |groups| == 0 then 0 else (if Blank(groups[0]) then 0 else 1) + Shown(groups[1..])
  }

  lemma {:induction false} ShownAll(groups: seq<Group>)
    ensures Shown(groups) <= |groups|
    ensures Shown(groups) == |groups| <==> forall g :: g in groups ==> !Blank(g)
  {
    hide Blank;
    if |groups| > 0 {
      ShownAll(groups[1..]);
      assert groups == [groups[0]] + groups[1..];
    }
  }

  lemma {:induction false} WrittenReads(groups: seq<Group>)
    requires Standing(groups)
    ensures var s := Parse(Written(groups), false);
            |s.groups| == Shown(groups) && (Shown(groups) == |groups| ==> ReadsBack([], groups, s))
  {
    hide IsHeading, IsFence, Blank, Parse, OneSection, Same, Closed, Piece, FencesIn, Glue;
    if |groups| == 0 {
      NoLines();
    } else if |groups| == 1 {
      assert groups[1..] == [];
      PieceReads(groups[0], true);
      LastPiece(groups[0]);
    } else {
      var piece := Piece(groups[0], false);
      PieceReads(groups[0], false);
      WrittenReads(groups[1..]);
      ShownAll(groups[1..]);
      MorePieces(groups);
      ParseCut(piece, Written(groups[1..]), false);
      FirstGlued(Parse(piece, false), Parse(Written(groups[1..]), false));
    }
  }

  lemma LastPiece(g: Group)
    ensures Written([g]) == Piece(g, true) && Shown([g]) == if Blank(g) then 0 else 1
  {
    hide Blank, Trim;
    assert [g][1..] == [];
  }

  lemma MorePieces(groups: seq<Group>)
    requires |groups| > 1 && Standing(groups) && FencesIn(Piece(groups[0], false)) == FencesIn(groups[0].body)
    ensures Written(groups) == Piece(groups[0], false) + Written(groups[1..])
    ensures !FenceAfter(Piece(groups[0], false), false) && Standing(groups[1..])
  {
    hide OneSection, FencesIn, Trim, Spaced;
    assert Closed(groups[0]);
  }

  lemma FirstGlued(a: Split, b: Split)
    ensures |Glue(a, b).groups| == |a.groups| + |b.groups|
    ensures |a.groups| == 1 && a.preamble == [] && b.preamble == [] ==>
              Glue(a, b) == Split([], a.groups + b.groups)
  {
    if |a.groups| == 1 && b.preamble == [] {
      assert a.groups[0].body + [] == a.groups[0].body;
      assert a.groups == [a.groups[0]];
    }
  }

  /** Lines without a heading, closing the fences they open, as they may stand before the sections. */
  ghost predicate Plain(lines: seq<Line>) {
    Parse(lines, false) == Split(lines, []) && !FenceAfter(lines, false)
  }

  /**
   The written sections read back as themselves, behind any such lines, if and only if
   none of them is blank.
   */
  lemma WrittenReadsBackIff(before: seq<Line>, groups: seq<Group>)
    requires Plain(before) && Standing(groups)
    ensures ReadsBack(before, groups, Parse(before + Written(groups), false)) <==> forall g :: g in groups ==> !Blank(g)
  {
    hide Parse, Written, Standing, FenceAfter, Blank, Same;
    ParseCut(before, Written(groups), false);
    WrittenReads(groups);
    ShownAll(groups);
    assert before + [] == before;
  }

  ghost function At(groups: seq<Group>, at: seq<nat>): seq<Group>
    requires forall k :: 0 <= k < |at| ==> at[k] < |groups|
  {
    seq(|at|, k requires 0 <= k < |at| => groups[at[k]])
  }

  lemma KeptStand(lines: seq<Line>, at: seq<nat>)
    requires Increasing(at, |Parse(lines, false).groups|)
    ensures Standing(At(Parse(lines, false).groups, at)) && AllHeaded(At(Parse(lines, false).groups, at))
  {
    hide OneSection, Closed, Parse, IsHeading;
    var all := Parse(lines, false).groups;
    var kept := At(all, at);
    SectionsStandAlone(lines, false);
    forall i | 0 <= i < |kept| ensures OneSection(kept[i]) && (i < |kept| - 1 ==> Closed(kept[i])) {
      assert OneSection(all[at[i]]);
      if i < |kept| - 1 {
        assert at[i] < at[i + 1] && Closed(all[at[i]]);
      }
    }
    forall g | g in kept ensures IsHeading(g.heading) {
      FirstIsHeading(g);
    }
  }

  /**
   The context as it is rendered: its text is what is left of the preamble and the written
   sections, and these read back as the ones kept if and only if none of those is blank.
   */
  lemma ContextReadsBackIff(
      r: Rules, lines: seq<Line>, lane: Lane, rewind: bool, ss: seq<Section>, chosen: seq<Section>, at: seq<nat>,
      before: seq<Line>)
    requires Describes(ss, Parse(lines, false).groups) && IsSelection(r, ss, lane, rewind, chosen, at)
    requires |chosen| > 0 && Plain(before)
    ensures Increasing(at, |Parse(lines, false).groups|)
    ensures var kept := At(Parse(lines, false).groups, at);
            var clean := r.clean(Concat(Parse(lines, false).preamble));
            && (Context(r, Concat(lines), Concat(Parse(lines, false).preamble), chosen)
                == if clean == "" then Concat(Written(kept)) else Strip(clean + "\n\n" + Concat(Written(kept))))
            && (ReadsBack(before, kept, Parse(before + Written(kept), false)) <==> forall g :: g in kept ==> !Blank(g))
  {
    hide Parse, Concat, Strip, Written, IsHeading, Kept, Blank, Plain, Same, Context, Standing, AllHeaded, Title,
         Normalize;
    var all := Parse(lines, false).groups;
    var kept := At(all, at);
    KeptStand(lines, at);
    forall i | 0 <= i < |kept| ensures chosen[i].heading == kept[i].heading && chosen[i].body == Concat(kept[i].body) {
      assert chosen[i] == ss[at[i]] == SectionOf(all[at[i]], at[i]);
    }
    ContextIsWritten(r, Concat(lines), Concat(Parse(lines, false).preamble), chosen, kept);
    WrittenReadsBackIff(before, kept);
  }

  /** Such a section: two marks and two blanks; its text is read back as plain lines. */
  lemma BlankHeadingIsLost()
    ensures var g := Group("##  ", []);
            && Standing([g]) && Blank(g)
            && Parse(Written([g]), false) == Split(Written([g]), []) && Concat(Written([g])) == "##"
  {
    hide IsFence, Strip, RStrip, Title, Parse, Written, FencesIn;
    var g := Group("##  ", []);
    assert g.heading[2..] == "  " && Concat(g.body) == "";
    OneLine("##  ", false);
    assert ["##  "] + [] == ["##  "];
    BlankPiece(g, true);
    LastPiece(g);
    AloneTrimmed(g);
    RStripIs("##", "  ");
    assert "##" + "  " == "##  ";
    assert ["##"][1..] == [];
  }
}
