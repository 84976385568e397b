/**
 What the template grammar of src/symphony/prompt.py says about tags, quotes and
 errors, stated on the texts: the shape of a loop tag, what quotes protect, and which
 error the first bad tag of a template gives.
 */
module TemplateMeaning {
  import opened Prelude
  import opened TextUtil
  import opened Template
  import opened TemplateExpr

  // ---------------------------------------------------------------------
  // Loop tags
  // ---------------------------------------------------------------------

  const LOWER: string := "abcdefghijklmnopqrstuvwxyz"
  const UPPER: string := "ABCDEFGHIJKLMNOPQRSTUVWXYZ"
  const DIGITS: string := "0123456789"

  lemma LowerAre(c: char)
    ensures 'a' <= c <= 'z' <==> c in LOWER
  {
    if 'a' <= c <= 'z' {
      assert LOWER[c as int - 'a' as int] == c;
    }
  }

  lemma UpperAre(c: char)
    ensures 'A' <= c <= 'Z' <==> c in UPPER
  {
    if 'A' <= c <= 'Z' {
      assert UPPER[c as int - 'A' as int] == c;
    }
  }

  lemma DigitsAre(c: char)
    ensures '0' <= c <= '9' <==> c in DIGITS
  {
    if '0' <= c <= '9' {
      assert DIGITS[c as int - '0' as int] == c;
    }
  }

  predicate Letter(c: char) { c in LOWER || c in UPPER || c == '_' }

  lemma LettersAre(c: char)
    ensures IsLetter(c) <==> Letter(c)
    ensures IsIdentChar(c) <==> Letter(c) || c in DIGITS
  {
    hide LOWER, UPPER, DIGITS;
    LowerAre(c);
    UpperAre(c);
    DigitsAre(c);
  }

  /** A name: a letter or underscore, then letters, underscores and digits. */
  lemma IdentIff(s: string)
    ensures IsIdent(s) <==> s != "" && Letter(s[0]) && forall i :: 0 <= i < |s| ==> Letter(s[i]) || s[i] in DIGITS
  {
    hide IsLetter, IsIdentChar, Letter, DIGITS;
    if s != "" {
      LettersAre(s[0]);
    }
    forall i | 0 <= i < |s| ensures IsIdentChar(s[i]) <==> Letter(s[i]) || s[i] in DIGITS {
      LettersAre(s[i]);
    }
  }

  predicate Gap(s: string) { s != "" && forall i :: 0 <= i < |s| ==> IsSpace(s[i]) }

  /** A name, white space, "in", white space, and an expression on one line. */
  predicate LoopTag(operand: string, name: string, gap: string, second: string, expr: string) {
    && operand == name + gap + "in" + second + expr
    && IsIdent(name) && Gap(gap) && Gap(second)
    && expr != "" && !IsSpace(expr[0]) && '\n' !in expr
  }

  lemma {:induction false} LStripGap(gap: string, rest: string)
    requires forall i :: 0 <= i < |gap| ==> IsSpace(gap[i])
    requires rest == "" || !IsSpace(rest[0])
    ensures LStrip(gap + rest) == rest
  {
    hide IsSpace;
    if gap == "" {
      assert gap + rest == rest;
    } else {
      assert (gap + rest)[1..] == gap[1..] + rest;
      LStripGap(gap[1..], rest);
    }
  }

  lemma {:induction false} SpaceBefore(s: string, i: nat)
    requires i < |s| - |LStrip(s)|
    ensures IsSpace(s[i])
  {
    hide IsSpace;
    if i > 0 {
      SpaceBefore(s[1..], i - 1);
    }
  }

  /** The white space that stripping takes off. */
  lemma Before(s: string) returns (gap: string)
    requires LStrip(s) != s
    ensures Gap(gap) && s == gap + LStrip(s)
  {
    hide IsSpace;
    var n := |s| - |LStrip(s)|;
    gap := s[..n];
    WholeIsSame(s, LStrip(s));
    forall i | 0 <= i < |gap| ensures IsSpace(gap[i]) {
      SpaceBefore(s, i);
    }
  }

  lemma WholeIsSame(s: string, r: string)
    requires |r| <= |s| && r == s[|s| - |r|..]
    ensures |r| == |s| ==> r == s
    ensures s == s[..|s| - |r|] + r
  {
  }

  lemma SpacesAreNoIdent(c: char)
    requires IsSpace(c)
    ensures !IsIdentChar(c)
  {
  }

  lemma ForMatches(operand: string, name: string, tail: string, afterName: string, rest: string, expr: string)
    requires IsIdent(name) && IdentPrefix(operand) == name && operand[|name|..] == tail
    requires LStrip(tail) == afterName && tail != afterName && "in" <= afterName
    requires afterName[2..] == rest && LStrip(rest) == expr && rest != expr && expr != "" && '\n' !in expr
    ensures MatchFor(operand) == Some(ForParts(name, Strip(expr)))
  {
    hide IsIdent, LStrip, IdentPrefix, Strip;
  }

  lemma LoopTagMatches(operand: string, name: string, gap: string, second: string, expr: string)
    requires LoopTag(operand, name, gap, second, expr)
    ensures MatchFor(operand) == Some(ForParts(name, Strip(expr)))
  {
    hide IsSpace, IsIdentChar, LStrip, IdentPrefix, Strip, MatchFor;
    var rest := second + expr;
    var afterName := "in" + rest;
    var tail := gap + afterName;
    Assembled(name, gap, "in", second, expr, tail, afterName, rest);
    assert tail[0] == gap[0];
    SpacesAreNoIdent(gap[0]);
    IdentPrefixOf(name, tail);
    assert (name + tail)[|name|..] == tail;
    LettersAreNotSpace('i');
    LStripGap(gap, afterName);
    assert "in" <= afterName && afterName[2..] == rest;
    LStripGap(second, expr);
    assert |tail| > |afterName| && |rest| > |expr|;
    ForMatches(operand, name, tail, afterName, rest, expr);
  }

  lemma Assembled(a: string, b: string, c: string, d: string, e: string, t: string, u: string, v: string)
    requires t == b + u && u == c + v && v == d + e
    ensures a + b + c + d + e == a + t
  {
    assert a + b + c + d + e == a + (b + (c + (d + e)));
  }

  lemma MatchedParts(operand: string) returns (name: string, tail: string, rest: string)
    requires MatchFor(operand).Some?
    ensures IsIdent(name) && operand == name + tail && tail != LStrip(tail) && LStrip(tail) == "in" + rest
    ensures rest != LStrip(rest) && LStrip(rest) != "" && '\n' !in LStrip(rest)
    ensures MatchFor(operand) == Some(ForParts(name, Strip(LStrip(rest))))
  {
    hide IsIdent, LStrip, IdentPrefix, Strip;
    name := IdentPrefix(operand);
    tail := operand[|name|..];
    rest := LStrip(tail)[2..];
  }

  lemma MatchIsLoopTag(operand: string) returns (gap: string, second: string, expr: string)
    requires MatchFor(operand).Some?
    ensures var parts := MatchFor(operand).value;
            LoopTag(operand, parts.loopVar, gap, second, expr) && parts.iterable == Strip(expr)
  {
    hide IsSpace, LStrip, Strip, IsIdent, MatchFor, LoopTag, Gap;
    var name, tail, rest := MatchedParts(operand);
    gap := Before(tail);
    second := Before(rest);
    expr := LStrip(rest);
    IsLoopTag(operand, name, gap, second, expr, tail, LStrip(tail), rest);
  }

  lemma IsLoopTag(
      operand: string, name: string, gap: string, second: string, expr: string,
      tail: string, afterName: string, rest: string)
    requires operand == name + tail && tail == gap + afterName && afterName == "in" + rest && rest == second + expr
    requires IsIdent(name) && Gap(gap) && Gap(second)
    requires expr != "" && !IsSpace(expr[0]) && '\n' !in expr
    ensures LoopTag(operand, name, gap, second, expr)
  {
    hide IsSpace, IsIdent;
    Assembled(name, gap, "in", second, expr, tail, afterName, rest);
  }

  /** A loop tag is accepted exactly when its operand has that shape, with that name and expression. */
  lemma MatchForIff(operand: string, parts: ForParts)
    ensures MatchFor(operand) == Some(parts)
       <==> exists gap, second, expr ::
              LoopTag(operand, parts.loopVar, gap, second, expr) && parts.iterable == Strip(expr)
  {
    hide LoopTag, MatchFor, Strip;
    if MatchFor(operand) == Some(parts) {
      var gap, second, expr := MatchIsLoopTag(operand);
    }
    if gap, second, expr :| LoopTag(operand, parts.loopVar, gap, second, expr) && parts.iterable == Strip(expr) {
      LoopTagMatches(operand, parts.loopVar, gap, second, expr);
    }
  }

  // ---------------------------------------------------------------------
  // Quotes
  // ---------------------------------------------------------------------

  /** What may stand between two quotes: no bare mark, and a backslash takes the next character along. */
  predicate Quotable(s: string, mark: char)
    decreases |s|
  {
    || s == ""
    || (s[0] == '\\' && |s| >= 2 && Quotable(s[2..], mark))
    || (s[0] != '\\' && s[0] != mark && Quotable(s[1..], mark))
  }

  lemma {:induction false} QuotedCloses(s: string, mark: char, sep: char)
    requires Quotable(s, mark) && mark != '\\'
    ensures Closed(s + [mark], sep, Inside(mark))
    decreases |s|
  {
    var all := s + [mark];
    if s == "" {
      assert all == [mark] && all[1..] == "";
      assert Closed("", sep, NoQuote);
    } else if s[0] == '\\' {
      QuotedCloses(s[2..], mark, sep);
      assert all[2..] == s[2..] + [mark];
    } else {
      QuotedCloses(s[1..], mark, sep);
      assert all[1..] == s[1..] + [mark];
    }
  }

  /** Anything between single or double quotes is kept in one piece, separators and escaped marks included. */
  lemma QuotesProtect(s: string, mark: char, sep: char, rest: string)
    requires Quotable(s, mark) && mark in {'"', '\''} && sep != mark
    ensures Split([mark] + s + [mark] + [sep] + rest, sep, NoQuote, "")
         == [[mark] + s + [mark]] + Split(rest, sep, NoQuote, "")
  {
    hide Quotable;
    var piece := [mark] + s + [mark];
    assert piece[1..] == s + [mark];
    QuotedCloses(s, mark, sep);
    assert Closed(piece, sep, NoQuote);
    var after := [sep] + rest;
    assert [mark] + s + [mark] + [sep] + rest == piece + after;
    SplitPasses(piece, after, sep, NoQuote, "");
    assert "" + piece == piece;
    assert after[0] == sep && after[1..] == rest;
  }

  // ---------------------------------------------------------------------
  // Errors
  // ---------------------------------------------------------------------

  /** No token of these ends a raw block. */
  predicate NoEndRaw(tokens: seq<Token>) {
    forall i :: 0 <= i < |tokens| ==> !(tokens[i].Tag? && Strip(tokens[i].s) == "endraw")
  }

  lemma {:induction false} RawUnended(tokens: seq<Token>)
    requires NoEndRaw(tokens)
    ensures CollectRaw(tokens).None?
  {
    if tokens != [] {
      assert forall i :: 0 <= i < |tokens[1..]| ==> tokens[1..][i] == tokens[i + 1];
      RawUnended(tokens[1..]);
    }
  }

  /** What is wrong with a tag that does not end the block it stands in. */
  predicate BadTag(v: string, after: seq<Token>, e: ParseError) {
    match WordOf(v)
    case WIf => Operand(v) == "" && e == EmptyIf
    case WFor => MatchFor(Operand(v)).None? && e == MalformedFor(v)
    case WRaw => NoEndRaw(after) && e == UnterminatedRaw
    case _ => e == UnknownTag(v)
  }

  /** After any well-formed nodes, the first bad tag gives its error, whatever comes later. */
  lemma FirstBadTagFails(nodes: seq<Node>, v: string, after: seq<Token>, ends: Ends, e: ParseError)
    requires WellFormed(nodes) && !ends.Stops(WordOf(v)) && BadTag(v, after, e)
    ensures ParseBlock(Print(nodes) + ([Tag(v)] + after), ends) == Err(e)
  {
    hide WordOf, Operand, MatchFor, Print, WellFormed, CollectRaw, NoEndRaw, ParseBranches;
    ParsePrinted(nodes, [Tag(v)] + after, ends);
    assert ([Tag(v)] + after)[1..] == after;
    if WordOf(v) == WRaw {
      RawUnended(after);
    }
  }

  /** A body whose template ends before its end tag. */
  lemma MissingEndFails(nodes: seq<Node>, ends: Ends)
    requires WellFormed(nodes) && !ends.TopLevel?
    ensures ParseBlock(Print(nodes), ends) == Err(MissingEndTag)
  {
    hide Print, WellFormed;
    ParsePrinted(nodes, [], ends);
    assert Print(nodes) + [] == Print(nodes);
  }

  /** An elsif without a condition, after a well-formed first branch. */
  lemma EmptyElsifFails(cond: string, body: seq<Node>, v: string, after: seq<Token>, ends: Ends)
    requires GoodOperand(cond) && WellFormed(body) && WordOf(v) == WElsif && Operand(v) == ""
    requires !ends.Stops(WIf)
    ensures ParseBlock([Tag("if " + cond)] + Print(body) + ([Tag(v)] + after), ends) == Err(EmptyElsif)
  {
    hide WordOf, Operand, Print, WellFormed, GoodOperand;
    IfTag(cond);
    var rest := [Tag(v)] + after;
    var tokens := [Tag("if " + cond)] + Print(body) + rest;
    assert tokens[0] == Tag("if " + cond) && tokens[1..] == Print(body) + rest;
    assert cond != "" by { GoodIsSome(cond); }
    ParsePrinted(body, rest, IfBody);
    assert ParseBlock(rest, IfBody) == Ok(Block([], rest));
    assert ParseBranches(rest) == Err(EmptyElsif);
  }

  lemma GoodIsSome(s: string)
    requires GoodOperand(s)
    ensures s != ""
  {
  }
}
