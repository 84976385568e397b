/**
 The other half of the template round trip: whatever token list the parser accepts, printing the
 tree it returns gives that list back in canonical spelling.
 */
module TemplateLaws {
  import opened Prelude
  import opened TextUtil
  import opened Template

  /** A tag outside raw blocks with its white space made regular and words after an end tag dropped. */
  function CanonicalTag(v: string): string {
    match WordOf(v)
    case WIf => "if " + Operand(v)
    case WElsif => "elsif " + Operand(v)
    case WElse => "else"
    case WEndIf => "endif"
    case WEndFor => "endfor"
    case WFor =>
      var parts := MatchFor(Operand(v));
      if parts.None? then v else "for " + parts.value.loopVar + " in " + parts.value.iterable
    case _ => v
  }

  /** Every token outside raw blocks kept, tags respelled; a raw block's contents become one text. */
  function Canonical(tokens: seq<Token>): seq<Token>
    decreases |tokens|
  {
    if tokens == [] then []
    else if tokens[0].Tag? && WordOf(tokens[0].s) == WRaw then
      var raw := CollectRaw(tokens[1..]);
      if raw.None? then tokens
      else [Tag("raw")] + RawText(raw.value.0) + [Tag("endraw")] + Canonical(raw.value.1)
    else if tokens[0].Tag? then [Tag(CanonicalTag(tokens[0].s))] + Canonical(tokens[1..])
    else [tokens[0]] + Canonical(tokens[1..])
  }

  // ---------------------------------------------------------------------------------------------
  // What the tag contents guarantee
  // ---------------------------------------------------------------------------------------------

  lemma OperandIsGood(v: string)
    requires Operand(v) != ""
    ensures GoodOperand(Operand(v))
  {
    StripIsStripped(v[|Head(v)|..]);
  }

  lemma MatchedForIsGood(operand: string)
    requires MatchFor(operand).Some?
    ensures var p := MatchFor(operand).value;
            IsIdent(p.loopVar) && GoodOperand(p.iterable) && '\n' !in p.iterable
  {
    hide LStrip, RStrip, IsIdent, IdentPrefix;
    var name := IdentPrefix(operand);
    var afterName := LStrip(operand[|name|..]);
    var expr := LStrip(afterName[2..]);
    StripIsStripped(expr);
    StripOfLeftStripped(expr);
  }

  lemma StripOfLeftStripped(s: string)
    requires s != "" && !IsSpace(s[0])
    ensures Strip(s) != "" && Strip(s) <= s
    ensures forall c :: c !in s ==> c !in Strip(s)
  {
    RStripKeepsHead(s);
  }

  lemma {:induction false} RStripKeepsHead(s: string)
    requires s != "" && !IsSpace(s[0])
    ensures RStrip(s) != ""
  {
    if IsSpace(s[|s| - 1]) {
      assert |s| > 1;
      RStripKeepsHead(s[..|s| - 1]);
    }
  }

  // ---------------------------------------------------------------------------------------------
  // Printing a parsed tree
  // ---------------------------------------------------------------------------------------------

  lemma {:induction false} PrintParsed(tokens: seq<Token>, ends: Ends)
    requires ParseBlock(tokens, ends).Ok?
    ensures var b := ParseBlock(tokens, ends).value;
            Canonical(tokens) == Print(b.nodes) + Canonical(b.rest) && WellFormed(b.nodes)
    decreases |tokens|, 2
  {
    hide CanonicalTag, WordOf, PrintBranches, PrintElse;
    var b := ParseBlock(tokens, ends).value;
    if b.nodes == [] {
      assert b.rest == tokens;
      assert Print(b.nodes) + Canonical(b.rest) == Canonical(b.rest);
    } else {
      var n := b.nodes[0];
      if tokens[0].Tag? {
        PrintParsedTag(tokens);
        var after := ParseTag(tokens).value.1;
        PrintParsed(after, ends);
        assert b.nodes[1..] == ParseBlock(after, ends).value.nodes;
        Regroup(PrintNode(n), Print(b.nodes[1..]), Canonical(b.rest));
      } else {
        PrintParsed(tokens[1..], ends);
        assert b.nodes[1..] == ParseBlock(tokens[1..], ends).value.nodes;
        Regroup([tokens[0]], Print(b.nodes[1..]), Canonical(b.rest));
      }
    }
  }

  lemma Regroup(a: seq<Token>, b: seq<Token>, c: seq<Token>)
    ensures a + (b + c) == (a + b) + c
  {
  }

  lemma {:induction false} PrintParsedTag(tokens: seq<Token>)
    requires StartsWithTag(tokens) && ParseTag(tokens).Ok?
    ensures var r := ParseTag(tokens).value;
            Canonical(tokens) == PrintNode(r.0) + Canonical(r.1) && WellFormedNode(r.0)
    decreases |tokens|, 1
  {
    hide WordOf, Operand, MatchFor, Print, Strip, IsIdent;
    var v := tokens[0].s;
    match WordOf(v)
    case WIf => PrintParsedIf(tokens);
    case WFor => PrintParsedFor(tokens);
    case WRaw =>
      var raw := CollectRaw(tokens[1..]).value;
      assert PrintNode(RawNode(raw.0)) + Canonical(raw.1) == Canonical(tokens);
    case _ =>
  }

  lemma {:induction false} PrintParsedIf(tokens: seq<Token>)
    requires StartsWithTag(tokens) && WordOf(tokens[0].s) == WIf && ParseTag(tokens).Ok?
    ensures var r := ParseTag(tokens).value;
            Canonical(tokens) == PrintNode(r.0) + Canonical(r.1) && WellFormedNode(r.0)
    decreases |tokens|, 0
  {
    hide WordOf, Operand, MatchFor, Print, PrintBranches, PrintElse, Strip, CollectRaw, WellFormed;
    var v := tokens[0].s;
    OperandIsGood(v);
    var body := ParseBlock(tokens[1..], IfBody).value;
    PrintParsed(tokens[1..], IfBody);
    PrintParsedBranches(body.rest);
    var more := ParseBranches(body.rest).value;
    var node := ParseTag(tokens).value.0;
    assert node == IfNode([Branch(Operand(v), body.nodes)] + more.branches, more.elseBody);
    assert node.branches[1..] == more.branches;
    PrintedIf(node, Canonical(more.rest));
    Regroup(PrintBranches(more.branches), PrintElse(more.elseBody), Canonical(more.rest));
  }

  lemma CanonicalFor(tokens: seq<Token>)
    requires StartsWithTag(tokens) && WordOf(tokens[0].s) == WFor && MatchFor(Operand(tokens[0].s)).Some?
    ensures var p := MatchFor(Operand(tokens[0].s)).value;
            Canonical(tokens) == [Tag("for " + p.loopVar + " in " + p.iterable)] + Canonical(tokens[1..])
  {
    hide WordOf, Operand, MatchFor, CollectRaw;
  }

  lemma PrintedFor(node: Node, after: seq<Token>)
    requires node.ForNode?
    ensures PrintNode(node) + after
         == [Tag("for " + node.loopVar + " in " + node.iterable)] + (Print(node.body) + ([Tag("endfor")] + after))
  {
    hide Print;
  }

  lemma {:induction false} PrintParsedFor(tokens: seq<Token>)
    requires StartsWithTag(tokens) && WordOf(tokens[0].s) == WFor && ParseTag(tokens).Ok?
    ensures var r := ParseTag(tokens).value;
            Canonical(tokens) == PrintNode(r.0) + Canonical(r.1) && WellFormedNode(r.0)
    decreases |tokens|, 0
  {
    hide WordOf, Operand, MatchFor, Print, PrintNode, CollectRaw, WellFormed, IsIdent, ParseBlock,
      Canonical, CanonicalTag;
    MatchedForIsGood(Operand(tokens[0].s));
    CanonicalFor(tokens);
    var body := ParseBlock(tokens[1..], ForBody).value;
    PrintParsed(tokens[1..], ForBody);
    CanonicalEnd(body.rest);
    PrintedFor(ParseTag(tokens).value.0, Canonical(body.rest[1..]));
  }

  lemma {:induction false} PrintParsedBranches(tokens: seq<Token>)
    requires StartsWithTag(tokens) && IfBody.Stops(WordOf(tokens[0].s))
    requires ParseBranches(tokens).Ok?
    ensures var r := ParseBranches(tokens).value;
            && Canonical(tokens) == PrintBranches(r.branches) + (PrintElse(r.elseBody) + Canonical(r.rest))
            && WellFormedBranches(r.branches) && WellFormedElse(r.elseBody)
    decreases |tokens|, 1
  {
    hide WordOf, Print, CollectRaw, WellFormed, ParseBlock, Canonical, PrintElse;
    var r := ParseBranches(tokens).value;
    match WordOf(tokens[0].s)
    case WElsif => PrintParsedElsif(tokens);
    case WElse =>
      PrintParsedElse(tokens);
      assert PrintBranches([]) + (PrintElse(r.elseBody) + Canonical(r.rest)) == Canonical(tokens);
    case WEndIf =>
      CanonicalEnd(tokens);
      PrintedEnd();
      assert PrintBranches([]) + (PrintElse(NoElse) + Canonical(tokens[1..])) == Canonical(tokens);
  }

  lemma CanonicalEnd(tokens: seq<Token>)
    requires StartsWithTag(tokens) && WordOf(tokens[0].s) in {WElse, WEndIf, WEndFor}
    ensures Canonical(tokens) == [Tag(CanonicalTag(tokens[0].s))] + Canonical(tokens[1..])
    ensures WordOf(tokens[0].s) == WElse ==> CanonicalTag(tokens[0].s) == "else"
    ensures WordOf(tokens[0].s) == WEndIf ==> CanonicalTag(tokens[0].s) == "endif"
    ensures WordOf(tokens[0].s) == WEndFor ==> CanonicalTag(tokens[0].s) == "endfor"
  {
    hide WordOf, Operand, MatchFor, CollectRaw;
  }

  lemma PrintedEnd()
    ensures PrintElse(NoElse) == [Tag("endif")]
  {
  }

  lemma {:induction false} PrintParsedElse(tokens: seq<Token>)
    requires StartsWithTag(tokens) && WordOf(tokens[0].s) == WElse && ParseBranches(tokens).Ok?
    ensures var r := ParseBranches(tokens).value;
            && r.branches == []
            && Canonical(tokens) == PrintElse(r.elseBody) + Canonical(r.rest)
            && WellFormedElse(r.elseBody)
    decreases |tokens|, 0
  {
    hide WordOf, Print, CollectRaw, WellFormed, ParseBlock, Canonical, CanonicalTag;
    var r := ParseBranches(tokens).value;
    PrintParsed(tokens[1..], ElseBody);
    var body := ParseBlock(tokens[1..], ElseBody).value;
    CanonicalEnd(tokens);
    CanonicalEnd(body.rest);
    assert PrintElse(r.elseBody) + Canonical(r.rest)
        == [Tag("else")] + (Print(body.nodes) + ([Tag("endif")] + Canonical(r.rest)));
  }

  lemma {:induction false} PrintParsedElsif(tokens: seq<Token>)
    requires StartsWithTag(tokens) && WordOf(tokens[0].s) == WElsif
    requires ParseBranches(tokens).Ok?
    ensures var r := ParseBranches(tokens).value;
            && Canonical(tokens) == PrintBranches(r.branches) + (PrintElse(r.elseBody) + Canonical(r.rest))
            && WellFormedBranches(r.branches) && WellFormedElse(r.elseBody)
    decreases |tokens|, 0
  {
    hide WordOf, Operand, MatchFor, Print, PrintBranches, PrintElse, Strip, CollectRaw, WellFormed, WellFormedElse;
    var v := tokens[0].s;
    var r := ParseBranches(tokens).value;
    OperandIsGood(v);
    PrintParsed(tokens[1..], IfBody);
    var body := ParseBlock(tokens[1..], IfBody).value;
    PrintParsedBranches(body.rest);
    assert r.branches[1..] == ParseBranches(body.rest).value.branches;
    PrintedElsif(r.branches, PrintElse(r.elseBody) + Canonical(r.rest));
  }

  /**
   The parser accepts a token list only as the spelling of a well-formed tree: printing the tree
   gives the canonical form of the list, and parsing that form gives the same tree.
   */
  lemma ParseThenPrint(tokens: seq<Token>)
    requires ParseBlock(tokens, TopLevel).Ok?
    ensures var nodes := ParseBlock(tokens, TopLevel).value.nodes;
            && Print(nodes) == Canonical(tokens)
            && WellFormed(nodes)
            && ParseBlock(Canonical(tokens), TopLevel) == ParseBlock(tokens, TopLevel)
  {
    hide Print, WellFormed;
    PrintParsed(tokens, TopLevel);
    var nodes := ParseBlock(tokens, TopLevel).value.nodes;
    assert Print(nodes) + [] == Print(nodes);
    PrintThenParse(nodes);
  }

  /** What follows an opening raw tag is its end tag, or one text and then its end tag, both as printed. */
  predicate PlainRaw(tokens: seq<Token>) {
    || (tokens != [] && tokens[0] == Tag("endraw"))
    || (|tokens| >= 2 && tokens[0].Text? && tokens[0].s != "" && tokens[1] == Tag("endraw"))
  }

  /** Every tag outside raw blocks is spelled as printed, and every raw block holds at most one text. */
  predicate IsCanonical(tokens: seq<Token>)
    decreases |tokens|
  {
    if tokens == [] then true
    else if tokens[0].Tag? && WordOf(tokens[0].s) == WRaw then
      var raw := CollectRaw(tokens[1..]);
      raw.None? || (tokens[0].s == "raw" && PlainRaw(tokens[1..]) && IsCanonical(raw.value.1))
    else (tokens[0].Tag? ==> tokens[0].s == CanonicalTag(tokens[0].s)) && IsCanonical(tokens[1..])
  }

  lemma {:induction false} RawSuffix(tokens: seq<Token>)
    requires CollectRaw(tokens).Some?
    ensures var (s, rest) := CollectRaw(tokens).value;
            && tokens[|tokens| - |rest|..] == rest
            && |RawText(s)| < |tokens| - |rest|
  {
    hide Strip, RawPiece;
    if !(tokens[0].Tag? && Strip(tokens[0].s) == "endraw") {
      RawSuffix(tokens[1..]);
    }
  }

  lemma {:induction false} CanonicalIsNoLonger(tokens: seq<Token>)
    ensures |Canonical(tokens)| <= |tokens|
    decreases |tokens|
  {
    hide CollectRaw, WordOf, CanonicalTag;
    if tokens != [] {
      if tokens[0].Tag? && WordOf(tokens[0].s) == WRaw {
        if CollectRaw(tokens[1..]).Some? {
          RawSuffix(tokens[1..]);
          CanonicalIsNoLonger(CollectRaw(tokens[1..]).value.1);
        }
      } else {
        CanonicalIsNoLonger(tokens[1..]);
      }
    }
  }

  lemma PlainRawCollects(tokens: seq<Token>)
    requires PlainRaw(tokens)
    ensures CollectRaw(tokens).Some?
    ensures var (s, rest) := CollectRaw(tokens).value;
            tokens == RawText(s) + [Tag("endraw")] + rest
  {
    hide Strip, WordOf;
    BareTags();
    if tokens[0] != Tag("endraw") {
      assert tokens[1..][0] == Tag("endraw");
      assert CollectRaw(tokens[1..]) == Some(("", tokens[1..][1..]));
      assert RawPiece(tokens[0]) + "" == tokens[0].s;
    }
  }

  /** A raw block printed: its tokens are those it was parsed from exactly when it is plain. */
  lemma {:induction false} CanonicalRawIff(tokens: seq<Token>)
    requires CollectRaw(tokens).Some?
    ensures var (s, rest) := CollectRaw(tokens).value;
            RawText(s) + [Tag("endraw")] + Canonical(rest) == tokens <==> PlainRaw(tokens) && Canonical(rest) == rest
  {
    hide CollectRaw, Canonical;
    var (s, rest) := CollectRaw(tokens).value;
    RawSuffix(tokens);
    CanonicalIsNoLonger(rest);
    if PlainRaw(tokens) {
      PlainRawCollects(tokens);
    }
    var front := RawText(s) + [Tag("endraw")];
    if front + Canonical(rest) == tokens {
      assert |front| == |tokens| - |rest|;
      assert Canonical(rest) == tokens[|front|..];
      assert tokens[..|front|] == front;
    }
  }

  lemma {:induction false} CanonicalIff(tokens: seq<Token>)
    ensures Canonical(tokens) == tokens <==> IsCanonical(tokens)
    decreases |tokens|
  {
    hide CollectRaw, WordOf, CanonicalTag, PlainRaw, RawText;
    if tokens != [] {
      var tail := tokens[1..];
      assert tokens == [tokens[0]] + tail;
      if tokens[0].Tag? && WordOf(tokens[0].s) == WRaw {
        if CollectRaw(tail).Some? {
          var (s, rest) := CollectRaw(tail).value;
          CanonicalIff(rest);
          CanonicalRawIff(tail);
          var printed := RawText(s) + [Tag("endraw")] + Canonical(rest);
          assert Canonical(tokens) == [Tag("raw")] + printed;
          assert Canonical(tokens)[1..] == printed;
        }
      } else {
        CanonicalIff(tail);
        assert Canonical(tokens)[1..] == Canonical(tail);
      }
    }
  }

  /** Printing what was parsed gives the very tokens back exactly when they were canonical already. */
  lemma PrintReturnsTokensIff(tokens: seq<Token>)
    requires ParseBlock(tokens, TopLevel).Ok?
    ensures Print(ParseBlock(tokens, TopLevel).value.nodes) == tokens <==> IsCanonical(tokens)
  {
    hide Print, Canonical, IsCanonical;
    ParseThenPrint(tokens);
    CanonicalIff(tokens);
  }

  /** Printing is injective: two well-formed trees with the same tokens are the same tree. */
  lemma PrintInjective(a: seq<Node>, b: seq<Node>)
    requires WellFormed(a) && WellFormed(b) && Print(a) == Print(b)
    ensures a == b
  {
    PrintThenParse(a);
    PrintThenParse(b);
  }
}
