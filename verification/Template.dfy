/**
 The strict template language of src/symphony/prompt.py: the block parser, a printer that serves
 as its specification, and the laws that the two undo each other.
 */
module Template {
  import opened Prelude
  import opened TextUtil

  /** One lexed token; outputs and tags carry their stripped contents. */
  datatype Token = Text(s: string) | Output(s: string) | Tag(s: string)

  datatype Else = NoElse | Else(body: seq<Node>)

  datatype Branch = Branch(cond: string, body: seq<Node>)

  datatype Node =
    | TextNode(text: string)
    | OutputNode(expr: string)
    | IfNode(branches: seq<Branch>, elseBody: Else)
    | ForNode(loopVar: string, iterable: string, body: seq<Node>)
    | RawNode(text: string)

  datatype ParseError =
    | EmptyIf
    | EmptyElsif
    | MalformedFor(tag: string)
    | UnterminatedRaw
    | UnknownTag(tag: string)
    | MissingEndTag

  datatype Block = Block(nodes: seq<Node>, rest: seq<Token>)
  datatype Branches = Branches(branches: seq<Branch>, elseBody: Else, rest: seq<Token>)

  /** The tag words the parser knows. */
  datatype Word = WIf | WElsif | WElse | WEndIf | WFor | WEndFor | WRaw | WOther

  /** Which body a block is: this fixes the end tags it stops at. */
  datatype Ends = TopLevel | IfBody | ElseBody | ForBody {
    predicate Stops(w: Word) {
      match this
      case TopLevel => false
      case IfBody => w == WElsif || w == WElse || w == WEndIf
      case ElseBody => w == WEndIf
      case ForBody => w == WEndFor
    }
  }

  // ---------------------------------------------------------------------------------------------
  // Tag contents
  // ---------------------------------------------------------------------------------------------

  /** The word a tag starts with: value.split(None, 1)[0]. */
  function WordOf(v: string): Word {
    var h := Head(v);
    if h == "if" then WIf
    else if h == "elsif" then WElsif
    else if h == "else" then WElse
    else if h == "endif" then WEndIf
    else if h == "for" then WFor
    else if h == "endfor" then WEndFor
    else if h == "raw" then WRaw
    else WOther
  }

  /** What follows the tag word: value[len(head):].strip(). */
  function Operand(v: string): string {
    Strip(v[|Head(v)|..])
  }

  predicate IsLetter(c: char) {
    'A' <= c <= 'Z' || 'a' <= c <= 'z' || c == '_'
  }

  predicate IsIdentChar(c: char) {
    IsLetter(c) || '0' <= c <= '9'
  }

  predicate IsIdent(s: string) {
    s != "" && IsLetter(s[0]) && forall i :: 0 <= i < |s| ==> IsIdentChar(s[i])
  }

  function IdentPrefix(s: string): (r: string)
    ensures |r| <= |s| && r == s[..|r|]
    ensures forall i :: 0 <= i < |r| ==> IsIdentChar(r[i])
  {
    if s == "" || !IsIdentChar(s[0]) then "" else [s[0]] + IdentPrefix(s[1..])
  }

  datatype ForParts = ForParts(loopVar: string, iterable: string)

  /**
   The match of the regex for "<ident> in <expr>" against a stripped operand: an identifier, white
   space, the word "in", white space, and an expression without a line feed.
   */
  function MatchFor(operand: string): Option<ForParts> {
    var name := IdentPrefix(operand);
    var tail := operand[|name|..];
    var afterName := LStrip(tail);
    if !IsIdent(name) || tail == afterName || !("in" <= afterName) then None
    else
      var gap := afterName[2..];
      var expr := LStrip(gap);
      if gap == expr || expr == "" || '\n' in expr then None
      else Some(ForParts(name, Strip(expr)))
  }

  // ---------------------------------------------------------------------------------------------
  // The parser as a function on the remaining tokens
  // ---------------------------------------------------------------------------------------------

  function PrependNodes(nodes: seq<Node>, r: Result<Block, ParseError>): Result<Block, ParseError> {
    if r.Ok? then Ok(Block(nodes + r.value.nodes, r.value.rest)) else r
  }

  function PrependBranches(branches: seq<Branch>, r: Result<Branches, ParseError>)
    : Result<Branches, ParseError>
  {
    if r.Ok? then Ok(r.value.(branches := branches + r.value.branches)) else r
  }

  /** The text of a raw block and what follows its end tag. */
  function CollectRaw(tokens: seq<Token>): (r: Option<(string, seq<Token>)>)
    ensures r.Some? ==> |r.value.1| < |tokens|
  {
    if tokens == [] then None
    else if tokens[0].Tag? && Strip(tokens[0].s) == "endraw" then Some(("", tokens[1..]))
    else
      var more := CollectRaw(tokens[1..]);
      if more.None? then None else Some((RawPiece(tokens[0]) + more.value.0, more.value.1))
  }

  function RawPiece(token: Token): string {
    match token
    case Text(s) => s
    case Output(s) => "{{" + s + "}}"
    case Tag(s) => "{%" + s + "%}"
  }

  /** A block up to, and not including, a tag that ends it; every token at top level. */
  function ParseBlock(tokens: seq<Token>, ends: Ends): (r: Result<Block, ParseError>)
    ensures r.Ok? ==> |r.value.rest| <= |tokens|
    ensures r.Ok? && ends.TopLevel? ==> r.value.rest == []
    ensures r.Ok? && !ends.TopLevel? ==> StartsWithTag(r.value.rest) && ends.Stops(WordOf(r.value.rest[0].s))
    decreases |tokens|, 1
  {
    if tokens == [] then
      if ends.TopLevel? then Ok(Block([], [])) else Err(MissingEndTag)
    else
      match tokens[0]
      case Text(s) => PrependNodes([TextNode(s)], ParseBlock(tokens[1..], ends))
      case Output(s) => PrependNodes([OutputNode(s)], ParseBlock(tokens[1..], ends))
      case Tag(v) =>
        if ends.Stops(WordOf(v)) then Ok(Block([], tokens))
        else
          var one := ParseTag(tokens);
          if one.Err? then Err(one.error)
          else PrependNodes([one.value.0], ParseBlock(one.value.1, ends))
  }

  predicate StartsWithTag(tokens: seq<Token>) {
    tokens != [] && tokens[0].Tag?
  }

  /** The node opened by the tag at the front of tokens, and the tokens after it. */
  function ParseTag(tokens: seq<Token>): (r: Result<(Node, seq<Token>), ParseError>)
    requires StartsWithTag(tokens)
    ensures r.Ok? ==> |r.value.1| < |tokens|
    decreases |tokens|, 0
  {
    var v := tokens[0].s;
    match WordOf(v)
    case WIf =>
      if Operand(v) == "" then Err(EmptyIf)
      else
        var body := ParseBlock(tokens[1..], IfBody);
        if body.Err? then Err(body.error)
        else
          var more := ParseBranches(body.value.rest);
          if more.Err? then Err(more.error)
          else
            var first := Branch(Operand(v), body.value.nodes);
            Ok((IfNode([first] + more.value.branches, more.value.elseBody), more.value.rest))
    case WFor =>
      var parts := MatchFor(Operand(v));
      if parts.None? then Err(MalformedFor(v))
      else
        var body := ParseBlock(tokens[1..], ForBody);
        if body.Err? then Err(body.error)
        else Ok((ForNode(parts.value.loopVar, parts.value.iterable, body.value.nodes), body.value.rest[1..]))
    case WRaw =>
      var raw := CollectRaw(tokens[1..]);
      if raw.None? then Err(UnterminatedRaw) else Ok((RawNode(raw.value.0), raw.value.1))
    case _ => Err(UnknownTag(v))
  }

  /** The elsif and else parts of an if, from the tag that ended the previous body. */
  function ParseBranches(tokens: seq<Token>): (r: Result<Branches, ParseError>)
    requires StartsWithTag(tokens) && IfBody.Stops(WordOf(tokens[0].s))
    ensures r.Ok? ==> |r.value.rest| < |tokens|
    decreases |tokens|, 0
  {
    var v := tokens[0].s;
    match WordOf(v)
    case WElsif =>
      if Operand(v) == "" then Err(EmptyElsif)
      else
        var body := ParseBlock(tokens[1..], IfBody);
        if body.Err? then Err(body.error)
        else PrependBranches([Branch(Operand(v), body.value.nodes)], ParseBranches(body.value.rest))
    case WElse =>
      var body := ParseBlock(tokens[1..], ElseBody);
      if body.Err? then Err(body.error)
      else Ok(Branches([], Else(body.value.nodes), body.value.rest[1..]))
    case WEndIf =>
      Ok(Branches([], NoElse, tokens[1..]))
  }

  // ---------------------------------------------------------------------------------------------
  // The printer
  // ---------------------------------------------------------------------------------------------

  function Print(nodes: seq<Node>): seq<Token> {
    if nodes == [] then [] else PrintNode(nodes[0]) + Print(nodes[1..])
  }

  function PrintNode(node: Node): seq<Token> {
    match node
    case TextNode(s) => [Text(s)]
    case OutputNode(e) => [Output(e)]
    case IfNode(branches, elseBody) =>
      if branches == [] then []
      else
        [Tag("if " + branches[0].cond)] + Print(branches[0].body) + PrintBranches(branches[1..]) + PrintElse(elseBody)
    case ForNode(x, xs, body) => [Tag("for " + x + " in " + xs)] + Print(body) + [Tag("endfor")]
    case RawNode(s) => [Tag("raw")] + RawText(s) + [Tag("endraw")]
  }

  function PrintBranches(branches: seq<Branch>): seq<Token> {
    if branches == [] then []
    else [Tag("elsif " + branches[0].cond)] + Print(branches[0].body) + PrintBranches(branches[1..])
  }

  function PrintElse(elseBody: Else): seq<Token> {
    if elseBody.NoElse? then [Tag("endif")]
    else [Tag("else")] + Print(elseBody.body) + [Tag("endif")]
  }

  function RawText(s: string): seq<Token> {
    if s == "" then [] else [Text(s)]
  }

  /** A condition or iterable that a tag can carry. */
  predicate GoodOperand(s: string) {
    s != "" && Stripped(s)
  }

  /** The trees that some template denotes. */
  predicate WellFormed(nodes: seq<Node>) {
    nodes == [] || (WellFormedNode(nodes[0]) && WellFormed(nodes[1..]))
  }

  predicate WellFormedNode(node: Node) {
    match node
    case IfNode(branches, elseBody) =>
      && branches != []
      && WellFormedBranches(branches)
      && WellFormedElse(elseBody)
    case ForNode(x, xs, body) => IsIdent(x) && GoodOperand(xs) && '\n' !in xs && WellFormed(body)
    case _ => true
  }

  predicate WellFormedElse(elseBody: Else) {
    elseBody.NoElse? || WellFormed(elseBody.body)
  }

  predicate WellFormedBranches(branches: seq<Branch>) {
    branches == [] ||
    (GoodOperand(branches[0].cond) && WellFormed(branches[0].body) && WellFormedBranches(branches[1..]))
  }

  // ---------------------------------------------------------------------------------------------
  // Printed tags are read back as written
  // ---------------------------------------------------------------------------------------------

  lemma WordTag(w: string, operand: string)
    requires w in {"if", "elsif", "for"}
    requires GoodOperand(operand)
    ensures Head(w + " " + operand) == w && Operand(w + " " + operand) == operand
  {
    var v := w + (" " + operand);
    assert v == w + " " + operand;
    HeadOfWord(w, " " + operand);
    assert v[|w|..] == " " + operand;
    StripLeadingSpace(operand);
  }

  lemma IfTag(cond: string)
    requires GoodOperand(cond)
    ensures WordOf("if " + cond) == WIf && Operand("if " + cond) == cond
    ensures WordOf("elsif " + cond) == WElsif && Operand("elsif " + cond) == cond
  {
    hide Head, Operand, Strip;
    WordTag("if", cond);
    WordTag("elsif", cond);
    assert "if " + cond == "if" + " " + cond;
    assert "elsif " + cond == "elsif" + " " + cond;
  }

  lemma BareWord(w: string)
    requires w in {"else", "endif", "endfor", "raw", "endraw"}
    ensures Head(w) == w && Strip(w) == w
  {
    HeadOfWord(w, "");
    assert w + "" == w;
    StripFixes(w);
  }

  lemma BareTags()
    ensures WordOf("else") == WElse && WordOf("endif") == WEndIf && WordOf("endfor") == WEndFor
    ensures WordOf("raw") == WRaw && Strip("endraw") == "endraw"
  {
    hide Head, Strip;
    BareWord("else");
    BareWord("endif");
    BareWord("endfor");
    BareWord("raw");
    BareWord("endraw");
  }

  lemma {:induction false} IdentPrefixOf(x: string, rest: string)
    requires forall i :: 0 <= i < |x| ==> IsIdentChar(x[i])
    requires rest == "" || !IsIdentChar(rest[0])
    ensures IdentPrefix(x + rest) == x
  {
    hide IsIdentChar;
    if x == "" {
      assert x + rest == rest;
    } else {
      var y := x[1..];
      assert (x + rest)[1..] == y + rest;
      assert forall i :: 0 <= i < |y| ==> y[i] == x[i + 1];
      IdentPrefixOf(y, rest);
      assert [x[0]] + y == x;
    }
  }

  lemma SpacedOut(s: string)
    requires s != "" && !IsSpace(s[0])
    ensures LStrip(" " + s) == s
  {
    assert (" " + s)[1..] == s;
  }

  lemma ForReads(operand: string, x: string, xs: string)
    requires IsIdent(x) && IdentPrefix(operand) == x && operand[|x|..] == " in " + xs
    requires LStrip(" in " + xs) == "in " + xs && LStrip(" " + xs) == xs && Strip(xs) == xs
    requires xs != "" && '\n' !in xs
    ensures MatchFor(operand) == Some(ForParts(x, xs))
  {
    hide LStrip, IdentPrefix, Strip, IsIdent;
    assert ("in " + xs)[2..] == " " + xs;
    assert (" " + xs)[0] == ' ' && xs != " " + xs;
    assert " in " + xs != "in " + xs by {
      assert |" in " + xs| != |"in " + xs|;
    }
    assert "in" <= "in " + xs;
  }

  lemma ForOperand(x: string, xs: string)
    requires IsIdent(x) && GoodOperand(xs) && '\n' !in xs
    ensures MatchFor(x + " in " + xs) == Some(ForParts(x, xs))
  {
    hide LStrip, IdentPrefix, Strip, MatchFor;
    assert x + (" in " + xs) == x + " in " + xs;
    IdentPrefixOf(x, " in " + xs);
    assert (x + " in " + xs)[|x|..] == " in " + xs;
    assert " " + ("in " + xs) == " in " + xs;
    SpacedOut("in " + xs);
    SpacedOut(xs);
    StripFixes(xs);
    ForReads(x + " in " + xs, x, xs);
  }

  lemma ForTag(x: string, xs: string)
    requires IsIdent(x) && GoodOperand(xs) && '\n' !in xs
    ensures var v := "for " + x + " in " + xs; WordOf(v) == WFor && MatchFor(Operand(v)) == Some(ForParts(x, xs))
  {
    hide Head, Operand, MatchFor, Strip;
    var operand := x + " in " + xs;
    assert operand[0] == x[0] && operand[|operand| - 1] == xs[|xs| - 1];
    LettersAreNotSpace(x[0]);
    assert GoodOperand(operand);
    WordTag("for", operand);
    assert "for " + x + " in " + xs == "for" + " " + operand;
    ForOperand(x, xs);
  }

  lemma LettersAreNotSpace(c: char)
    requires IsLetter(c)
    ensures !IsSpace(c)
  {
  }

  // ---------------------------------------------------------------------------------------------
  // Parsing a printed tree gives the tree
  // ---------------------------------------------------------------------------------------------

  /** Whatever follows a printed tree, the parser reads the tree off the front and goes on from there. */
  lemma {:induction false} ParsePrinted(nodes: seq<Node>, after: seq<Token>, ends: Ends)
    requires WellFormed(nodes)
    ensures ParseBlock(Print(nodes) + after, ends) == PrependNodes(nodes, ParseBlock(after, ends))
    decreases nodes
  {
    hide WordOf, Operand, MatchFor, Strip;
    var r := ParseBlock(after, ends);
    if nodes == [] {
      assert Print(nodes) + after == after;
      assert r.Ok? ==> [] + r.value.nodes == r.value.nodes;
    } else {
      var more := Print(nodes[1..]) + after;
      assert Print(nodes) + after == PrintNode(nodes[0]) + more;
      ParsePrintedNode(nodes[0], more, ends);
      ParsePrinted(nodes[1..], after, ends);
      PrependTwice([nodes[0]], nodes[1..], r);
      assert [nodes[0]] + nodes[1..] == nodes;
    }
  }

  lemma PrependTwice(a: seq<Node>, b: seq<Node>, r: Result<Block, ParseError>)
    ensures PrependNodes(a, PrependNodes(b, r)) == PrependNodes(a + b, r)
  {
    if r.Ok? {
      assert a + (b + r.value.nodes) == (a + b) + r.value.nodes;
    }
  }

  lemma {:induction false} ParsePrintedNode(node: Node, after: seq<Token>, ends: Ends)
    requires WellFormedNode(node)
    ensures ParseBlock(PrintNode(node) + after, ends) == PrependNodes([node], ParseBlock(after, ends))
    decreases node
  {
    hide WordOf, Operand, MatchFor, Strip;
    var tokens := PrintNode(node) + after;
    if node.TextNode? || node.OutputNode? {
      assert tokens[1..] == after;
    } else {
      ParsePrintedTag(node, after);
      PrintedTagOpens(node);
      assert tokens[0] == PrintNode(node)[0];
    }
  }

  lemma PrintedTagOpens(node: Node)
    requires WellFormedNode(node) && !node.TextNode? && !node.OutputNode?
    ensures StartsWithTag(PrintNode(node)) && WordOf(PrintNode(node)[0].s) in {WIf, WFor, WRaw}
  {
    hide WordOf, Operand, MatchFor, Strip, Print, PrintBranches, PrintElse;
    match node
    case IfNode(branches, _) => IfTag(branches[0].cond);
    case ForNode(x, xs, _) => ForTag(x, xs);
    case RawNode(_) => BareTags();
  }

  lemma {:induction false} ParsePrintedTag(node: Node, after: seq<Token>)
    requires WellFormedNode(node) && !node.TextNode? && !node.OutputNode?
    ensures StartsWithTag(PrintNode(node) + after)
    ensures ParseTag(PrintNode(node) + after) == Ok((node, after))
    decreases node, 1
  {
    hide *;
    match node
    case IfNode(_, _) => ParsePrintedIf(node, after);
    case ForNode(_, _, _) => ParsePrintedFor(node, after);
    case RawNode(s) => ParsePrintedRaw(s, after);
  }

  /** The printed if, cut where the parser cuts it. */
  lemma PrintedIf(node: Node, after: seq<Token>)
    requires node.IfNode? && node.branches != []
    ensures var b := node.branches[0];
            var tail := PrintBranches(node.branches[1..]) + (PrintElse(node.elseBody) + after);
            PrintNode(node) + after == [Tag("if " + b.cond)] + (Print(b.body) + tail)
  {
    hide Print, PrintBranches, PrintElse;
  }

  lemma PrintedElsif(branches: seq<Branch>, after: seq<Token>)
    requires branches != []
    ensures var b := branches[0];
            var tail := PrintBranches(branches[1..]) + after;
            PrintBranches(branches) + after == [Tag("elsif " + b.cond)] + (Print(b.body) + tail)
  {
    hide Print;
  }

  lemma {:induction false} ParsePrintedIf(node: Node, after: seq<Token>)
    requires WellFormedNode(node) && node.IfNode?
    ensures StartsWithTag(PrintNode(node) + after)
    ensures ParseTag(PrintNode(node) + after) == Ok((node, after))
    decreases node, 0
  {
    hide WordOf, Operand, MatchFor, CollectRaw, Print, PrintBranches, PrintElse, PrintNode;
    PrintedIf(node, after);
    var b := node.branches[0];
    IfTag(b.cond);
    var end := PrintElse(node.elseBody) + after;
    var tail := PrintBranches(node.branches[1..]) + end;
    var tokens := [Tag("if " + b.cond)] + (Print(b.body) + tail);
    assert tokens[1..] == Print(b.body) + tail;
    ParsePrintedElse(node.elseBody, after);
    ParsePrintedBranches(node.branches[1..], end);
    ParsePrinted(b.body, tail, IfBody);
    assert ParseBlock(tail, IfBody) == Ok(Block([], tail));
    assert b.body + [] == b.body;
    assert node.branches[1..] + [] == node.branches[1..];
    assert [Branch(b.cond, b.body)] + node.branches[1..] == node.branches;
  }

  lemma {:induction false} ParsePrintedFor(node: Node, after: seq<Token>)
    requires WellFormedNode(node) && node.ForNode?
    ensures StartsWithTag(PrintNode(node) + after)
    ensures ParseTag(PrintNode(node) + after) == Ok((node, after))
    decreases node, 0
  {
    hide WordOf, Operand, MatchFor, Strip, CollectRaw;
    ForTag(node.loopVar, node.iterable);
    BareTags();
    var tail := [Tag("endfor")] + after;
    var tokens := [Tag("for " + node.loopVar + " in " + node.iterable)] + (Print(node.body) + tail);
    assert PrintNode(node) + after == tokens;
    assert tokens[1..] == Print(node.body) + tail;
    ParsePrinted(node.body, tail, ForBody);
    assert tail[1..] == after;
    assert node.body + [] == node.body;
  }

  lemma ParsePrintedRaw(s: string, after: seq<Token>)
    ensures StartsWithTag(PrintNode(RawNode(s)) + after)
    ensures ParseTag(PrintNode(RawNode(s)) + after) == Ok((RawNode(s), after))
  {
    hide WordOf, Operand, MatchFor, Strip;
    BareTags();
    var tail := [Tag("endraw")] + after;
    var tokens := [Tag("raw")] + (RawText(s) + tail);
    assert PrintNode(RawNode(s)) + after == tokens;
    assert tokens[1..] == RawText(s) + tail;
    assert tail[1..] == after;
    assert CollectRaw(tail) == Some(("", after));
    if s == "" {
      assert RawText(s) + tail == tail;
    } else {
      assert (RawText(s) + tail)[1..] == tail;
      assert s + "" == s;
    }
  }

  lemma {:induction false} ParsePrintedElse(elseBody: Else, after: seq<Token>)
    requires WellFormedElse(elseBody)
    ensures var tokens := PrintElse(elseBody) + after;
            && StartsWithTag(tokens) && IfBody.Stops(WordOf(tokens[0].s))
            && ParseBranches(tokens) == Ok(Branches([], elseBody, after))
    decreases elseBody
  {
    hide WordOf, Operand, MatchFor, Strip;
    BareTags();
    var tokens := PrintElse(elseBody) + after;
    if elseBody.Else? {
      var tail := [Tag("endif")] + after;
      assert tokens[1..] == Print(elseBody.body) + tail;
      ParsePrinted(elseBody.body, tail, ElseBody);
      assert tail[1..] == after;
      assert elseBody.body + [] == elseBody.body;
    } else {
      assert tokens[1..] == after;
    }
  }

  lemma {:induction false} ParsePrintedElsif(b: Branch, tail: seq<Token>)
    requires GoodOperand(b.cond) && WellFormed(b.body)
    requires StartsWithTag(tail) && IfBody.Stops(WordOf(tail[0].s))
    ensures var tokens := [Tag("elsif " + b.cond)] + (Print(b.body) + tail);
            && IfBody.Stops(WordOf(tokens[0].s))
            && ParseBranches(tokens) == PrependBranches([b], ParseBranches(tail))
    decreases b, 0
  {
    hide WordOf, Operand, MatchFor, CollectRaw, Print;
    IfTag(b.cond);
    var tokens := [Tag("elsif " + b.cond)] + (Print(b.body) + tail);
    assert tokens[1..] == Print(b.body) + tail;
    ParsePrinted(b.body, tail, IfBody);
    assert ParseBlock(tail, IfBody) == Ok(Block([], tail));
    assert b.body + [] == b.body;
  }

  lemma {:induction false} ParsePrintedBranches(branches: seq<Branch>, after: seq<Token>)
    requires WellFormedBranches(branches)
    requires StartsWithTag(after) && IfBody.Stops(WordOf(after[0].s))
    ensures var tokens := PrintBranches(branches) + after;
            && StartsWithTag(tokens) && IfBody.Stops(WordOf(tokens[0].s))
            && ParseBranches(tokens) == PrependBranches(branches, ParseBranches(after))
    decreases branches
  {
    hide WordOf, Print, ParseBranches;
    var r := ParseBranches(after);
    if branches == [] {
      assert PrintBranches(branches) + after == after;
      assert r.Ok? ==> [] + r.value.branches == r.value.branches;
    } else {
      PrintedElsif(branches, after);
      ParsePrintedBranches(branches[1..], after);
      ParsePrintedElsif(branches[0], PrintBranches(branches[1..]) + after);
      if r.Ok? {
        assert [branches[0]] + (branches[1..] + r.value.branches) == branches + r.value.branches;
      }
    }
  }

  /** Every well-formed tree is what the parser makes of its printed tokens. */
  lemma PrintThenParse(nodes: seq<Node>)
    requires WellFormed(nodes)
    ensures ParseBlock(Print(nodes), TopLevel) == Ok(Block(nodes, []))
  {
    ParsePrinted(nodes, [], TopLevel);
    assert Print(nodes) + [] == Print(nodes);
    assert nodes + [] == nodes;
  }
}
