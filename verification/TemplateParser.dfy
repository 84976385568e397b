/** The parser in the form the source has it: loops that advance an index and append to lists. */
module TemplateParser {
  import opened Prelude
  import opened TextUtil
  import opened Template

  /** A loop result (nodes, next index) says the same as the function's (nodes, remaining tokens). */
  ghost predicate SameBlock(
      r: Result<(seq<Node>, nat), ParseError>, spec: Result<Block, ParseError>, tokens: seq<Token>)
  {
    match r
    case Err(e) => spec == Err(e)
    case Ok((nodes, idx)) => idx <= |tokens| && spec == Ok(Block(nodes, tokens[idx..]))
  }

  lemma AppendNode(nodes: seq<Node>, node: Node, r: Result<Block, ParseError>)
    ensures PrependNodes(nodes, PrependNodes([node], r)) == PrependNodes(nodes + [node], r)
  {
    PrependTwice(nodes, [node], r);
  }

  /** _parse_block: always advances, and ends with the value of the specification. */
  method ParseBlockFrom(tokens: seq<Token>, start: nat, ends: Ends)
    returns (r: Result<(seq<Node>, nat), ParseError>)
    requires start <= |tokens|
    ensures SameBlock(r, ParseBlock(tokens[start..], ends), tokens)
    ensures r.Ok? ==> start <= r.value.1
    ensures r.Ok? && ends.TopLevel? ==> r.value.1 == |tokens|
    decreases |tokens| - start, 1
  {
    hide WordOf, Operand, MatchFor, CollectRaw, Strip;
    var nodes: seq<Node> := [];
    var idx := start;
    ghost var spec := ParseBlock(tokens[start..], ends);
    assert spec == PrependNodes([], spec) by {
      assert spec.Ok? ==> [] + spec.value.nodes == spec.value.nodes;
    }
    while idx < |tokens|
      invariant start <= idx <= |tokens|
      invariant spec == PrependNodes(nodes, ParseBlock(tokens[idx..], ends))
    {
      assert tokens[idx..][0] == tokens[idx] && tokens[idx..][1..] == tokens[idx + 1..];
      match tokens[idx] {
        case Text(s) =>
          AppendNode(nodes, TextNode(s), ParseBlock(tokens[idx + 1..], ends));
          nodes := nodes + [TextNode(s)];
          idx := idx + 1;
        case Output(s) =>
          AppendNode(nodes, OutputNode(s), ParseBlock(tokens[idx + 1..], ends));
          nodes := nodes + [OutputNode(s)];
          idx := idx + 1;
        case Tag(v) =>
          if ends.Stops(WordOf(v)) {
            assert nodes + [] == nodes;
            return Ok((nodes, idx));
          }
          var one := ParseTagFrom(tokens, idx);
          if one.Err? {
            return Err(one.error);
          }
          AppendNode(nodes, one.value.0, ParseBlock(tokens[one.value.1..], ends));
          nodes := nodes + [one.value.0];
          idx := one.value.1;
      }
    }
    if !ends.TopLevel? {
      return Err(MissingEndTag);
    }
    assert nodes + [] == nodes;
    return Ok((nodes, idx));
  }

  ghost predicate SameNode(
      r: Result<(Node, nat), ParseError>, spec: Result<(Node, seq<Token>), ParseError>, tokens: seq<Token>)
  {
    match r
    case Err(e) => spec == Err(e)
    case Ok((node, idx)) => idx <= |tokens| && spec == Ok((node, tokens[idx..]))
  }

  /** One pass of the block loop over a tag: the if, for and raw branches. */
  method ParseTagFrom(tokens: seq<Token>, start: nat) returns (r: Result<(Node, nat), ParseError>)
    requires start < |tokens| && tokens[start].Tag?
    ensures SameNode(r, ParseTag(tokens[start..]), tokens)
    ensures r.Ok? ==> start < r.value.1
    decreases |tokens| - start, 0
  {
    hide WordOf, Operand, MatchFor, CollectRaw, Strip, ParseBlock;
    var v := tokens[start].s;
    assert tokens[start..][0] == tokens[start] && tokens[start..][1..] == tokens[start + 1..];
    match WordOf(v) {
      case WIf =>
        if Operand(v) == "" {
          return Err(EmptyIf);
        }
        var body := ParseBlockFrom(tokens, start + 1, IfBody);
        if body.Err? {
          return Err(body.error);
        }
        r := ParseIfTail(tokens, body.value.1, Branch(Operand(v), body.value.0));
      case WFor =>
        var parts := MatchFor(Operand(v));
        if parts.None? {
          return Err(MalformedFor(v));
        }
        var body := ParseBlockFrom(tokens, start + 1, ForBody);
        if body.Err? {
          return Err(body.error);
        }
        assert tokens[body.value.1..][1..] == tokens[body.value.1 + 1..];
        r := Ok((ForNode(parts.value.loopVar, parts.value.iterable, body.value.0), body.value.1 + 1));
      case WRaw =>
        r := ParseRawFrom(tokens, start + 1);
      case _ =>
        r := Err(UnknownTag(v));
    }
  }

  ghost function IfSpec(first: Branch, tail: Result<Branches, ParseError>): Result<(Node, seq<Token>), ParseError> {
    if tail.Err? then Err(tail.error)
    else Ok((IfNode([first] + tail.value.branches, tail.value.elseBody), tail.value.rest))
  }

  /** The loop over the elsif, else and endif tags of one if. */
  method ParseIfTail(tokens: seq<Token>, start: nat, first: Branch) returns (r: Result<(Node, nat), ParseError>)
    requires start < |tokens| && tokens[start].Tag? && IfBody.Stops(WordOf(tokens[start].s))
    ensures SameNode(r, IfSpec(first, ParseBranches(tokens[start..])), tokens)
    ensures r.Ok? ==> start < r.value.1
    decreases |tokens| - start, 1
  {
    hide WordOf, Operand, MatchFor, CollectRaw, Strip, ParseBlock;
    var branches: seq<Branch> := [first];
    var elseBody: Else := NoElse;
    var idx := start;
    ghost var spec := ParseBranches(tokens[start..]);
    ghost var more: seq<Branch> := [];
    assert spec == PrependBranches([], spec) by {
      assert spec.Ok? ==> [] + spec.value.branches == spec.value.branches;
    }
    while true
      invariant start <= idx < |tokens| && tokens[idx].Tag?
      invariant branches == [first] + more
      invariant elseBody.NoElse? ==>
                  IfBody.Stops(WordOf(tokens[idx].s)) && spec == PrependBranches(more, ParseBranches(tokens[idx..]))
      invariant elseBody.Else? ==>
                  WordOf(tokens[idx].s) == WEndIf && spec == Ok(Branches(more, elseBody, tokens[idx + 1..]))
      decreases |tokens| - idx
    {
      var v := tokens[idx].s;
      assert tokens[idx..][0] == tokens[idx] && tokens[idx..][1..] == tokens[idx + 1..];
      if WordOf(v) == WElsif {
        if Operand(v) == "" {
          return Err(EmptyElsif);
        }
        var body := ParseBlockFrom(tokens, idx + 1, IfBody);
        if body.Err? {
          return Err(body.error);
        }
        var b := Branch(Operand(v), body.value.0);
        AppendBranch(more, b, ParseBranches(tokens[body.value.1..]));
        branches := branches + [b];
        more := more + [b];
        idx := body.value.1;
      } else if WordOf(v) == WElse {
        var body := ParseBlockFrom(tokens, idx + 1, ElseBody);
        if body.Err? {
          return Err(body.error);
        }
        assert more + [] == more;
        assert tokens[body.value.1..][1..] == tokens[body.value.1 + 1..];
        elseBody := Else(body.value.0);
        idx := body.value.1;
      } else {
        assert more + [] == more;
        return Ok((IfNode(branches, elseBody), idx + 1));
      }
    }
  }

  lemma AppendBranch(branches: seq<Branch>, b: Branch, r: Result<Branches, ParseError>)
    ensures PrependBranches(branches, PrependBranches([b], r)) == PrependBranches(branches + [b], r)
  {
    if r.Ok? {
      assert branches + ([b] + r.value.branches) == (branches + [b]) + r.value.branches;
    }
  }

  ghost function RawSpec(raw: Option<(string, seq<Token>)>): Result<(Node, seq<Token>), ParseError> {
    if raw.None? then Err(UnterminatedRaw) else Ok((RawNode(raw.value.0), raw.value.1))
  }

  /** The loop that gathers a raw block until its end tag. */
  method ParseRawFrom(tokens: seq<Token>, start: nat) returns (r: Result<(Node, nat), ParseError>)
    requires start <= |tokens|
    ensures SameNode(r, RawSpec(CollectRaw(tokens[start..])), tokens)
    ensures r.Ok? ==> start < r.value.1
  {
    hide Strip, RawPiece;
    var buf := "";
    var idx := start;
    ghost var spec := CollectRaw(tokens[start..]);
    assert spec.Some? ==> buf + spec.value.0 == spec.value.0;
    while idx < |tokens|
      invariant start <= idx <= |tokens|
      invariant var more := CollectRaw(tokens[idx..]);
                if more.None? then spec.None? else spec == Some((buf + more.value.0, more.value.1))
    {
      assert tokens[idx..][0] == tokens[idx] && tokens[idx..][1..] == tokens[idx + 1..];
      if tokens[idx].Tag? && Strip(tokens[idx].s) == "endraw" {
        assert buf + "" == buf;
        return Ok((RawNode(buf), idx + 1));
      }
      ghost var more := CollectRaw(tokens[idx + 1..]);
      assert more.Some? ==>
          buf + (RawPiece(tokens[idx]) + more.value.0) == (buf + RawPiece(tokens[idx])) + more.value.0;
      buf := buf + RawPiece(tokens[idx]);
      idx := idx + 1;
    }
    return Err(UnterminatedRaw);
  }
}
