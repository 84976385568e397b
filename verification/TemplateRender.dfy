/**
 The strict evaluator of src/symphony/prompt.py: values, filters, conditions
 and the recursive rendering of a parsed template.

 How an operand token is read, what a filter computes, and how values compare
 and print are parameters; the names and their scopes, the order of evaluation and the
 choice of branches are the evaluator's own.
 */
module TemplateRender {
  import opened Prelude
  import opened TextUtil
  import opened Template
  import TemplateExpr

  /** A dictionary keeps its entries in order. */
  datatype Value =
    | Nil
    | Flag(b: bool)
    | Number(n: int)
    | Str(s: string)
    | List(items: seq<Value>)
    | Dict(entries: seq<(string, Value)>)

  type Env = map<string, Value>

  datatype Access = Attribute(name: string) | Index(n: nat)

  datatype Operand = Literal(value: Value) | Path(head: string, steps: seq<Access>) | NoOperand

  datatype RenderError = InvalidExpression | UnknownVariable | EmptyFilter | UnknownFilter | FilterFailed | NotIterable

  /** filter: None for a name that is not a filter, else what the filter does. */
  datatype Language = Language(
    operand: string -> Operand,
    filter: (string, Value, seq<Value>) -> Option<Result<Value, RenderError>>,
    equal: (Value, Value) -> bool,
    show: Value -> string)

  // ---------------------------------------------------------------------
  // Expressions
  // ---------------------------------------------------------------------

  function Entry(entries: seq<(string, Value)>, key: string): Option<Value> {
    if |entries| == 0 then None
    else if entries[0].0 == key then Some(entries[0].1)
    else Entry(entries[1..], key)
  }

  function Follow(v: Value, step: Access): Option<Value> {
    match step
    case Attribute(name) => if v.Dict? then Entry(v.entries, name) else None
    case Index(n) =>
      if v.List? && n < |v.items| then Some(v.items[n])
      else if v.Str? && n < |v.s| then Some(Str([v.s[n]]))
      else None
  }

  function FollowAll(v: Value, steps: seq<Access>): Option<Value>
    decreases |steps|
  {
    if |steps| == 0 then Some(v)
    else
      var next := Follow(v, steps[0]);
      if next.None? then None else FollowAll(next.value, steps[1..])
  }

  /** A missing name or step is an error, never an empty value. */
  function EvalValue(l: Language, token: string, env: Env): Result<Value, RenderError> {
    match l.operand(Strip(token))
    case Literal(v) => Ok(v)
    case NoOperand => Err(InvalidExpression)
    case Path(head, steps) =>
      if head !in env then Err(UnknownVariable)
      else
        var v := FollowAll(env[head], steps);
        if v.None? then Err(UnknownVariable) else Ok(v.value)
  }

  function EvalArgs(l: Language, args: seq<string>, env: Env): Result<seq<Value>, RenderError> {
    if |args| == 0 then Ok([])
    else
      var first :- EvalValue(l, args[0], env);
      var rest :- EvalArgs(l, args[1..], env);
      Ok([first] + rest)
  }

  function ApplyFilters(l: Language, value: Value, segments: seq<string>, env: Env): Result<Value, RenderError>
    decreases |segments|
  {
    if |segments| == 0 then Ok(value)
    else if segments[0] == "" then Err(EmptyFilter)
    else
      var f := TemplateExpr.ParseFilter(segments[0]);
      var args :- EvalArgs(l, f.args, env);
      var applied := l.filter(f.name, value, args);
      if applied.None? then Err(UnknownFilter)
      else
        var next :- applied.value;
        ApplyFilters(l, next, segments[1..], env)
  }

  function EvalOutput(l: Language, expr: string, env: Env): Result<Value, RenderError> {
    var parts := TemplateExpr.SplitPipeline(expr);
    var value :- EvalValue(l, parts[0], env);
    ApplyFilters(l, value, parts[1..], env)
  }

  predicate Truthy(v: Value) {
    match v
    case Nil => false
    case Flag(b) => b
    case Number(n) => n != 0
    case Str(s) => s != ""
    case List(items) => items != []
    case Dict(entries) => entries != []
  }

  datatype Condition = Compare(left: string, right: string, equal: bool) | Not(operand: string) | Plain(operand: string)

  /** The first occurrence of a four-character operator. */
  function FindOperator(s: string, op: string): (r: Option<nat>)
    ensures r.Some? ==> r.value + |op| <= |s|
  {
    if |op| > |s| then None
    else if op <= s then Some(0)
    else
      var later := FindOperator(s[1..], op);
      if later.None? then None else Some(later.value + 1)
  }

  /** `==` anywhere is looked for before `!=`, and both before a leading `!`. */
  function ParseCondition(expr: string): Condition {
    var s := Strip(expr);
    var eq, ne := FindOperator(s, " == "), FindOperator(s, " != ");
    if eq.Some? then Compare(s[..eq.value], s[eq.value + 4..], true)
    else if ne.Some? then Compare(s[..ne.value], s[ne.value + 4..], false)
    else if s != "" && s[0] == '!' then Not(s[1..])
    else Plain(s)
  }

  function EvalCondition(l: Language, expr: string, env: Env): Result<bool, RenderError> {
    match ParseCondition(expr)
    case Compare(left, right, equal) =>
      var lv :- EvalValue(l, left, env);
      var rv :- EvalValue(l, right, env);
      Ok(l.equal(lv, rv) == equal)
    case Not(operand) =>
      var v :- EvalValue(l, operand, env);
      Ok(!Truthy(v))
    case Plain(operand) =>
      var v :- EvalValue(l, operand, env);
      Ok(Truthy(v))
  }

  /** What a for loop runs over: nothing for nil, pairs for a dictionary. */
  function Items(v: Value): Result<seq<Value>, RenderError> {
    match v
    case Nil => Ok([])
    case Dict(entries) =>
      Ok(seq(|entries|, i requires 0 <= i < |entries| => List([Str(entries[i].0), entries[i].1])))
    case List(items) => Ok(items)
    case _ => Err(NotIterable)
  }

  // ---------------------------------------------------------------------
  // Rendering
  // ---------------------------------------------------------------------

  type Rendered = Result<string, RenderError>

  function Then(a: Rendered, b: Rendered): Rendered {
    if a.Err? then a else if b.Err? then b else Ok(a.value + b.value)
  }

  function Render(l: Language, nodes: seq<Node>, env: Env): Rendered
    decreases nodes, 0
  {
    if |nodes| == 0 then Ok("") else Then(RenderNode(l, nodes[0], env), Render(l, nodes[1..], env))
  }

  function RenderNode(l: Language, node: Node, env: Env): Rendered
    decreases node, 0
  {
    match node
    case TextNode(text) => Ok(text)
    case RawNode(text) => Ok(text)
    case OutputNode(expr) =>
      var v :- EvalOutput(l, expr, env);
      Ok(if v.Nil? then "" else l.show(v))
    case IfNode(branches, elseBody) =>
      var chosen := RenderBranches(l, branches, env);
      if chosen.Some? then chosen.value
      else if elseBody.Else? then Render(l, elseBody.body, env)
      else Ok("")
    case ForNode(loopVar, iterable, body) =>
      var v :- EvalValue(l, iterable, env);
      var items :- Items(v);
      RenderItems(l, body, loopVar, items, env)
  }

  /** The first branch whose condition holds; None when there is none. */
  function RenderBranches(l: Language, branches: seq<Branch>, env: Env): Option<Rendered>
    decreases branches, 0
  {
    if |branches| == 0 then None
    else
      match EvalCondition(l, branches[0].cond, env)
      case Err(e) => Some(Err(e))
      case Ok(holds) =>
        if holds then Some(Render(l, branches[0].body, env)) else RenderBranches(l, branches[1..], env)
  }

  /** Each item is bound in a copy of the environment. */
  function RenderItems(l: Language, body: seq<Node>, loopVar: string, items: seq<Value>, env: Env): Rendered
    decreases body, |items| + 1
  {
    if |items| == 0 then Ok("")
    else Then(Render(l, body, env[loopVar := items[0]]), RenderItems(l, body, loopVar, items[1..], env))
  }

  // ---------------------------------------------------------------------
  // The loops
  // ---------------------------------------------------------------------

  method RenderNodes(l: Language, nodes: seq<Node>, env: Env) returns (r: Rendered)
    ensures r == Render(l, nodes, env)
    decreases nodes, 0
  {
    hide RenderNode, Render;
    var out := "";
    assert nodes[0..] == nodes;
    ThenFromStart(Render(l, nodes, env));
    for i := 0 to |nodes|
      invariant Render(l, nodes, env) == Then(Ok(out), Render(l, nodes[i..], env))
    {
      RenderStep(l, nodes[i..], env);
      assert nodes[i..][1..] == nodes[i + 1..];
      var piece := RenderOne(l, nodes[i], env);
      if piece.Err? { return piece; }
      ThenAppend(out, piece.value, Render(l, nodes[i + 1..], env));
      out := out + piece.value;
    }
    RenderNothing(l, env);
    assert nodes[|nodes|..] == [] && out + "" == out;
    return Ok(out);
  }

  method RenderOne(l: Language, node: Node, env: Env) returns (r: Rendered)
    ensures r == RenderNode(l, node, env)
    decreases node, 1
  {
    hide Render, RenderItems, RenderBranches, EvalOutput, EvalValue, Items;
    match node {
      case TextNode(text) => r := Ok(text);
      case RawNode(text) => r := Ok(text);
      case OutputNode(expr) =>
        var v := EvalOutput(l, expr, env);
        r := if v.Err? then Err(v.error) else Ok(if v.value.Nil? then "" else l.show(v.value));
      case IfNode(branches, elseBody) =>
        var chosen := ChooseBranch(l, branches, env);
        if chosen.Some? {
          r := chosen.value;
        } else if elseBody.Else? {
          r := RenderNodes(l, elseBody.body, env);
        } else {
          r := Ok("");
        }
      case ForNode(loopVar, iterable, body) =>
        var v := EvalValue(l, iterable, env);
        if v.Err? { return Err(v.error); }
        var items := Items(v.value);
        if items.Err? { return Err(items.error); }
        r := RepeatBody(l, body, loopVar, items.value, env);
    }
  }

  /** Conditions are evaluated in order, and none after the first that holds. */
  method ChooseBranch(l: Language, branches: seq<Branch>, env: Env) returns (r: Option<Rendered>)
    ensures r == RenderBranches(l, branches, env)
    decreases branches, 0
  {
    hide Render, EvalCondition;
    assert branches[0..] == branches;
    for i := 0 to |branches|
      invariant RenderBranches(l, branches, env) == RenderBranches(l, branches[i..], env)
    {
      assert branches[i..][1..] == branches[i + 1..];
      var holds := EvalCondition(l, branches[i].cond, env);
      if holds.Err? { return Some(Err(holds.error)); }
      if holds.value {
        var body := RenderNodes(l, branches[i].body, env);
        return Some(body);
      }
    }
    return None;
  }

  method RepeatBody(l: Language, body: seq<Node>, loopVar: string, items: seq<Value>, env: Env) returns (r: Rendered)
    ensures r == RenderItems(l, body, loopVar, items, env)
    decreases body, 1
  {
    hide Render;
    var out := "";
    assert items[0..] == items;
    ThenFromStart(RenderItems(l, body, loopVar, items, env));
    for i := 0 to |items|
      invariant RenderItems(l, body, loopVar, items, env)
             == Then(Ok(out), RenderItems(l, body, loopVar, items[i..], env))
    {
      assert items[i..][1..] == items[i + 1..];
      var piece := RenderNodes(l, body, env[loopVar := items[i]]);
      if piece.Err? { return piece; }
      ThenAppend(out, piece.value, RenderItems(l, body, loopVar, items[i + 1..], env));
      out := out + piece.value;
    }
    assert items[|items|..] == [] && out + "" == out;
    return Ok(out);
  }

  lemma ThenFromStart(r: Rendered)
    ensures Then(Ok(""), r) == r
  {
    if r.Ok? {
      assert "" + r.value == r.value;
    }
  }

  lemma RenderStep(l: Language, nodes: seq<Node>, env: Env)
    requires |nodes| > 0
    ensures Render(l, nodes, env) == Then(RenderNode(l, nodes[0], env), Render(l, nodes[1..], env))
  {
  }

  lemma RenderNothing(l: Language, env: Env)
    ensures Render(l, [], env) == Ok("")
  {
  }

  lemma ThenAppend(out: string, piece: string, rest: Rendered)
    ensures Then(Ok(out), Then(Ok(piece), rest)) == Then(Ok(out + piece), rest)
  {
    if rest.Ok? {
      assert out + (piece + rest.value) == out + piece + rest.value;
    }
  }
}
