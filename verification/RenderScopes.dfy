/**
 What the rendering of src/symphony/prompt.py depends on: a template's pieces
 one after another, and its free names.
 */
module RenderScopes {
  import opened Prelude
  import opened TextUtil
  import opened Template
  import opened TemplateRender
  import TemplateExpr

  /**
   A template's pieces render one after another, in the same environment: what a
   loop binds is gone after it.
   */
  lemma {:induction false} RenderAppend(l: Language, a: seq<Node>, b: seq<Node>, env: Env)
    ensures Render(l, a + b, env) == Then(Render(l, a, env), Render(l, b, env))
  {
    hide RenderNode;
    if |a| == 0 {
      assert a + b == b;
      var r := Render(l, b, env);
      assert r.Ok? ==> "" + r.value == r.value;
    } else {
      assert (a + b)[0] == a[0] && (a + b)[1..] == a[1..] + b;
      RenderAppend(l, a[1..], b, env);
      ThenAssociative(RenderNode(l, a[0], env), Render(l, a[1..], env), Render(l, b, env));
    }
  }

  lemma ThenAssociative(a: Rendered, b: Rendered, c: Rendered)
    ensures Then(a, Then(b, c)) == Then(Then(a, b), c)
  {
    if a.Ok? && b.Ok? && c.Ok? {
      assert a.value + (b.value + c.value) == a.value + b.value + c.value;
    }
  }

  /** The names an expression looks up in the environment. */
  function TokenNames(l: Language, token: string): set<string> {
    match l.operand(Strip(token))
    case Path(head, _) => {head}
    case _ => {}
  }

  function ArgNames(l: Language, args: seq<string>): set<string> {
    if |args| == 0 then {} else TokenNames(l, args[0]) + ArgNames(l, args[1..])
  }

  function FilterNames(l: Language, segments: seq<string>): set<string> {
    if |segments| == 0 then {}
    else ArgNames(l, TemplateExpr.ParseFilter(segments[0]).args) + FilterNames(l, segments[1..])
  }

  function OutputNames(l: Language, expr: string): set<string> {
    var parts := TemplateExpr.SplitPipeline(expr);
    TokenNames(l, parts[0]) + FilterNames(l, parts[1..])
  }

  function ConditionNames(l: Language, expr: string): set<string> {
    match ParseCondition(expr)
    case Compare(left, right, _) => TokenNames(l, left) + TokenNames(l, right)
    case Not(operand) => TokenNames(l, operand)
    case Plain(operand) => TokenNames(l, operand)
  }

  /** The free names of a template: a loop binds its variable in its body. */
  function Names(l: Language, nodes: seq<Node>): set<string>
    decreases nodes, 0
  {
    if |nodes| == 0 then {} else NodeNames(l, nodes[0]) + Names(l, nodes[1..])
  }

  function NodeNames(l: Language, node: Node): set<string>
    decreases node, 0
  {
    match node
    case TextNode(_) => {}
    case RawNode(_) => {}
    case OutputNode(expr) => OutputNames(l, expr)
    case IfNode(branches, elseBody) =>
      BranchNames(l, branches) + if elseBody.Else? then Names(l, elseBody.body) else {}
    case ForNode(loopVar, iterable, body) => TokenNames(l, iterable) + (Names(l, body) - {loopVar})
  }

  function BranchNames(l: Language, branches: seq<Branch>): set<string>
    decreases branches, 0
  {
    if |branches| == 0 then {}
    else ConditionNames(l, branches[0].cond) + Names(l, branches[0].body) + BranchNames(l, branches[1..])
  }

  /** Environments that say the same about some names. */
  ghost predicate Agree(names: set<string>, a: Env, b: Env) {
    forall x :: x in names ==> (x in a <==> x in b) && (x in a ==> a[x] == b[x])
  }

  lemma PipelineNotEmpty(expr: string)
    ensures |TemplateExpr.SplitPipeline(expr)| > 0
  {
  }

  lemma ValueAgrees(l: Language, token: string, a: Env, b: Env)
    requires Agree(TokenNames(l, token), a, b)
    ensures EvalValue(l, token, a) == EvalValue(l, token, b)
  {
    hide Strip, FollowAll;
  }

  lemma AgreeOnPart(names: set<string>, part: set<string>, a: Env, b: Env)
    requires Agree(names, a, b) && part <= names
    ensures Agree(part, a, b)
  {
  }

  lemma {:induction false} ArgsAgree(l: Language, args: seq<string>, a: Env, b: Env)
    requires Agree(ArgNames(l, args), a, b)
    ensures EvalArgs(l, args, a) == EvalArgs(l, args, b)
  {
    hide EvalValue, TokenNames, Agree;
    if |args| > 0 {
      AgreeOnPart(ArgNames(l, args), TokenNames(l, args[0]), a, b);
      AgreeOnPart(ArgNames(l, args), ArgNames(l, args[1..]), a, b);
      ValueAgrees(l, args[0], a, b);
      ArgsAgree(l, args[1..], a, b);
    }
  }

  lemma {:induction false} FiltersAgree(l: Language, value: Value, segments: seq<string>, a: Env, b: Env)
    requires Agree(FilterNames(l, segments), a, b)
    ensures ApplyFilters(l, value, segments, a) == ApplyFilters(l, value, segments, b)
    decreases |segments|
  {
    hide EvalArgs, ArgNames, TemplateExpr.ParseFilter, Agree;
    if |segments| > 0 && segments[0] != "" {
      var f := TemplateExpr.ParseFilter(segments[0]);
      AgreeOnPart(FilterNames(l, segments), ArgNames(l, f.args), a, b);
      AgreeOnPart(FilterNames(l, segments), FilterNames(l, segments[1..]), a, b);
      ArgsAgree(l, f.args, a, b);
      var args := EvalArgs(l, f.args, a);
      if args.Ok? {
        var applied := l.filter(f.name, value, args.value);
        if applied.Some? && applied.value.Ok? {
          FiltersAgree(l, applied.value.value, segments[1..], a, b);
        }
      }
    }
  }

  lemma OutputAgrees(l: Language, expr: string, a: Env, b: Env)
    requires Agree(OutputNames(l, expr), a, b)
    ensures EvalOutput(l, expr, a) == EvalOutput(l, expr, b)
  {
    hide ApplyFilters, FilterNames, TemplateExpr.SplitPipeline, EvalValue, TokenNames, Agree;
    var parts := TemplateExpr.SplitPipeline(expr);
    PipelineNotEmpty(expr);
    AgreeOnPart(OutputNames(l, expr), TokenNames(l, parts[0]), a, b);
    AgreeOnPart(OutputNames(l, expr), FilterNames(l, parts[1..]), a, b);
    ValueAgrees(l, parts[0], a, b);
    var value := EvalValue(l, parts[0], a);
    if value.Ok? {
      FiltersAgree(l, value.value, parts[1..], a, b);
    }
  }

  lemma ConditionAgrees(l: Language, expr: string, a: Env, b: Env)
    requires Agree(ConditionNames(l, expr), a, b)
    ensures EvalCondition(l, expr, a) == EvalCondition(l, expr, b)
  {
    hide ParseCondition, Truthy, EvalValue, TokenNames, Agree;
    match ParseCondition(expr) {
      case Compare(left, right, _) =>
        AgreeOnPart(ConditionNames(l, expr), TokenNames(l, left), a, b);
        AgreeOnPart(ConditionNames(l, expr), TokenNames(l, right), a, b);
        ValueAgrees(l, left, a, b);
        ValueAgrees(l, right, a, b);
      case Not(operand) => ValueAgrees(l, operand, a, b);
      case Plain(operand) => ValueAgrees(l, operand, a, b);
    }
  }

  /**
   Rendering looks at a template's free names only, whatever else is defined:
   same output, same error.
   */
  lemma {:induction false} RenderAgrees(l: Language, nodes: seq<Node>, a: Env, b: Env)
    requires Agree(Names(l, nodes), a, b)
    ensures Render(l, nodes, a) == Render(l, nodes, b)
    decreases nodes, 0
  {
    hide RenderNode, NodeNames, Agree;
    if |nodes| > 0 {
      AgreeOnPart(Names(l, nodes), NodeNames(l, nodes[0]), a, b);
      AgreeOnPart(Names(l, nodes), Names(l, nodes[1..]), a, b);
      NodeAgrees(l, nodes[0], a, b);
      RenderAgrees(l, nodes[1..], a, b);
    }
  }

  lemma {:induction false} NodeAgrees(l: Language, node: Node, a: Env, b: Env)
    requires Agree(NodeNames(l, node), a, b)
    ensures RenderNode(l, node, a) == RenderNode(l, node, b)
    decreases node, 0
  {
    hide EvalOutput, OutputNames, Render, RenderBranches, RenderItems, Names, BranchNames, Items, EvalValue,
      TokenNames, Agree;
    match node {
      case TextNode(_) =>
      case RawNode(_) =>
      case OutputNode(expr) => OutputAgrees(l, expr, a, b);
      case IfNode(branches, elseBody) =>
        AgreeOnPart(NodeNames(l, node), BranchNames(l, branches), a, b);
        BranchesAgree(l, branches, a, b);
        if elseBody.Else? {
          AgreeOnPart(NodeNames(l, node), Names(l, elseBody.body), a, b);
          RenderAgrees(l, elseBody.body, a, b);
        }
      case ForNode(loopVar, iterable, body) =>
        AgreeOnPart(NodeNames(l, node), TokenNames(l, iterable), a, b);
        AgreeOnPart(NodeNames(l, node), Names(l, body) - {loopVar}, a, b);
        ValueAgrees(l, iterable, a, b);
        var v := EvalValue(l, iterable, a);
        if v.Ok? && Items(v.value).Ok? {
          ItemsAgree(l, body, loopVar, Items(v.value).value, a, b);
        }
    }
  }

  lemma {:induction false} BranchesAgree(l: Language, branches: seq<Branch>, a: Env, b: Env)
    requires Agree(BranchNames(l, branches), a, b)
    ensures RenderBranches(l, branches, a) == RenderBranches(l, branches, b)
    decreases branches, 0
  {
    hide EvalCondition, ConditionNames, Render, Names, Agree;
    if |branches| > 0 {
      AgreeOnPart(BranchNames(l, branches), ConditionNames(l, branches[0].cond), a, b);
      AgreeOnPart(BranchNames(l, branches), Names(l, branches[0].body), a, b);
      AgreeOnPart(BranchNames(l, branches), BranchNames(l, branches[1..]), a, b);
      ConditionAgrees(l, branches[0].cond, a, b);
      RenderAgrees(l, branches[0].body, a, b);
      BranchesAgree(l, branches[1..], a, b);
    }
  }

  lemma {:induction false} ItemsAgree(
      l: Language, body: seq<Node>, loopVar: string, items: seq<Value>, a: Env, b: Env)
    requires Agree(Names(l, body) - {loopVar}, a, b)
    ensures RenderItems(l, body, loopVar, items, a) == RenderItems(l, body, loopVar, items, b)
    decreases body, |items| + 1
  {
    hide Render, Names;
    if |items| > 0 {
      RenderAgrees(l, body, a[loopVar := items[0]], b[loopVar := items[0]]);
      ItemsAgree(l, body, loopVar, items[1..], a, b);
    }
  }
}
