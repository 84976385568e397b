/**
 The rendering of src/symphony/prompt.py is strict: nothing undefined is ever
 read as empty.
 */
module RenderStrictness {
  import opened Prelude
  import opened TextUtil
  import opened Template
  import opened TemplateRender
  import opened RenderScopes
  import TemplateExpr

  /**
   Strictness: once a template renders, every further definition leaves its
   output alone; nothing undefined was read as empty.
   */
  ghost predicate Extends(a: Env, b: Env) {
    forall x :: x in a ==> x in b && b[x] == a[x]
  }

  lemma ValueStable(l: Language, token: string, a: Env, b: Env)
    requires Extends(a, b) && EvalValue(l, token, a).Ok?
    ensures EvalValue(l, token, b) == EvalValue(l, token, a)
  {
    hide Strip, FollowAll;
  }

  lemma {:induction false} ArgsStable(l: Language, args: seq<string>, a: Env, b: Env)
    requires Extends(a, b) && EvalArgs(l, args, a).Ok?
    ensures EvalArgs(l, args, b) == EvalArgs(l, args, a)
  {
    hide EvalValue, Extends;
    if |args| > 0 {
      ValueStable(l, args[0], a, b);
      ArgsStable(l, args[1..], a, b);
    }
  }

  lemma {:induction false} FiltersStable(l: Language, value: Value, segments: seq<string>, a: Env, b: Env)
    requires Extends(a, b) && ApplyFilters(l, value, segments, a).Ok?
    ensures ApplyFilters(l, value, segments, b) == ApplyFilters(l, value, segments, a)
    decreases |segments|
  {
    hide EvalArgs, TemplateExpr.ParseFilter;
    if |segments| > 0 {
      var f := TemplateExpr.ParseFilter(segments[0]);
      ArgsStable(l, f.args, a, b);
      var applied := l.filter(f.name, value, EvalArgs(l, f.args, a).value);
      FiltersStable(l, applied.value.value, segments[1..], a, b);
    }
  }

  lemma {:induction false} RenderIsStable(l: Language, nodes: seq<Node>, a: Env, b: Env)
    requires Extends(a, b) && Render(l, nodes, a).Ok?
    ensures Render(l, nodes, b) == Render(l, nodes, a)
    decreases nodes, 0
  {
    hide RenderNode;
    if |nodes| > 0 {
      NodeIsStable(l, nodes[0], a, b);
      RenderIsStable(l, nodes[1..], a, b);
    }
  }

  lemma {:induction false} NodeIsStable(l: Language, node: Node, a: Env, b: Env)
    requires Extends(a, b) && RenderNode(l, node, a).Ok?
    ensures RenderNode(l, node, b) == RenderNode(l, node, a)
    decreases node, 0
  {
    hide Render, RenderBranches, RenderItems, Items, ApplyFilters, TemplateExpr.SplitPipeline, EvalValue, Extends;
    match node {
      case TextNode(_) =>
      case RawNode(_) =>
      case OutputNode(expr) =>
        var parts := TemplateExpr.SplitPipeline(expr);
        PipelineNotEmpty(expr);
        ValueStable(l, parts[0], a, b);
        FiltersStable(l, EvalValue(l, parts[0], a).value, parts[1..], a, b);
      case IfNode(branches, elseBody) =>
        BranchesAreStable(l, branches, a, b);
        if RenderBranches(l, branches, a).None? && elseBody.Else? {
          RenderIsStable(l, elseBody.body, a, b);
        }
      case ForNode(loopVar, iterable, body) =>
        ValueStable(l, iterable, a, b);
        ItemsAreStable(l, body, loopVar, Items(EvalValue(l, iterable, a).value).value, a, b);
    }
  }

  lemma ConditionStable(l: Language, expr: string, a: Env, b: Env)
    requires Extends(a, b) && EvalCondition(l, expr, a).Ok?
    ensures EvalCondition(l, expr, b) == EvalCondition(l, expr, a)
  {
    hide ParseCondition, Truthy, EvalValue, Extends;
    match ParseCondition(expr) {
      case Compare(left, right, _) =>
        ValueStable(l, left, a, b);
        ValueStable(l, right, a, b);
      case Not(operand) => ValueStable(l, operand, a, b);
      case Plain(operand) => ValueStable(l, operand, a, b);
    }
  }

  lemma {:induction false} BranchesAreStable(l: Language, branches: seq<Branch>, a: Env, b: Env)
    requires Extends(a, b)
    requires RenderBranches(l, branches, a).Some? ==> RenderBranches(l, branches, a).value.Ok?
    ensures RenderBranches(l, branches, b) == RenderBranches(l, branches, a)
    decreases branches, 0
  {
    hide Render, EvalCondition, Extends;
    if |branches| > 0 {
      var holds := EvalCondition(l, branches[0].cond, a);
      ConditionStable(l, branches[0].cond, a, b);
      if holds.value {
        RenderIsStable(l, branches[0].body, a, b);
      } else {
        BranchesAreStable(l, branches[1..], a, b);
      }
    }
  }

  lemma {:induction false} ItemsAreStable(
      l: Language, body: seq<Node>, loopVar: string, items: seq<Value>, a: Env, b: Env)
    requires Extends(a, b) && RenderItems(l, body, loopVar, items, a).Ok?
    ensures RenderItems(l, body, loopVar, items, b) == RenderItems(l, body, loopVar, items, a)
    decreases body, |items| + 1
  {
    hide Render;
    if |items| > 0 {
      RenderIsStable(l, body, a[loopVar := items[0]], b[loopVar := items[0]]);
      ItemsAreStable(l, body, loopVar, items[1..], a, b);
    }
  }

  lemma UndefinedValueFails(l: Language, token: string, env: Env)
    requires !(TokenNames(l, token) <= env.Keys)
    ensures EvalValue(l, token, env) == Err(UnknownVariable)
  {
    hide Strip, FollowAll;
  }

  /**
   The other way round: rendering gets to an expression that names a variable nobody defined
   there. Only conditions up to the first that holds are looked at, then the branch it chooses;
   a loop body once per item, with the item bound.
   */
  ghost predicate MeetsUndefined(l: Language, nodes: seq<Node>, env: Env)
    decreases nodes, 0
  {
    |nodes| > 0 && (NodeMeetsUndefined(l, nodes[0], env) || MeetsUndefined(l, nodes[1..], env))
  }

  ghost predicate NodeMeetsUndefined(l: Language, node: Node, env: Env)
    decreases node, 0
  {
    match node
    case TextNode(_) => false
    case RawNode(_) => false
    case OutputNode(expr) => !(OutputNames(l, expr) <= env.Keys)
    case IfNode(branches, elseBody) =>
      || BranchesMeetUndefined(l, branches, env)
      || (RenderBranches(l, branches, env).None? && elseBody.Else? && MeetsUndefined(l, elseBody.body, env))
    case ForNode(loopVar, iterable, body) =>
      || !(TokenNames(l, iterable) <= env.Keys)
      || (var v := EvalValue(l, iterable, env);
          && v.Ok? && Items(v.value).Ok?
          && exists item :: item in Items(v.value).value && MeetsUndefined(l, body, env[loopVar := item]))
  }

  ghost predicate BranchesMeetUndefined(l: Language, branches: seq<Branch>, env: Env)
    decreases branches, 0
  {
    |branches| > 0 &&
    (|| !(ConditionNames(l, branches[0].cond) <= env.Keys)
     || (EvalCondition(l, branches[0].cond, env) == Ok(true) && MeetsUndefined(l, branches[0].body, env))
     || (EvalCondition(l, branches[0].cond, env) == Ok(false) && BranchesMeetUndefined(l, branches[1..], env)))
  }

  lemma {:induction false} ArgsDefined(l: Language, args: seq<string>, env: Env)
    requires EvalArgs(l, args, env).Ok?
    ensures ArgNames(l, args) <= env.Keys
  {
    hide EvalValue, TokenNames;
    if |args| > 0 {
      if !(TokenNames(l, args[0]) <= env.Keys) {
        UndefinedValueFails(l, args[0], env);
      }
      ArgsDefined(l, args[1..], env);
    }
  }

  lemma {:induction false} FiltersDefined(l: Language, value: Value, segments: seq<string>, env: Env)
    requires ApplyFilters(l, value, segments, env).Ok?
    ensures FilterNames(l, segments) <= env.Keys
    decreases |segments|
  {
    hide EvalArgs, ArgNames, TemplateExpr.ParseFilter;
    if |segments| > 0 {
      var f := TemplateExpr.ParseFilter(segments[0]);
      ArgsDefined(l, f.args, env);
      var applied := l.filter(f.name, value, EvalArgs(l, f.args, env).value);
      FiltersDefined(l, applied.value.value, segments[1..], env);
    }
  }

  lemma OutputDefined(l: Language, expr: string, env: Env)
    requires EvalOutput(l, expr, env).Ok?
    ensures OutputNames(l, expr) <= env.Keys
  {
    hide ApplyFilters, FilterNames, TemplateExpr.SplitPipeline, EvalValue, TokenNames;
    var parts := TemplateExpr.SplitPipeline(expr);
    PipelineNotEmpty(expr);
    if !(TokenNames(l, parts[0]) <= env.Keys) {
      UndefinedValueFails(l, parts[0], env);
    }
    FiltersDefined(l, EvalValue(l, parts[0], env).value, parts[1..], env);
  }

  lemma ConditionDefined(l: Language, expr: string, env: Env)
    requires EvalCondition(l, expr, env).Ok?
    ensures ConditionNames(l, expr) <= env.Keys
  {
    hide ParseCondition, Truthy, EvalValue, TokenNames;
    match ParseCondition(expr) {
      case Compare(left, right, _) =>
        if !(TokenNames(l, left) <= env.Keys) {
          UndefinedValueFails(l, left, env);
        }
        if !(TokenNames(l, right) <= env.Keys) {
          UndefinedValueFails(l, right, env);
        }
      case Not(operand) =>
        if !(TokenNames(l, operand) <= env.Keys) {
          UndefinedValueFails(l, operand, env);
        }
      case Plain(operand) =>
        if !(TokenNames(l, operand) <= env.Keys) {
          UndefinedValueFails(l, operand, env);
        }
    }
  }

  /**
   Strict: a template that gets to an undefined name does not render, however deep in branches
   and loops, and whether the name is an output's, a filter argument's, a condition's or a loop's.
   */
  lemma {:induction false} UndefinedNameFails(l: Language, nodes: seq<Node>, env: Env)
    requires MeetsUndefined(l, nodes, env)
    ensures Render(l, nodes, env).Err?
    decreases nodes, 0
  {
    hide RenderNode, NodeMeetsUndefined;
    if NodeMeetsUndefined(l, nodes[0], env) {
      UndefinedNodeFails(l, nodes[0], env);
    } else {
      UndefinedNameFails(l, nodes[1..], env);
    }
  }

  lemma {:induction false} UndefinedNodeFails(l: Language, node: Node, env: Env)
    requires NodeMeetsUndefined(l, node, env)
    ensures RenderNode(l, node, env).Err?
    decreases node, 0
  {
    hide Render, RenderBranches, RenderItems, Items, EvalOutput, OutputNames, EvalValue, TokenNames, MeetsUndefined,
      BranchesMeetUndefined;
    match node {
      case TextNode(_) =>
      case RawNode(_) =>
      case OutputNode(expr) =>
        if EvalOutput(l, expr, env).Ok? {
          OutputDefined(l, expr, env);
        }
      case IfNode(branches, elseBody) =>
        if BranchesMeetUndefined(l, branches, env) {
          UndefinedBranchFails(l, branches, env);
        } else {
          UndefinedNameFails(l, elseBody.body, env);
        }
      case ForNode(loopVar, iterable, body) =>
        if !(TokenNames(l, iterable) <= env.Keys) {
          UndefinedValueFails(l, iterable, env);
        } else {
          var items := Items(EvalValue(l, iterable, env).value).value;
          var item :| item in items && MeetsUndefined(l, body, env[loopVar := item]);
          UndefinedItemFails(l, body, loopVar, items, item, env);
        }
    }
  }

  lemma {:induction false} UndefinedBranchFails(l: Language, branches: seq<Branch>, env: Env)
    requires BranchesMeetUndefined(l, branches, env)
    ensures RenderBranches(l, branches, env).Some? && RenderBranches(l, branches, env).value.Err?
    decreases branches, 0
  {
    hide Render, EvalCondition, ConditionNames, MeetsUndefined;
    match EvalCondition(l, branches[0].cond, env) {
      case Err(_) =>
      case Ok(holds) =>
        ConditionDefined(l, branches[0].cond, env);
        if holds {
          UndefinedNameFails(l, branches[0].body, env);
        } else {
          UndefinedBranchFails(l, branches[1..], env);
        }
    }
  }

  lemma {:induction false} UndefinedItemFails(
      l: Language, body: seq<Node>, loopVar: string, items: seq<Value>, item: Value, env: Env)
    requires item in items && MeetsUndefined(l, body, env[loopVar := item])
    ensures RenderItems(l, body, loopVar, items, env).Err?
    decreases body, |items| + 1
  {
    hide Render, MeetsUndefined;
    if item == items[0] {
      UndefinedNameFails(l, body, env[loopVar := item]);
    } else {
      UndefinedItemFails(l, body, loopVar, items[1..], item, env);
    }
  }

  /** In particular an output that starts from an undefined variable, whatever stands around it. */
  lemma UndefinedOutputFails(l: Language, before: seq<Node>, expr: string, after: seq<Node>, env: Env)
    requires !(TokenNames(l, TemplateExpr.SplitPipeline(expr)[0]) <= env.Keys)
    ensures Render(l, before + [OutputNode(expr)] + after, env).Err?
  {
    hide TemplateExpr.SplitPipeline, ApplyFilters, EvalValue, TokenNames, Render;
    PipelineNotEmpty(expr);
    UndefinedValueFails(l, TemplateExpr.SplitPipeline(expr)[0], env);
    var node := OutputNode(expr);
    var tail := [node] + after;
    assert RenderNode(l, node, env).Err?;
    RenderStep(l, tail, env);
    assert before + [node] + after == before + tail;
    RenderAppend(l, before, tail, env);
  }
}
