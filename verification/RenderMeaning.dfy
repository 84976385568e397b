/**
 What the templates of src/symphony/prompt.py mean, told by relations: which value an expression
 stands for, when a condition holds, and which text a template gives. The evaluator computes exactly
 these.
 */
module RenderMeaning {
  import opened Prelude
  import opened TextUtil
  import opened Template
  import opened TemplateRender
  import TemplateExpr
  import TemplateLexer

  // ---------------------------------------------------------------------------------------------
  // Values
  // ---------------------------------------------------------------------------------------------

  /** The entry a key finds: the first with that name. */
  ghost predicate FindsEntry(entries: seq<(string, Value)>, key: string, i: nat) {
    i < |entries| && entries[i].0 == key && forall j :: 0 <= j < i ==> entries[j].0 != key
  }

  /** One step of a path: an attribute of a dictionary, an item of a list, a character of a string. */
  ghost predicate StepTo(v: Value, step: Access, w: Value) {
    match step
    case Attribute(name) => v.Dict? && exists i: nat :: FindsEntry(v.entries, name, i) && v.entries[i].1 == w
    case Index(n) =>
      || (v.List? && n < |v.items| && w == v.items[n])
      || (v.Str? && n < |v.s| && w == Str([v.s[n]]))
  }

  /** The values on the way, from the first to the last. */
  ghost predicate Walk(vs: seq<Value>, steps: seq<Access>) {
    |vs| == |steps| + 1 && forall i :: 0 <= i < |steps| ==> StepTo(vs[i], steps[i], vs[i + 1])
  }

  ghost predicate StandsFor(l: Language, token: string, env: Env, v: Value) {
    match l.operand(Strip(token))
    case Literal(w) => v == w
    case NoOperand => false
    case Path(head, steps) =>
      head in env && exists vs :: Walk(vs, steps) && vs[0] == env[head] && vs[|steps|] == v
  }

  lemma {:induction false} EntryFound(entries: seq<(string, Value)>, key: string)
    ensures var e := Entry(entries, key);
            && (e.None? ==> forall i :: 0 <= i < |entries| ==> entries[i].0 != key)
            && (e.Some? ==> exists i: nat :: FindsEntry(entries, key, i) && entries[i].1 == e.value)
  {
    if |entries| > 0 {
      if entries[0].0 == key {
        assert FindsEntry(entries, key, 0);
      } else {
        EntryFound(entries[1..], key);
        if Entry(entries[1..], key).Some? {
          var i: nat :| FindsEntry(entries[1..], key, i) && entries[1..][i].1 == Entry(entries[1..], key).value;
          assert forall j :: 0 < j <= i + 1 ==> entries[j] == entries[1..][j - 1];
          assert FindsEntry(entries, key, i + 1);
        } else {
          assert forall j :: 0 < j < |entries| ==> entries[j] == entries[1..][j - 1];
        }
      }
    }
  }

  lemma FollowMeans(v: Value, step: Access, w: Value)
    ensures Follow(v, step) == Some(w) <==> StepTo(v, step, w)
  {
    if step.Attribute? && v.Dict? {
      EntryFound(v.entries, step.name);
      forall i: nat, j: nat | FindsEntry(v.entries, step.name, i) && FindsEntry(v.entries, step.name, j)
        ensures i == j
      {
        assert !(i < j) && !(j < i);
      }
    }
  }

  lemma {:induction false} FollowAllWalks(v: Value, steps: seq<Access>)
    requires FollowAll(v, steps).Some?
    ensures exists vs :: Walk(vs, steps) && vs[0] == v && vs[|steps|] == FollowAll(v, steps).value
    decreases |steps|
  {
    hide StepTo, Follow;
    if |steps| == 0 {
      assert Walk([v], steps);
    } else {
      var next := Follow(v, steps[0]).value;
      FollowMeans(v, steps[0], next);
      FollowAllWalks(next, steps[1..]);
      var rest :| Walk(rest, steps[1..]) && rest[0] == next && rest[|steps| - 1] == FollowAll(v, steps).value;
      var vs := [v] + rest;
      forall i | 0 <= i < |steps| ensures StepTo(vs[i], steps[i], vs[i + 1]) {
        if i > 0 {
          assert StepTo(rest[i - 1], steps[1..][i - 1], rest[i - 1 + 1]);
        }
      }
      assert Walk(vs, steps);
    }
  }

  lemma {:induction false} WalkFollows(vs: seq<Value>, steps: seq<Access>)
    requires Walk(vs, steps)
    ensures FollowAll(vs[0], steps) == Some(vs[|steps|])
    decreases |steps|
  {
    hide StepTo, Follow;
    if |steps| > 0 {
      FollowMeans(vs[0], steps[0], vs[0 + 1]);
      forall i | 0 <= i < |steps[1..]| ensures StepTo(vs[1..][i], steps[1..][i], vs[1..][i + 1]) {
        assert StepTo(vs[i + 1], steps[i + 1], vs[i + 1 + 1]);
      }
      WalkFollows(vs[1..], steps[1..]);
    }
  }

  lemma ValueMeans(l: Language, token: string, env: Env, v: Value)
    ensures EvalValue(l, token, env) == Ok(v) <==> StandsFor(l, token, env, v)
  {
    hide Strip, FollowAll, Walk;
    var o := l.operand(Strip(token));
    if o.Path? && o.head in env {
      if FollowAll(env[o.head], o.steps).Some? {
        FollowAllWalks(env[o.head], o.steps);
      }
      forall vs | Walk(vs, o.steps) ensures |vs| == |o.steps| + 1 && FollowAll(vs[0], o.steps) == Some(vs[|o.steps|]) {
        WalkFollows(vs, o.steps);
        WalkLength(vs, o.steps);
      }
    }
  }

  lemma WalkLength(vs: seq<Value>, steps: seq<Access>)
    requires Walk(vs, steps)
    ensures |vs| == |steps| + 1
  {
  }

  // ---------------------------------------------------------------------------------------------
  // Output expressions
  // ---------------------------------------------------------------------------------------------

  ghost predicate AllStandFor(l: Language, tokens: seq<string>, env: Env, vs: seq<Value>) {
    |vs| == |tokens| && forall i :: 0 <= i < |tokens| ==> StandsFor(l, tokens[i], env, vs[i])
  }

  /** One filter of a pipeline, with its arguments, takes one value to the next. */
  ghost predicate FilterTo(l: Language, segment: string, env: Env, v: Value, w: Value) {
    var f := TemplateExpr.ParseFilter(segment);
    segment != "" && exists args :: AllStandFor(l, f.args, env, args) && l.filter(f.name, v, args) == Some(Ok(w))
  }

  /** The values along a pipeline of filters, in the order they are written. */
  ghost predicate Piped(l: Language, segments: seq<string>, env: Env, vs: seq<Value>) {
    |vs| == |segments| + 1 && forall i :: 0 <= i < |segments| ==> FilterTo(l, segments[i], env, vs[i], vs[i + 1])
  }

  ghost predicate OutputGives(l: Language, expr: string, env: Env, v: Value) {
    var parts := TemplateExpr.SplitPipeline(expr);
    exists vs :: Piped(l, parts[1..], env, vs) && StandsFor(l, parts[0], env, vs[0]) && vs[|parts| - 1] == v
  }

  lemma {:induction false} ArgsMean(l: Language, tokens: seq<string>, env: Env, vs: seq<Value>)
    ensures EvalArgs(l, tokens, env) == Ok(vs) <==> AllStandFor(l, tokens, env, vs)
    decreases |tokens|
  {
    hide EvalValue, StandsFor;
    if |tokens| > 0 {
      var first, rest := EvalValue(l, tokens[0], env), EvalArgs(l, tokens[1..], env);
      if AllStandFor(l, tokens, env, vs) {
        assert forall i :: 0 <= i < |tokens[1..]| ==> tokens[1..][i] == tokens[i + 1] && vs[1..][i] == vs[i + 1];
        ArgsMean(l, tokens[1..], env, vs[1..]);
        ValueMeans(l, tokens[0], env, vs[0]);
        assert vs == [vs[0]] + vs[1..];
      } else if first.Ok? && rest.Ok? && vs == [first.value] + rest.value {
        ArgsMean(l, tokens[1..], env, rest.value);
        ValueMeans(l, tokens[0], env, first.value);
        AllStandCons(l, tokens, env, first.value, rest.value);
      }
    }
  }

  lemma AllStandCons(l: Language, tokens: seq<string>, env: Env, v: Value, rest: seq<Value>)
    requires |tokens| > 0 && StandsFor(l, tokens[0], env, v) && AllStandFor(l, tokens[1..], env, rest)
    ensures AllStandFor(l, tokens, env, [v] + rest)
  {
    hide StandsFor;
    var vs := [v] + rest;
    forall i | 0 <= i < |tokens| ensures StandsFor(l, tokens[i], env, vs[i]) {
      if i > 0 {
        assert StandsFor(l, tokens[1..][i - 1], env, rest[i - 1]);
      }
    }
  }

  /** What one segment does, as the evaluator computes it. */
  function Filtered(l: Language, v: Value, segment: string, env: Env): Result<Value, RenderError> {
    if segment == "" then Err(EmptyFilter)
    else
      var f := TemplateExpr.ParseFilter(segment);
      var args :- EvalArgs(l, f.args, env);
      var applied := l.filter(f.name, v, args);
      if applied.None? then Err(UnknownFilter) else applied.value
  }

  lemma FilteredMeans(l: Language, segment: string, env: Env, v: Value, w: Value)
    ensures Filtered(l, v, segment, env) == Ok(w) <==> FilterTo(l, segment, env, v, w)
  {
    hide EvalArgs, AllStandFor, TemplateExpr.ParseFilter;
    var tokens := TemplateExpr.ParseFilter(segment).args;
    forall args ensures EvalArgs(l, tokens, env) == Ok(args) <==> AllStandFor(l, tokens, env, args) {
      ArgsMean(l, tokens, env, args);
    }
    var args := EvalArgs(l, tokens, env);
    if args.Ok? {
      assert AllStandFor(l, tokens, env, args.value);
    }
  }

  lemma ApplyOne(l: Language, v: Value, segments: seq<string>, env: Env)
    requires |segments| > 0
    ensures var next := Filtered(l, v, segments[0], env);
            if next.Err? then ApplyFilters(l, v, segments, env).Err?
            else ApplyFilters(l, v, segments, env) == ApplyFilters(l, next.value, segments[1..], env)
  {
    hide EvalArgs, TemplateExpr.ParseFilter;
  }

  lemma {:induction false} FiltersPipe(l: Language, v: Value, segments: seq<string>, env: Env)
    requires ApplyFilters(l, v, segments, env).Ok?
    ensures exists vs :: Piped(l, segments, env, vs) && vs[0] == v
                           && vs[|segments|] == ApplyFilters(l, v, segments, env).value
    decreases |segments|
  {
    hide FilterTo, Filtered, ApplyFilters;
    if |segments| == 0 {
      ApplyNone(l, v, env);
      assert Piped(l, segments, env, [v]);
    } else {
      ApplyOne(l, v, segments, env);
      var next := Filtered(l, v, segments[0], env).value;
      FilteredMeans(l, segments[0], env, v, next);
      FiltersPipe(l, next, segments[1..], env);
      var rest :| Piped(l, segments[1..], env, rest) && rest[0] == next
                  && rest[|segments| - 1] == ApplyFilters(l, v, segments, env).value;
      var vs := [v] + rest;
      forall i | 0 <= i < |segments| ensures FilterTo(l, segments[i], env, vs[i], vs[i + 1]) {
        if i > 0 {
          assert FilterTo(l, segments[1..][i - 1], env, rest[i - 1], rest[i - 1 + 1]);
        }
      }
      assert Piped(l, segments, env, vs);
    }
  }

  lemma ApplyNone(l: Language, v: Value, env: Env)
    ensures ApplyFilters(l, v, [], env) == Ok(v)
  {
  }

  lemma {:induction false} PipeFilters(l: Language, vs: seq<Value>, segments: seq<string>, env: Env)
    requires Piped(l, segments, env, vs)
    ensures ApplyFilters(l, vs[0], segments, env) == Ok(vs[|segments|])
    decreases |segments|
  {
    hide FilterTo, Filtered, ApplyFilters;
    if |segments| == 0 {
      assert segments == [];
      ApplyNone(l, vs[0], env);
    } else {
      ApplyOne(l, vs[0], segments, env);
      FilteredMeans(l, segments[0], env, vs[0], vs[0 + 1]);
      forall i | 0 <= i < |segments[1..]| ensures FilterTo(l, segments[1..][i], env, vs[1..][i], vs[1..][i + 1]) {
        assert FilterTo(l, segments[i + 1], env, vs[i + 1], vs[i + 1 + 1]);
      }
      PipeFilters(l, vs[1..], segments[1..], env);
    }
  }

  lemma OutputMeans(l: Language, expr: string, env: Env, v: Value)
    ensures EvalOutput(l, expr, env) == Ok(v) <==> OutputGives(l, expr, env, v)
  {
    hide StandsFor, Piped, EvalValue, ApplyFilters, TemplateExpr.SplitPipeline;
    var parts := TemplateExpr.SplitPipeline(expr);
    AtLeastOnePart(expr);
    var first := EvalValue(l, parts[0], env);
    if EvalOutput(l, expr, env) == Ok(v) {
      ValueMeans(l, parts[0], env, first.value);
      FiltersPipe(l, first.value, parts[1..], env);
    }
    forall vs | Piped(l, parts[1..], env, vs)
      ensures |vs| == |parts|
      ensures StandsFor(l, parts[0], env, vs[0]) ==> EvalOutput(l, expr, env) == Ok(vs[|parts| - 1])
    {
      PipedLength(l, parts[1..], env, vs);
      ValueMeans(l, parts[0], env, vs[0]);
      PipeFilters(l, vs, parts[1..], env);
    }
  }

  lemma PipedLength(l: Language, segments: seq<string>, env: Env, vs: seq<Value>)
    requires Piped(l, segments, env, vs)
    ensures |vs| == |segments| + 1
  {
  }

  lemma AtLeastOnePart(expr: string)
    ensures |TemplateExpr.SplitPipeline(expr)| > 0
  {
  }

  // ---------------------------------------------------------------------------------------------
  // Conditions
  // ---------------------------------------------------------------------------------------------

  /** Everything but nil, false, zero and what is empty. */
  ghost predicate CountsAsTrue(v: Value) {
    v !in {Nil, Flag(false), Number(0), Str(""), List([]), Dict([])}
  }

  predicate OccursAt(s: string, op: string, i: nat) {
    i + |op| <= |s| && s[i..i + |op|] == op
  }

  ghost predicate FirstAt(s: string, op: string, i: nat) {
    OccursAt(s, op, i) && forall j: nat :: j < i ==> !OccursAt(s, op, j)
  }

  ghost predicate Occurs(s: string, op: string) {
    exists i: nat :: OccursAt(s, op, i)
  }

  /** Both sides stand for a value, and the values compare like this. */
  ghost predicate Compares(l: Language, left: string, right: string, env: Env, same: bool) {
    exists v, w :: StandsFor(l, left, env, v) && StandsFor(l, right, env, w) && l.equal(v, w) == same
  }

  ghost predicate IsTrue(l: Language, operand: string, env: Env, holds: bool) {
    exists v :: StandsFor(l, operand, env, v) && CountsAsTrue(v) == holds
  }

  /** The condition can be evaluated, and holds or not. */
  ghost predicate ConditionIs(l: Language, cond: string, env: Env, holds: bool) {
    var s := Strip(cond);
    if Occurs(s, " == ") then
      exists i: nat :: FirstAt(s, " == ", i) && Compares(l, s[..i], s[i + 4..], env, holds)
    else if Occurs(s, " != ") then
      exists i: nat :: FirstAt(s, " != ", i) && Compares(l, s[..i], s[i + 4..], env, !holds)
    else if s != "" && s[0] == '!' then IsTrue(l, s[1..], env, !holds)
    else IsTrue(l, s, env, holds)
  }

  lemma OccursBehind(s: string, op: string, i: nat)
    requires s != ""
    ensures OccursAt(s, op, i + 1) <==> OccursAt(s[1..], op, i)
  {
    if i + 1 + |op| <= |s| {
      assert s[1..][i..i + |op|] == s[i + 1..i + 1 + |op|];
    }
  }

  lemma OccursInFront(s: string, op: string)
    ensures op <= s <==> OccursAt(s, op, 0)
  {
    if |op| <= |s| {
      assert s[0..0 + |op|] == s[..|op|];
    }
  }

  lemma {:induction false} OperatorFound(s: string, op: string)
    requires |op| > 0
    ensures var r := FindOperator(s, op);
            if r.Some? then FirstAt(s, op, r.value) else !Occurs(s, op)
    decreases |s|
  {
    hide OccursAt;
    OccursInFront(s, op);
    if |op| > |s| {
      forall i: nat ensures !OccursAt(s, op, i) {
        TooLong(s, op, i);
      }
    } else if !(op <= s) {
      OperatorFound(s[1..], op);
      forall i: nat ensures OccursAt(s, op, i + 1) <==> OccursAt(s[1..], op, i) {
        OccursBehind(s, op, i);
      }
      forall i: nat | i > 0 ensures OccursAt(s, op, i) <==> OccursAt(s[1..], op, i - 1) {
        assert i - 1 + 1 == i;
      }
    }
  }

  lemma TooLong(s: string, op: string, i: nat)
    requires |op| > |s|
    ensures !OccursAt(s, op, i)
  {
  }

  lemma FirstIsUnique(s: string, op: string, i: nat, j: nat)
    requires FirstAt(s, op, i) && FirstAt(s, op, j)
    ensures i == j
  {
  }

  lemma TruthyMeans(v: Value)
    ensures Truthy(v) <==> CountsAsTrue(v)
  {
  }

  lemma IsTrueMeans(l: Language, operand: string, env: Env, holds: bool)
    ensures IsTrue(l, operand, env, holds)
       <==> EvalValue(l, operand, env).Ok? && Truthy(EvalValue(l, operand, env).value) == holds
  {
    hide EvalValue, StandsFor, Truthy, CountsAsTrue;
    forall v ensures EvalValue(l, operand, env) == Ok(v) <==> StandsFor(l, operand, env, v) {
      ValueMeans(l, operand, env, v);
      TruthyMeans(v);
    }
    var r := EvalValue(l, operand, env);
    if r.Ok? {
      TruthyMeans(r.value);
      assert StandsFor(l, operand, env, r.value);
    }
    if IsTrue(l, operand, env, holds) {
      var v :| StandsFor(l, operand, env, v) && CountsAsTrue(v) == holds;
      TruthyMeans(v);
    }
  }

  lemma ComparesMeans(l: Language, left: string, right: string, env: Env, same: bool)
    ensures var a, b := EvalValue(l, left, env), EvalValue(l, right, env);
            Compares(l, left, right, env, same) <==> a.Ok? && b.Ok? && l.equal(a.value, b.value) == same
  {
    hide EvalValue, StandsFor;
    forall v ensures EvalValue(l, left, env) == Ok(v) <==> StandsFor(l, left, env, v) {
      ValueMeans(l, left, env, v);
    }
    forall v ensures EvalValue(l, right, env) == Ok(v) <==> StandsFor(l, right, env, v) {
      ValueMeans(l, right, env, v);
    }
    var a, b := EvalValue(l, left, env), EvalValue(l, right, env);
    if a.Ok? && b.Ok? {
      assert StandsFor(l, left, env, a.value) && StandsFor(l, right, env, b.value);
    }
  }

  lemma ConditionMeans(l: Language, cond: string, env: Env, holds: bool)
    ensures EvalCondition(l, cond, env) == Ok(holds) <==> ConditionIs(l, cond, env, holds)
  {
    hide EvalValue, Truthy, Strip, Compares, IsTrue, Occurs, FindOperator, FirstAt;
    var s := Strip(cond);
    OperatorFound(s, " == ");
    OperatorFound(s, " != ");
    match ParseCondition(cond)
    case Compare(left, right, equal) =>
      ComparesMeans(l, left, right, env, holds == equal);
      FirstOnly(s, " == ");
      FirstOnly(s, " != ");
      FirstOccurs(s, " == ");
      FirstOccurs(s, " != ");
    case Not(operand) =>
      IsTrueMeans(l, operand, env, !holds);
      FirstOccurs(s, " == ");
      FirstOccurs(s, " != ");
    case Plain(operand) =>
      IsTrueMeans(l, operand, env, holds);
  }

  lemma FirstOnly(s: string, op: string)
    ensures forall i: nat, j: nat :: FirstAt(s, op, i) && FirstAt(s, op, j) ==> i == j
  {
    forall i: nat, j: nat | FirstAt(s, op, i) && FirstAt(s, op, j) ensures i == j {
      FirstIsUnique(s, op, i, j);
    }
  }

  lemma FirstOccurs(s: string, op: string)
    ensures forall i: nat :: FirstAt(s, op, i) ==> Occurs(s, op) && i + |op| <= |s|
  {
  }

  /** `a == b` and `a != b` are each other's opposite. */
  lemma UnequalIsNotEqual(l: Language, a: string, b: string, env: Env, holds: bool)
    requires Stripped(a + " == " + b) && Stripped(a + " != " + b)
    requires FirstAt(a + " == " + b, " == ", |a|)
    requires FirstAt(a + " != " + b, " != ", |a|) && !Occurs(a + " != " + b, " == ")
    ensures EvalCondition(l, a + " == " + b, env) == Ok(holds) <==> Compares(l, a, b, env, holds)
    ensures EvalCondition(l, a + " != " + b, env) == Ok(holds) <==> EvalCondition(l, a + " == " + b, env) == Ok(!holds)
  {
    hide EvalCondition, Strip, Stripped, Compares, IsTrue, Occurs, FirstAt;
    var s, t := a + " == " + b, a + " != " + b;
    StripFixes(s);
    StripFixes(t);
    ConditionMeans(l, s, env, holds);
    ConditionMeans(l, s, env, !holds);
    ConditionMeans(l, t, env, holds);
    FirstOnly(s, " == ");
    FirstOnly(t, " != ");
    FirstOccurs(s, " == ");
    FirstOccurs(t, " != ");
    assert s[..|a|] == a && s[|a| + 4..] == b;
    assert t[..|a|] == a && t[|a| + 4..] == b;
  }

  /** `!a` is the negation of `a`. */
  lemma BangNegates(l: Language, a: string, env: Env, holds: bool)
    requires Stripped("!" + a) && Stripped(a) && a != "" && a[0] != '!'
    requires !Occurs("!" + a, " == ") && !Occurs("!" + a, " != ")
    ensures EvalCondition(l, "!" + a, env) == Ok(holds) <==> EvalCondition(l, a, env) == Ok(!holds)
    ensures EvalCondition(l, a, env) == Ok(holds) <==> IsTrue(l, a, env, holds)
  {
    hide EvalCondition, Strip, Stripped, IsTrue, Occurs;
    StripFixes("!" + a);
    StripFixes(a);
    BehindBang(a, " == ");
    BehindBang(a, " != ");
    ConditionMeans(l, "!" + a, env, holds);
    ConditionMeans(l, a, env, holds);
    ConditionMeans(l, a, env, !holds);
    assert ("!" + a)[1..] == a;
  }

  lemma BehindBang(a: string, op: string)
    ensures Occurs(a, op) ==> Occurs("!" + a, op)
  {
    if i: nat :| OccursAt(a, op, i) {
      assert ("!" + a)[i + 1..i + 1 + |op|] == a[i..i + |op|];
      assert OccursAt("!" + a, op, i + 1);
    }
  }

  // ---------------------------------------------------------------------------------------------
  // Templates
  // ---------------------------------------------------------------------------------------------

  function Joined(pieces: seq<string>): string {
    if |pieces| == 0 then "" else pieces[0] + Joined(pieces[1..])
  }

  /** The items of a loop: none for nil, those of a list, and pairs of key and value of a dictionary. */
  ghost predicate RunsOver(v: Value, items: seq<Value>) {
    || (v == Nil && items == [])
    || (v.List? && items == v.items)
    || (v.Dict? && |items| == |v.entries|
        && forall i :: 0 <= i < |items| ==> items[i] == List([Str(v.entries[i].0), v.entries[i].1]))
  }

  /** Branch k is the first whose condition holds, and those before it can be evaluated and do not. */
  ghost predicate FirstTrue(l: Language, branches: seq<Branch>, env: Env, k: nat) {
    && k < |branches| && ConditionIs(l, branches[k].cond, env, true)
    && forall j :: 0 <= j < k ==> ConditionIs(l, branches[j].cond, env, false)
  }

  ghost predicate NoneTrue(l: Language, branches: seq<Branch>, env: Env) {
    forall j :: 0 <= j < |branches| ==> ConditionIs(l, branches[j].cond, env, false)
  }

  /** The text of a template: one piece for each node, in order. */
  ghost predicate Gives(l: Language, nodes: seq<Node>, env: Env, s: string)
    decreases nodes, 1
  {
    exists pieces :: Joined(pieces) == s && EachGives(l, nodes, env, pieces)
  }

  ghost predicate EachGives(l: Language, nodes: seq<Node>, env: Env, pieces: seq<string>)
    decreases nodes, 0
  {
    |pieces| == |nodes| && forall i :: 0 <= i < |nodes| ==> NodeGives(l, nodes[i], env, pieces[i])
  }

  /** One copy of the body for each item, in order, with the item bound. */
  ghost predicate Copies(
      l: Language, body: seq<Node>, loopVar: string, items: seq<Value>, env: Env, copies: seq<string>)
    decreases body, 2
  {
    |copies| == |items| && forall i :: 0 <= i < |items| ==> Gives(l, body, env[loopVar := items[i]], copies[i])
  }

  /**
   Text and raw text as they stand; a value as it is shown, nil as nothing; the body of the first branch
   that holds, or of else, or nothing; and the body once for each item, in order, with the item bound.
   */
  ghost predicate NodeGives(l: Language, node: Node, env: Env, s: string)
    decreases node, 0
  {
    match node
    case TextNode(text) => s == text
    case RawNode(text) => s == text
    case OutputNode(expr) => exists v :: OutputGives(l, expr, env, v) && s == if v == Nil then "" else l.show(v)
    case IfNode(branches, elseBody) =>
      || (exists k: nat :: FirstTrue(l, branches, env, k) && Gives(l, branches[k].body, env, s))
      || (NoneTrue(l, branches, env) && if elseBody.Else? then Gives(l, elseBody.body, env, s) else s == "")
    case ForNode(loopVar, iterable, body) =>
      exists v, items, copies ::
        && StandsFor(l, iterable, env, v) && RunsOver(v, items)
        && Joined(copies) == s && Copies(l, body, loopVar, items, env, copies)
  }

  lemma GivesNothing(l: Language, env: Env, s: string)
    ensures Gives(l, [], env, s) <==> s == ""
  {
    assert EachGives(l, [], env, []) && Joined([]) == "";
    assert forall pieces :: EachGives(l, [], env, pieces) ==> pieces == [];
  }

  /** The text of a template is that of its first node and that of the rest. */
  lemma GivesFirst(l: Language, nodes: seq<Node>, env: Env, s: string)
    requires |nodes| > 0
    ensures Gives(l, nodes, env, s)
       <==> exists p, q :: NodeGives(l, nodes[0], env, p) && Gives(l, nodes[1..], env, q) && s == p + q
  {
    hide NodeGives, EachGives;
    if Gives(l, nodes, env, s) {
      var pieces :| Joined(pieces) == s && EachGives(l, nodes, env, pieces);
      EachFirst(l, nodes, env, pieces);
      assert Gives(l, nodes[1..], env, Joined(pieces[1..]));
    }
    if p, q :| NodeGives(l, nodes[0], env, p) && Gives(l, nodes[1..], env, q) && s == p + q {
      var rest :| Joined(rest) == q && EachGives(l, nodes[1..], env, rest);
      var pieces := [p] + rest;
      assert pieces[0] == p && pieces[1..] == rest;
      EachFirst(l, nodes, env, pieces);
      assert Joined(pieces) == s;
    }
  }

  lemma EachFirst(l: Language, nodes: seq<Node>, env: Env, pieces: seq<string>)
    requires |nodes| > 0
    ensures EachGives(l, nodes, env, pieces)
       <==> |pieces| > 0 && NodeGives(l, nodes[0], env, pieces[0]) && EachGives(l, nodes[1..], env, pieces[1..])
  {
    hide NodeGives;
    assert forall i :: 0 < i < |nodes| ==> nodes[i] == nodes[1..][i - 1];
    assert forall i :: 0 < i < |pieces| ==> pieces[i] == pieces[1..][i - 1];
    if EachGives(l, nodes, env, pieces) {
      forall i | 0 <= i < |nodes[1..]| ensures NodeGives(l, nodes[1..][i], env, pieces[1..][i]) {
        assert NodeGives(l, nodes[i + 1], env, pieces[i + 1]);
      }
    }
  }

  /** The evaluator gives a text if and only if that is what the template means. */
  lemma {:induction false} RenderMeans(l: Language, nodes: seq<Node>, env: Env, s: string)
    ensures Render(l, nodes, env) == Ok(s) <==> Gives(l, nodes, env, s)
    decreases nodes, 1, 0
  {
    hide RenderNode, NodeGives, Gives;
    if |nodes| == 0 {
      GivesNothing(l, env, s);
      assert nodes == [];
    } else {
      forall p ensures RenderNode(l, nodes[0], env) == Ok(p) <==> NodeGives(l, nodes[0], env, p) {
        NodeMeans(l, nodes[0], env, p);
      }
      forall q ensures Render(l, nodes[1..], env) == Ok(q) <==> Gives(l, nodes[1..], env, q) {
        RenderMeans(l, nodes[1..], env, q);
      }
      GivesFirst(l, nodes, env, s);
      var first, rest := RenderNode(l, nodes[0], env), Render(l, nodes[1..], env);
      if first.Ok? && rest.Ok? {
        assert NodeGives(l, nodes[0], env, first.value) && Gives(l, nodes[1..], env, rest.value);
      }
    }
  }

  lemma {:induction false} NodeMeans(l: Language, node: Node, env: Env, s: string)
    ensures RenderNode(l, node, env) == Ok(s) <==> NodeGives(l, node, env, s)
    decreases node, 1, 0
  {
    hide EvalOutput, OutputGives, EvalValue, StandsFor, Render, Gives, RenderBranches, FirstTrue, NoneTrue, RenderItems;
    match node
    case TextNode(text) =>
    case RawNode(text) =>
    case OutputNode(expr) =>
      forall v ensures EvalOutput(l, expr, env) == Ok(v) <==> OutputGives(l, expr, env, v) {
        OutputMeans(l, expr, env, v);
      }
      var r := EvalOutput(l, expr, env);
      assert r.Ok? ==> OutputGives(l, expr, env, r.value);
    case IfNode(branches, elseBody) =>
      BranchesMean(l, branches, env, s);
      if elseBody.Else? {
        RenderMeans(l, elseBody.body, env, s);
      }
    case ForNode(loopVar, iterable, body) =>
      LoopMeans(l, node, env, s);
  }

  /** The first branch that holds, or none. */
  lemma {:induction false} BranchesMean(l: Language, branches: seq<Branch>, env: Env, s: string)
    ensures RenderBranches(l, branches, env) == Some(Ok(s))
       <==> exists k: nat :: FirstTrue(l, branches, env, k) && Gives(l, branches[k].body, env, s)
    ensures RenderBranches(l, branches, env) == None <==> NoneTrue(l, branches, env)
    decreases branches, 1, 0
  {
    hide EvalCondition, ConditionIs, Render, Gives;
    if |branches| > 0 {
      ConditionMeans(l, branches[0].cond, env, true);
      ConditionMeans(l, branches[0].cond, env, false);
      RenderMeans(l, branches[0].body, env, s);
      BranchesMean(l, branches[1..], env, s);
      LaterBranches(l, branches, env);
      var later := RenderBranches(l, branches[1..], env);
      if EvalCondition(l, branches[0].cond, env) == Ok(true) {
        assert FirstTrue(l, branches, env, 0);
        assert forall k: nat :: FirstTrue(l, branches, env, k) ==> k == 0;
      } else if EvalCondition(l, branches[0].cond, env) == Ok(false) {
        if later == Some(Ok(s)) {
          var k: nat :| FirstTrue(l, branches[1..], env, k) && Gives(l, branches[1..][k].body, env, s);
          assert FirstTrue(l, branches, env, k + 1) && branches[k + 1] == branches[1..][k];
        }
        if k: nat :| FirstTrue(l, branches, env, k) && Gives(l, branches[k].body, env, s) {
          assert k > 0 && FirstTrue(l, branches[1..], env, k - 1) && branches[k] == branches[1..][k - 1];
        }
      }
    }
  }

  lemma LaterBranches(l: Language, branches: seq<Branch>, env: Env)
    requires |branches| > 0
    ensures ConditionIs(l, branches[0].cond, env, false) ==>
              forall k: nat :: FirstTrue(l, branches[1..], env, k) <==> FirstTrue(l, branches, env, k + 1)
    ensures NoneTrue(l, branches, env) <==>
              ConditionIs(l, branches[0].cond, env, false) && NoneTrue(l, branches[1..], env)
  {
    hide ConditionIs;
    assert forall j :: 0 < j < |branches| ==> branches[j] == branches[1..][j - 1];
    if ConditionIs(l, branches[0].cond, env, false) {
      forall k: nat ensures FirstTrue(l, branches[1..], env, k) <==> FirstTrue(l, branches, env, k + 1) {
        if FirstTrue(l, branches, env, k + 1) {
          forall j | 0 <= j < k ensures ConditionIs(l, branches[1..][j].cond, env, false) {
            assert ConditionIs(l, branches[j + 1].cond, env, false);
          }
        }
      }
    }
    if NoneTrue(l, branches, env) {
      forall j | 0 <= j < |branches[1..]| ensures ConditionIs(l, branches[1..][j].cond, env, false) {
        assert ConditionIs(l, branches[j + 1].cond, env, false);
      }
    }
  }

  lemma ItemsMean(v: Value, items: seq<Value>)
    ensures Items(v) == Ok(items) <==> RunsOver(v, items)
  {
    if v.Dict? && RunsOver(v, items) {
      assert items == Items(v).value;
    }
  }

  lemma {:induction false} CopiesMean(
      l: Language, body: seq<Node>, loopVar: string, items: seq<Value>, env: Env, s: string)
    ensures RenderItems(l, body, loopVar, items, env) == Ok(s)
       <==> exists copies :: Joined(copies) == s && Copies(l, body, loopVar, items, env, copies)
    decreases body, 2, |items|
  {
    hide Render, Gives;
    if |items| == 0 {
      assert Joined([]) == "" && Copies(l, body, loopVar, items, env, []);
      assert forall copies :: Copies(l, body, loopVar, items, env, copies) ==> copies == [];
    } else {
      var inner := env[loopVar := items[0]];
      forall p ensures Render(l, body, inner) == Ok(p) <==> Gives(l, body, inner, p) {
        RenderMeans(l, body, inner, p);
      }
      forall q ensures RenderItems(l, body, loopVar, items[1..], env) == Ok(q)
                  <==> exists copies :: Joined(copies) == q && Copies(l, body, loopVar, items[1..], env, copies) {
        CopiesMean(l, body, loopVar, items[1..], env, q);
      }
      FirstCopy(l, body, loopVar, items, env);
      var first, rest := Render(l, body, inner), RenderItems(l, body, loopVar, items[1..], env);
      if first.Ok? && rest.Ok? && s == first.value + rest.value {
        var copies :| Joined(copies) == rest.value && Copies(l, body, loopVar, items[1..], env, copies);
        assert ([first.value] + copies)[0] == first.value && ([first.value] + copies)[1..] == copies;
        assert Copies(l, body, loopVar, items, env, [first.value] + copies);
        assert Joined([first.value] + copies) == s;
      }
      if copies :| Joined(copies) == s && Copies(l, body, loopVar, items, env, copies) {
        assert Copies(l, body, loopVar, items[1..], env, copies[1..]);
        assert rest == Ok(Joined(copies[1..])) && first == Ok(copies[0]);
      }
    }
  }

  lemma FirstCopy(l: Language, body: seq<Node>, loopVar: string, items: seq<Value>, env: Env)
    requires |items| > 0
    ensures forall copies :: |copies| > 0 ==>
              (Copies(l, body, loopVar, items, env, copies) <==>
                 Gives(l, body, env[loopVar := items[0]], copies[0])
                 && Copies(l, body, loopVar, items[1..], env, copies[1..]))
  {
    hide Gives;
    forall copies: seq<string> | |copies| > 0
      ensures Copies(l, body, loopVar, items, env, copies) <==>
                Gives(l, body, env[loopVar := items[0]], copies[0])
                && Copies(l, body, loopVar, items[1..], env, copies[1..])
    {
      assert forall i :: 0 < i < |items| ==> items[i] == items[1..][i - 1];
      assert forall i :: 0 < i < |copies| ==> copies[i] == copies[1..][i - 1];
      if Copies(l, body, loopVar, items, env, copies) {
        forall i | 0 <= i < |items[1..]| ensures Gives(l, body, env[loopVar := items[1..][i]], copies[1..][i]) {
          assert Gives(l, body, env[loopVar := items[i + 1]], copies[i + 1]);
        }
      }
    }
  }

  lemma {:induction false} LoopMeans(l: Language, node: Node, env: Env, s: string)
    requires node.ForNode?
    ensures RenderNode(l, node, env) == Ok(s) <==> NodeGives(l, node, env, s)
    decreases node, 0, 0
  {
    hide EvalValue, StandsFor, Render, Gives, RunsOver, Items;
    var r := EvalValue(l, node.iterable, env);
    if RenderNode(l, node, env) == Ok(s) {
      var items := Items(r.value).value;
      ValueMeans(l, node.iterable, env, r.value);
      ItemsMean(r.value, items);
      CopiesMean(l, node.body, node.loopVar, items, env, s);
      var copies :| Joined(copies) == s && Copies(l, node.body, node.loopVar, items, env, copies);
    }
    if NodeGives(l, node, env, s) {
      var v, items, copies :|
        && StandsFor(l, node.iterable, env, v) && RunsOver(v, items)
        && Joined(copies) == s && Copies(l, node.body, node.loopVar, items, env, copies);
      ValueMeans(l, node.iterable, env, v);
      ItemsMean(v, items);
      CopiesMean(l, node.body, node.loopVar, items, env, s);
      assert Copies(l, node.body, node.loopVar, items, env, copies);
    }
  }

  // ---------------------------------------------------------------------------------------------
  // Text without marks
  // ---------------------------------------------------------------------------------------------

  /** The lexer matches no output or tag anywhere. */
  ghost predicate NoMatch(text: string) {
    forall i :: 0 <= i <= |text| ==> TemplateLexer.MatchTag(text[i..]).None?
  }

  lemma {:induction false} LexedWhole(s: string, pending: string)
    requires NoMatch(s)
    ensures TemplateLexer.Lex(s, pending) == TemplateLexer.Flush(pending + s)
    decreases |s|
  {
    hide TemplateLexer.MatchTag, TemplateLexer.Flush;
    if s == "" {
      assert pending + s == pending;
    } else {
      assert s[0..] == s;
      forall i | 0 <= i <= |s[1..]| ensures TemplateLexer.MatchTag(s[1..][i..]).None? {
        assert s[1..][i..] == s[i + 1..];
      }
      LexedWhole(s[1..], pending + [s[0]]);
      assert pending + [s[0]] + s[1..] == pending + s;
    }
  }

  /** Of what a template text holds, only outputs and tags are ever read: the rest is the prompt. */
  lemma PlainTextRenders(l: Language, text: string, env: Env)
    requires NoMatch(text)
    ensures var parsed := ParseBlock(TemplateLexer.Lex(text, ""), TopLevel);
            && parsed.Ok? && parsed.value.rest == []
            && Render(l, parsed.value.nodes, env) == Ok(text)
  {
    hide TemplateLexer.Lex, Render, NodeGives, NoMatch;
    LexedWhole(text, "");
    assert "" + text == text;
    if text == "" {
      RenderMeans(l, [], env, text);
      GivesNothing(l, env, text);
    } else {
      assert [Text(text)][1..] == [];
      var nodes := [TextNode(text)];
      assert nodes[1..] == [] && WellFormed(nodes[1..]);
      PrintThenParse(nodes);
      assert Print(nodes) == [Text(text)] by { PrintedText(text); }
      RenderMeans(l, nodes, env, text);
      GivesFirst(l, nodes, env, text);
      assert nodes[1..] == [] && text + "" == text;
      GivesNothing(l, env, "");
      TextStays(l, text, env);
      assert Gives(l, nodes, env, text);
    }
  }

  lemma PrintedText(text: string)
    ensures Print([TextNode(text)]) == [Text(text)]
  {
    assert [TextNode(text)][1..] == [];
    assert Print([]) == [];
  }

  lemma TextStays(l: Language, text: string, env: Env)
    ensures NodeGives(l, TextNode(text), env, text)
  {
  }
}
