/**
 * The corrected generator's code computes the reference semantics: for
 * every grammar whose names are well formed and every token stream, each
 * generated parse function returns exactly what `DenoteProduction` says, or
 * fails exactly as it says (the same parsing exception, or running out of
 * fuel at the same depth).
 *
 * Nested expressions are proved in continuation style: the code for `e`
 * followed by any `rest` behaves as delivering `e`'s value to the sink and
 * then running `rest`, in an environment that differs from the initial one
 * only in variables whose names start with the expression's own variable.
 */
module Correctness {
  import opened Wrappers
  import opened Names
  import opened Grammar
  import opened Types
  import opened Visitor
  import opened Plan
  import opened Semantics
  import opened Reference
  import opened Generator
  import opened Repaired
  import opened Sequences

  /** `env'` agrees with `env` on every variable whose name does not start with `v`. */
  ghost predicate Agree(env': Env, env: Env, v: string)
  {
    forall y :: y in env && !(v <= y) ==> y in env' && env'[y] == env[y]
  }

  lemma {:induction false} PrefixTransitive(a: string, b: string, c: string)
    requires a <= b && b <= c
    ensures a <= c
  {
    assert c[..|b|] == b;
    assert c[..|a|] == c[..|b|][..|a|];
  }

  lemma {:induction false} AgreeTransitive(e3: Env, e2: Env, e1: Env, v: string)
    requires Agree(e3, e2, v) && Agree(e2, e1, v)
    ensures Agree(e3, e1, v)
  {
  }

  /** Agreeing outside a longer prefix implies agreeing outside a shorter one. */
  lemma {:induction false} AgreeWiden(env': Env, env: Env, v: string, w: string)
    requires Agree(env', env, w) && v <= w
    ensures Agree(env', env, v)
  {
    forall y | y in env && !(v <= y)
      ensures y in env' && env'[y] == env[y]
    {
      if w <= y {
        PrefixTransitive(v, w, y);
      }
    }
  }

  lemma {:induction false} AgreeUpdate(env: Env, v: string, x: string, val: Value)
    requires v <= x
    ensures Agree(env[x := val], env, v)
  {
  }

  /** The temporary of a `Many` or `Optional` is not a prefix of the list or variable it feeds. */
  lemma {:induction false} TempNameLonger(v: string)
    ensures v <= TempName(v) && !(TempName(v) <= v)
  {
  }

  /** A name that no element variable, from `start` on, is a prefix of. */
  ghost predicate OutsideElements(v: string, start: nat, y: string)
  {
    forall k :: start <= k ==> !(ElementName(v, k) <= y)
  }

  /** `env'` agrees with `env` on every variable that is outside the element variables from `start` on. */
  ghost predicate PreservedFrom(env': Env, env: Env, v: string, start: nat)
  {
    forall y :: y in env && OutsideElements(v, start, y) ==> y in env' && env'[y] == env[y]
  }

  lemma {:induction false} PreservedAgree(env': Env, env: Env, v: string, start: nat)
    requires PreservedFrom(env', env, v, start)
    ensures Agree(env', env, v)
  {
    forall y | y in env && !(v <= y)
      ensures y in env' && env'[y] == env[y]
    {
      forall k | start <= k
        ensures !(ElementName(v, k) <= y)
      {
        if ElementName(v, k) <= y {
          PrefixTransitive(v, ElementName(v, k), y);
        }
      }
    }
  }

  /** An element variable is outside the element variables that come after it. */
  lemma {:induction false} EarlierElementOutside(v: string, i: nat)
    ensures OutsideElements(v, i + 1, ElementName(v, i))
  {
    forall k | i + 1 <= k
      ensures !(ElementName(v, k) <= ElementName(v, i))
    {
      NumberedNameNotPrefix(v, i + 1, k + 1);
    }
  }

  function AsOutcome(r: Parsed<Value>): Outcome
  {
    match r
    case Parsed(v, p) => Returned(v, p)
    case ParseFailed(f) => Failed(f)
  }

  function AsEvaluated(r: Parsed<Value>): Evaluated<Value>
  {
    match r
    case Parsed(v, p) => Evaluated(v, p)
    case ParseFailed(f) => EvalFailed(f)
  }

  /** The class of the corrected generator is loaded: each production's parse function is there by its name. */
  ghost predicate Loaded(d: Definition, ctx: Ctx)
  {
    forall p :: p in d.productions ==>
      && FixedBody(d, p).Ok?
      && ParseFunctionName(p.lhs) in ctx.functions
      && ctx.functions[ParseFunctionName(p.lhs)] == FixedBody(d, p).value
  }

  /** Code that starts with two statements, followed by `rest`, is the first statement, then the second, then the others. */
  lemma SplitPair(code: seq<Stmt>, first: Stmt, second: Stmt, tail: seq<Stmt>, rest: seq<Stmt>)
    requires code == [first, second] + tail
    ensures code + rest == [first] + ([second] + (tail + rest))
  {
    assert [first, second] == [first] + [second];
    AppendAssoc([first, second], tail, rest);
    AppendAssoc([first], [second], tail + rest);
  }

  /** Delivering a value to a variable. */
  lemma {:induction false} DeliverBind(ctx: Ctx, x: string, a: Rhs, rest: seq<Stmt>, env: Env, pos: nat, fuel: nat, val: Value)
    returns (env': Env)
    requires PureValue(a, env) == Some(val)
    ensures Agree(env', env, x) && x in env' && env'[x] == val
    ensures Exec(ctx, EmitFixed(BindTo(x), a) + rest, env, pos, fuel) == Exec(ctx, rest, env', pos, fuel)
  {
    if a == Var(x) {
      env' := env;
      assert EmitFixed(BindTo(x), a) + rest == rest;
    } else {
      env' := env[x := val];
      EvalPure(ctx, a, env, pos, fuel);
      assert (EmitFixed(BindTo(x), a) + rest)[1..] == rest;
    }
  }

  /** Delivering a value to a list. */
  lemma {:induction false} DeliverAdd(ctx: Ctx, l: string, a: Rhs, rest: seq<Stmt>, env: Env, pos: nat, fuel: nat, val: Value)
    requires PureValue(a, env) == Some(val)
    requires l in env && env[l].ListValue?
    ensures Exec(ctx, EmitFixed(AddTo(l), a) + rest, env, pos, fuel)
         == Exec(ctx, rest, env[l := ListValue(env[l].items + [val])], pos, fuel)
  {
    EvalPure(ctx, a, env, pos, fuel);
    assert (EmitFixed(AddTo(l), a) + rest)[1..] == rest;
  }

  /** Delivering a value to a nullable variable. */
  lemma {:induction false} DeliverSet(ctx: Ctx, x: string, a: Rhs, rest: seq<Stmt>, env: Env, pos: nat, fuel: nat, val: Value)
    requires PureValue(a, env) == Some(val)
    ensures Exec(ctx, EmitFixed(SetTo(x), a) + rest, env, pos, fuel) == Exec(ctx, rest, env[x := val], pos, fuel)
  {
    EvalPure(ctx, a, env, pos, fuel);
    assert (EmitFixed(SetTo(x), a) + rest)[1..] == rest;
  }

  /** A `when` over arms tested by `TestFor` takes the arm of the first expression whose FIRST set holds the kind. */
  lemma {:induction false} SelectArmAgrees(d: Definition, arms: seq<Arm>, es: seq<Expr>, kind: string)
    requires |arms| == |es|
    requires forall i :: 0 <= i < |es| ==> arms[i].test == TestFor(d, es[i])
    ensures SelectArm(arms, kind, 0) == FirstMatch(d, es, kind, 0)
  {
    var r := SelectArm(arms, kind, 0);
    var m := FirstMatch(d, es, kind, 0);
    if r.Some? {
      assert kind in Kinds(d, es[r.value]);
    }
    if m.Some? {
      assert Holds(arms[m.value].test, kind);
    }
  }

  /** Pure call arguments evaluate to their values and consume nothing. */
  lemma {:induction false} EvalArgsPure(ctx: Ctx, args: seq<Rhs>, env: Env, pos: nat, fuel: nat)
    requires forall i :: 0 <= i < |args| ==> PureValue(args[i], env).Some?
    ensures EvalArgs(ctx, args, env, pos, fuel)
         == Evaluated(seq(|args|, i requires 0 <= i < |args| => PureValue(args[i], env).value), pos)
  {
    var all := seq(|args|, i requires 0 <= i < |args| => PureValue(args[i], env).value);
    if args != [] {
      EvalPure(ctx, args[0], env, pos, fuel);
      EvalArgsPure(ctx, args[1..], env, pos, fuel);
      var tail := seq(|args[1..]|, i requires 0 <= i < |args[1..]| => PureValue(args[1..][i], env).value);
      assert all[1..] == tail;
      assert all == [all[0]] + tail;
      assert Eval(ctx, args[0], env, pos, fuel) == Evaluated(all[0], pos);
      assert EvalArgs(ctx, args[1..], env, pos, fuel) == Evaluated(tail, pos);
      assert EvalArgs(ctx, args, env, pos, fuel) == Evaluated([all[0]] + tail, pos);
    } else {
      assert all == [];
    }
  }

  /** An identifier's code calls the parse function of its production, or matches its token. */
  lemma {:induction false} IdentifierCorrect(d: Definition, ctx: Ctx, n: string, env: Env, pos: nat, fuel: nat)
    requires WellFormed(d) && Loaded(d, ctx)
    ensures Eval(ctx, IdentifierRhs(d, n), env, pos, fuel) == AsEvaluated(Denote(d, ctx.tokens, Identifier(n), pos, fuel))
    decreases fuel, 0, Identifier(n), 0
  {
    if n in d.nonTerminalNames && fuel > 0 {
      var i :| 0 <= i < |d.productions| && d.productions[i].lhs == n;
      assert d.productions[i] in d.productions;
      var p := ProductionFor(d.productions, n);
      assert p.Some?;
      CallCorrect(d, ctx, p.value, env, pos, fuel);
    }
  }

  /** Calling a production's parse function computes the production's reference result. */
  lemma {:induction false} CallCorrect(d: Definition, ctx: Ctx, p: Production, env: Env, pos: nat, fuel: nat)
    requires WellFormed(d) && Loaded(d, ctx) && p in d.productions && fuel > 0
    ensures Eval(ctx, CallParse(ParseFunctionName(p.lhs)), env, pos, fuel)
         == AsEvaluated(DenoteProduction(d, ctx.tokens, p, pos, fuel - 1))
    decreases fuel - 1, 3
  {
    var f := ParseFunctionName(p.lhs);
    assert f in ctx.functions && ctx.functions[f] == FixedBody(d, p).value;
    ProductionCorrect(d, ctx, p, pos, fuel - 1);
  }

  /**
   * The code of `e`, followed by `rest`, behaves as: parse `e`, then hand
   * its value (as the pure right-hand side `a`, in the environment `env'`)
   * to the sink `s` and run `rest`; it fails exactly when the parse of `e`
   * fails, with the same failure.
   */
  ghost predicate Delivers(d: Definition, ctx: Ctx, v: string, s: Sink, e: Expr, rest: seq<Stmt>,
                           env: Env, pos: nat, fuel: nat, env': Env, a: Rhs)
  {
    match Denote(d, ctx.tokens, e, pos, fuel)
    case ParseFailed(f) =>
      Exec(ctx, FixedExpr(d, v, s, e) + rest, env, pos, fuel) == Failed(f)
    case Parsed(val, p) =>
      && Agree(env', env, v)
      && PureValue(a, env') == Some(val)
      && Exec(ctx, FixedExpr(d, v, s, e) + rest, env, pos, fuel) == Exec(ctx, EmitFixed(s, a) + rest, env', p, fuel)
  }

  /** The code of a nested expression delivers the expression's value to its sink. */
  lemma {:induction false} FixedExprCorrect(d: Definition, ctx: Ctx, v: string, s: Sink, e: Expr, rest: seq<Stmt>, env: Env, pos: nat, fuel: nat)
    returns (env': Env, a: Rhs)
    requires WellFormed(d) && Loaded(d, ctx)
    ensures Delivers(d, ctx, v, s, e, rest, env, pos, fuel, env', a)
    decreases fuel, 0, e, 2
  {
    match e
    case Identifier(n) => env', a := IdentifierExprCorrect(d, ctx, v, s, n, rest, env, pos, fuel);
    case Sequence(es) => env', a := SequenceExprCorrect(d, ctx, v, s, es, rest, env, pos, fuel);
    case Alternative(es) => env', a := AlternativeExprCorrect(d, ctx, v, s, es, rest, env, pos, fuel);
    case Many(x) => env', a := ManyExprCorrect(d, ctx, v, s, x, rest, env, pos, fuel);
    case Optional(x) => env', a := OptionalExprCorrect(d, ctx, v, s, x, rest, env, pos, fuel);
  }

  lemma {:induction false} IdentifierExprCorrect(d: Definition, ctx: Ctx, v: string, s: Sink, n: string, rest: seq<Stmt>, env: Env, pos: nat, fuel: nat)
    returns (env': Env, a: Rhs)
    requires WellFormed(d) && Loaded(d, ctx)
    ensures Delivers(d, ctx, v, s, Identifier(n), rest, env, pos, fuel, env', a)
    decreases fuel, 0, Identifier(n), 1
  {
    env', a := env, Var(v);
    var decl := [Declare(v, ExprType(d, Identifier(n)), IdentifierRhs(d, n))];
    var R := EmitFixed(s, Var(v)) + rest;
    assert FixedExpr(d, v, s, Identifier(n)) + rest == decl + R;
    ExecAppend(ctx, decl, R, env, pos, fuel);
    IdentifierCorrect(d, ctx, n, env, pos, fuel);
    match Eval(ctx, IdentifierRhs(d, n), env, pos, fuel) {
      case Evaluated(val, p) =>
        env' := env[v := val];
        AgreeUpdate(env, v, v, val);
      case EvalFailed(f) =>
    }
  }

  lemma {:induction false} SequenceExprCorrect(d: Definition, ctx: Ctx, v: string, s: Sink, es: seq<Expr>, rest: seq<Stmt>, env: Env, pos: nat, fuel: nat)
    returns (env': Env, a: Rhs)
    requires WellFormed(d) && Loaded(d, ctx)
    ensures Delivers(d, ctx, v, s, Sequence(es), rest, env, pos, fuel, env', a)
    decreases fuel, 0, Sequence(es), 1
  {
    env', a := env, Var(v);
    var names := ElementNames(v, |es|);
    var tuple := [Declare(v, ExprType(d, Sequence(es)), MkTuple(names))];
    var R := EmitFixed(s, Var(v)) + rest;
    FixedSequence(d, v, s, es);
    AppendAssoc(FixedElements(d, v, es, 0) + tuple, EmitFixed(s, Var(v)), rest);
    AppendAssoc(FixedElements(d, v, es, 0), tuple, R);
    var env1 := FixedElementsCorrect(d, ctx, v, es, 0, tuple + R, env, pos, fuel);
    match DenoteAll(d, ctx.tokens, es, pos, fuel) {
      case ParseFailed(f) =>
      case Parsed(vals, p) =>
        assert forall j :: 0 <= j < |es| ==> names[j] in env1 && env1[names[j]] == vals[j];
        assert seq(|names|, i requires 0 <= i < |names| => env1[names[i]]) == vals;
        EvalPure(ctx, MkTuple(names), env1, p, fuel);
        ExecAppend(ctx, tuple, R, env1, p, fuel);
        env' := env1[v := TupleValue(vals)];
        PreservedAgree(env1, env, v, 0);
        AgreeUpdate(env1, v, v, TupleValue(vals));
        AgreeTransitive(env', env1, env, v);
    }
  }

  lemma {:induction false} AlternativeExprCorrect(d: Definition, ctx: Ctx, v: string, s: Sink, es: seq<Expr>, rest: seq<Stmt>, env: Env, pos: nat, fuel: nat)
    returns (env': Env, a: Rhs)
    requires WellFormed(d) && Loaded(d, ctx)
    ensures Delivers(d, ctx, v, s, Alternative(es), rest, env, pos, fuel, env', a)
    decreases fuel, 0, Alternative(es), 1
  {
    env', a := env, Var(v);
    var arms := FixedArms(d, v, s, es);
    assert FixedExpr(d, v, s, Alternative(es)) + rest == [When(arms, Kinds(d, Alternative(es)))] + rest;
    var kind := Lookahead(ctx, pos);
    SelectArmAgrees(d, arms, es, kind);
    ExecWhen(ctx, arms, Kinds(d, Alternative(es)), rest, env, pos, fuel);
    match FirstMatch(d, es, kind, 0) {
      case None =>
      case Some(i) =>
        var env1, a1 := FixedExprCorrect(d, ctx, v, Wrap(|es|, i, s), es[i], rest, env, pos, fuel);
        env', a := env1, MkUnion(|es|, i, a1);
    }
  }

  lemma {:induction false} ManyExprCorrect(d: Definition, ctx: Ctx, v: string, s: Sink, x: Expr, rest: seq<Stmt>, env: Env, pos: nat, fuel: nat)
    returns (env': Env, a: Rhs)
    requires WellFormed(d) && Loaded(d, ctx)
    ensures Delivers(d, ctx, v, s, Many(x), rest, env, pos, fuel, env', a)
    decreases fuel, 0, Many(x), 1
  {
    env', a := env, Var(v);
    var decl := [Declare(v, ListType(ExprType(d, x)), NewList)];
    var loop := [While(TestFor(d, x), FixedExpr(d, TempName(v), AddTo(v), x))];
    var R := EmitFixed(s, Var(v)) + rest;
    SplitPair(FixedExpr(d, v, s, Many(x)), decl[0], loop[0], EmitFixed(s, Var(v)), rest);
    ExecAppend(ctx, decl, loop + R, env, pos, fuel);
    var env1 := env[v := ListValue([])];
    ExecDeclare(ctx, v, ListType(ExprType(d, x)), NewList, env, pos, fuel);
    ExecAppend(ctx, loop, R, env1, pos, fuel);
    ExecWhile(ctx, TestFor(d, x), FixedExpr(d, TempName(v), AddTo(v), x), env1, pos, fuel);
    var env2 := FixedLoopCorrect(d, ctx, v, x, env1, pos, fuel);
    match DenoteMany(d, ctx.tokens, x, pos, fuel) {
      case ParseFailed(f) =>
      case Parsed(items, p) =>
        AppendEmpty(items);
        env' := env2;
        AgreeUpdate(env, v, v, ListValue([]));
        AgreeTransitive(env2, env1, env, v);
    }
  }

  lemma {:induction false} OptionalExprCorrect(d: Definition, ctx: Ctx, v: string, s: Sink, x: Expr, rest: seq<Stmt>, env: Env, pos: nat, fuel: nat)
    returns (env': Env, a: Rhs)
    requires WellFormed(d) && Loaded(d, ctx)
    ensures Delivers(d, ctx, v, s, Optional(x), rest, env, pos, fuel, env', a)
    decreases fuel, 0, Optional(x), 1
  {
    env', a := env, Var(v);
    var body := FixedExpr(d, TempName(v), SetTo(v), x);
    var decl := [Declare(v, NullableType(ExprType(d, x)), Null)];
    var cond := [If(TestFor(d, x), body)];
    var R := EmitFixed(s, Var(v)) + rest;
    SplitPair(FixedExpr(d, v, s, Optional(x)), decl[0], cond[0], EmitFixed(s, Var(v)), rest);
    ExecAppend(ctx, decl, cond + R, env, pos, fuel);
    var env1 := env[v := NullValue];
    ExecDeclare(ctx, v, NullableType(ExprType(d, x)), Null, env, pos, fuel);
    ExecAppend(ctx, cond, R, env1, pos, fuel);
    ExecIf(ctx, TestFor(d, x), body, env1, pos, fuel);
    AgreeUpdate(env, v, v, NullValue);
    if Holds(TestFor(d, x), Lookahead(ctx, pos)) {
      var env2, a2 := FixedExprCorrect(d, ctx, TempName(v), SetTo(v), x, [], env1, pos, fuel);
      AppendEmpty(body);
      match Denote(d, ctx.tokens, x, pos, fuel) {
        case ParseFailed(f) =>
        case Parsed(val, p) =>
          DeliverSet(ctx, v, a2, [], env2, p, fuel, val);
          env' := env2[v := val];
          TempNameLonger(v);
          AgreeWiden(env2, env1, v, TempName(v));
          AgreeUpdate(env2, v, v, val);
          AgreeTransitive(env', env2, env1, v);
          AgreeTransitive(env', env1, env, v);
      }
    } else {
      env' := env1;
    }
  }

  /** The elements of a sequence leave their values in their element variables, and touch nothing else outside them. */
  ghost predicate ElementsDeliver(d: Definition, ctx: Ctx, v: string, es: seq<Expr>, start: nat, rest: seq<Stmt>,
                                  env: Env, pos: nat, fuel: nat, env': Env)
  {
    match DenoteAll(d, ctx.tokens, es, pos, fuel)
    case ParseFailed(f) =>
      Exec(ctx, FixedElements(d, v, es, start) + rest, env, pos, fuel) == Failed(f)
    case Parsed(vals, p) =>
      && PreservedFrom(env', env, v, start)
      && (forall j :: start <= j < start + |es| ==> ElementName(v, j) in env' && env'[ElementName(v, j)] == vals[j - start])
      && Exec(ctx, FixedElements(d, v, es, start) + rest, env, pos, fuel) == Exec(ctx, rest, env', p, fuel)
  }

  lemma {:induction false} FixedElementsCorrect(d: Definition, ctx: Ctx, v: string, es: seq<Expr>, start: nat, rest: seq<Stmt>, env: Env, pos: nat, fuel: nat)
    returns (env': Env)
    requires WellFormed(d) && Loaded(d, ctx)
    ensures ElementsDeliver(d, ctx, v, es, start, rest, env, pos, fuel, env')
    decreases fuel, 0, es, 1
  {
    env' := env;
    if es == [] {
      assert FixedElements(d, v, es, start) + rest == rest;
    } else {
      var x0 := ElementName(v, start);
      var code0 := FixedExpr(d, x0, BindTo(x0), es[0]);
      var tail := FixedElements(d, v, es[1..], start + 1);
      var all := FixedElements(d, v, es, start) + rest;
      AppendAssoc(code0, tail, rest);
      assert all == code0 + (tail + rest);
      var env1, a := FixedExprCorrect(d, ctx, x0, BindTo(x0), es[0], tail + rest, env, pos, fuel);
      assert Delivers(d, ctx, x0, BindTo(x0), es[0], tail + rest, env, pos, fuel, env1, a);
      match Denote(d, ctx.tokens, es[0], pos, fuel) {
        case ParseFailed(f) =>
          assert Exec(ctx, all, env, pos, fuel) == Failed(f);
        case Parsed(val0, p0) =>
          var env2 := DeliverBind(ctx, x0, a, tail + rest, env1, p0, fuel, val0);
          assert Exec(ctx, all, env, pos, fuel) == Exec(ctx, tail + rest, env2, p0, fuel);
          var env3 := FixedElementsCorrect(d, ctx, v, es[1..], start + 1, rest, env2, p0, fuel);
          assert ElementsDeliver(d, ctx, v, es[1..], start + 1, rest, env2, p0, fuel, env3);
          match DenoteAll(d, ctx.tokens, es[1..], p0, fuel) {
            case ParseFailed(f) =>
              assert Exec(ctx, all, env, pos, fuel) == Failed(f);
            case Parsed(vals, p) =>
              env' := env3;
              assert DenoteAll(d, ctx.tokens, es, pos, fuel) == Parsed([val0] + vals, p);
              ElementsStep(env, env1, env2, env3, v, start, val0, vals);
          }
      }
    }
  }

  /** The bookkeeping of one step of `FixedElementsCorrect`: the first element, then the others. */
  lemma {:induction false} ElementsStep(env: Env, env1: Env, env2: Env, env3: Env, v: string, start: nat, val0: Value, vals: seq<Value>)
    requires Agree(env1, env, ElementName(v, start)) && Agree(env2, env1, ElementName(v, start))
    requires ElementName(v, start) in env2 && env2[ElementName(v, start)] == val0
    requires PreservedFrom(env3, env2, v, start + 1)
    requires forall j :: start + 1 <= j < start + 1 + |vals| ==>
      ElementName(v, j) in env3 && env3[ElementName(v, j)] == vals[j - (start + 1)]
    ensures PreservedFrom(env3, env, v, start)
    ensures forall j :: start <= j < start + 1 + |vals| ==>
      ElementName(v, j) in env3 && env3[ElementName(v, j)] == ([val0] + vals)[j - start]
  {
    EarlierElementOutside(v, start);
    forall y | y in env && OutsideElements(v, start, y)
      ensures y in env3 && env3[y] == env[y]
    {
      assert !(ElementName(v, start) <= y);
      assert OutsideElements(v, start + 1, y);
    }
    assert ElementName(v, start) in env3;
  
  }

  /** A list loop appends the items of `Many(x)` to its list, and touches nothing outside the list's name. */
  lemma {:induction false} FixedLoopCorrect(d: Definition, ctx: Ctx, v: string, x: Expr, env: Env, pos: nat, fuel: nat)
    returns (env': Env)
    requires WellFormed(d) && Loaded(d, ctx)
    requires v in env && env[v].ListValue?
    ensures match DenoteMany(d, ctx.tokens, x, pos, fuel)
      case ParseFailed(f) =>
        Loop(ctx, TestFor(d, x), FixedExpr(d, TempName(v), AddTo(v), x), env, pos, fuel) == Failed(f)
      case Parsed(items, p) =>
        && Agree(env', env, v) && v in env' && env'[v] == ListValue(env[v].items + items)
        && Loop(ctx, TestFor(d, x), FixedExpr(d, TempName(v), AddTo(v), x), env, pos, fuel) == Normal(env', p)
    decreases fuel, 0, x, 2
  {
    env' := env;
    var body := FixedExpr(d, TempName(v), AddTo(v), x);
    if !Holds(TestFor(d, x), Lookahead(ctx, pos)) {
      AppendEmpty(env[v].items);
    } else if fuel > 0 {
      var env1, a := FixedExprCorrect(d, ctx, TempName(v), AddTo(v), x, [], env, pos, fuel - 1);
      assert Delivers(d, ctx, TempName(v), AddTo(v), x, [], env, pos, fuel - 1, env1, a);
      AppendEmpty(body);
      match Denote(d, ctx.tokens, x, pos, fuel - 1) {
        case ParseFailed(f) =>
        case Parsed(val, p) =>
          TempNameLonger(v);
          var env2 := env1[v := ListValue(env[v].items + [val])];
          DeliverAdd(ctx, v, a, [], env1, p, fuel - 1, val);
          AgreeWiden(env1, env, v, TempName(v));
          AgreeUpdate(env1, v, v, ListValue(env[v].items + [val]));
          AgreeTransitive(env2, env1, env, v);
          env' := FixedLoopRest(d, ctx, v, x, env, pos, fuel, val, env2, p);
      }
    }
  }

  /** After an iteration that added `val`, the loop goes on to add the remaining items. */
  lemma {:induction false} FixedLoopRest(d: Definition, ctx: Ctx, v: string, x: Expr, env: Env, pos: nat, fuel: nat,
                                         val: Value, env2: Env, p: nat)
    returns (env': Env)
    requires WellFormed(d) && Loaded(d, ctx)
    requires v in env && env[v].ListValue?
    requires Holds(TestFor(d, x), Lookahead(ctx, pos)) && fuel > 0
    requires Denote(d, ctx.tokens, x, pos, fuel - 1) == Parsed(val, p)
    requires Exec(ctx, FixedExpr(d, TempName(v), AddTo(v), x), env, pos, fuel - 1) == Normal(env2, p)
    requires Agree(env2, env, v) && v in env2 && env2[v] == ListValue(env[v].items + [val])
    ensures match DenoteMany(d, ctx.tokens, x, pos, fuel)
      case ParseFailed(f) =>
        Loop(ctx, TestFor(d, x), FixedExpr(d, TempName(v), AddTo(v), x), env, pos, fuel) == Failed(f)
      case Parsed(items, p) =>
        && Agree(env', env, v) && v in env' && env'[v] == ListValue(env[v].items + items)
        && Loop(ctx, TestFor(d, x), FixedExpr(d, TempName(v), AddTo(v), x), env, pos, fuel) == Normal(env', p)
    decreases fuel, 0, x, 1
  {
    env' := env;
    var t := TestFor(d, x);
    var body := FixedExpr(d, TempName(v), AddTo(v), x);
    LoopStep(ctx, t, body, env, pos, fuel, env2, p);
    ManyStep(d, ctx.tokens, x, pos, fuel, val, p);
    env' := FixedLoopCorrect(d, ctx, v, x, env2, p, fuel - 1);
    LoopCombine(DenoteMany(d, ctx.tokens, x, pos, fuel), DenoteMany(d, ctx.tokens, x, p, fuel - 1),
                Loop(ctx, t, body, env, pos, fuel), Loop(ctx, t, body, env2, p, fuel - 1), v, val, env, env2, env');
  }

  /**
   * The bookkeeping of one loop iteration: the loop after the first item
   * adds the remaining items `m1` to a list that already ends with `val`.
   */
  lemma LoopCombine(m0: Parsed<seq<Value>>, m1: Parsed<seq<Value>>, l0: Outcome, l1: Outcome,
                    v: string, val: Value, env: Env, env2: Env, env3: Env)
    requires v in env && env[v].ListValue?
    requires Agree(env2, env, v) && v in env2 && env2[v] == ListValue(env[v].items + [val])
    requires l0 == l1
    requires m1.ParseFailed? ==> m0 == m1
    requires m1.Parsed? ==> m0 == Parsed([val] + m1.value, m1.pos)
    requires match m1
      case ParseFailed(f) => l1 == Failed(f)
      case Parsed(items, p) =>
        && Agree(env3, env2, v) && v in env3 && env3[v] == ListValue(env2[v].items + items)
        && l1 == Normal(env3, p)
    ensures match m0
      case ParseFailed(f) => l0 == Failed(f)
      case Parsed(items, p) =>
        && Agree(env3, env, v) && v in env3 && env3[v] == ListValue(env[v].items + items)
        && l0 == Normal(env3, p)
  {
    if m1.Parsed? {
      AppendAssoc(env[v].items, [val], m1.value);
      AgreeTransitive(env3, env2, env, v);
    }
  }

  /** `return visitor.<visit>(x)` returns the visitor's result for the value of `x`. */
  lemma {:induction false} ExecReturnVar(ctx: Ctx, visit: string, x: string, env: Env, pos: nat, fuel: nat)
    requires x in env
    ensures Exec(ctx, [Return(visit, [Var(x)])], env, pos, fuel) == Returned(VisitValue(visit, [env[x]]), pos)
  {
    EvalArgsPure(ctx, [Var(x)], env, pos, fuel);
    assert seq(1, i requires 0 <= i < 1 => PureValue([Var(x)][i], env).value) == [env[x]];
  }

  /** The body of a parse function that is not dispatched on returns what its visitor method returns. */
  lemma {:induction false} FixedTopLevelCorrect(d: Definition, ctx: Ctx, visitorName: string, e: Expr, env: Env, pos: nat, fuel: nat)
    requires WellFormed(d) && Loaded(d, ctx)
    requires FixedTopLevel(d, visitorName, e).Ok?
    ensures Exec(ctx, FixedTopLevel(d, visitorName, e).value, env, pos, fuel)
         == AsOutcome(DenoteTop(d, ctx.tokens, visitorName, e, pos, fuel))
    decreases fuel, 1, 0, 1
  {
    match e
    case Identifier(n) => TopIdentifierCorrect(d, ctx, visitorName, n, env, pos, fuel);
    case Sequence(es) => TopSequenceCorrect(d, ctx, visitorName, es, env, pos, fuel);
    case Many(x) => TopManyCorrect(d, ctx, visitorName, x, env, pos, fuel);
    case Optional(x) => TopOptionalCorrect(d, ctx, visitorName, x, env, pos, fuel);
  }

  lemma {:induction false} TopIdentifierCorrect(d: Definition, ctx: Ctx, visitorName: string, n: string, env: Env, pos: nat, fuel: nat)
    requires WellFormed(d) && Loaded(d, ctx)
    ensures Exec(ctx, FixedTopLevel(d, visitorName, Identifier(n)).value, env, pos, fuel)
         == AsOutcome(DenoteTop(d, ctx.tokens, visitorName, Identifier(n), pos, fuel))
    decreases fuel, 1, 0, 0
  {
    var r := IdentifierRhs(d, n);
    IdentifierCorrect(d, ctx, n, env, pos, fuel);
    assert [r][1..] == [] && [r][0] == r;
    match Eval(ctx, r, env, pos, fuel) {
      case Evaluated(val, p) =>
        assert EvalArgs(ctx, [], env, p, fuel) == Evaluated([], p);
        AppendEmpty([val]);
        assert EvalArgs(ctx, [r], env, pos, fuel) == Evaluated([val], p);
      case EvalFailed(f) =>
    }
  }

  lemma {:induction false} TopSequenceCorrect(d: Definition, ctx: Ctx, visitorName: string, es: seq<Expr>, env: Env, pos: nat, fuel: nat)
    requires WellFormed(d) && Loaded(d, ctx)
    ensures Exec(ctx, FixedTopLevel(d, visitorName, Sequence(es)).value, env, pos, fuel)
         == AsOutcome(DenoteTop(d, ctx.tokens, visitorName, Sequence(es), pos, fuel))
    decreases fuel, 1, 0, 0
  {
    var visit := MethodName(visitorName);
    var args := seq(|es|, i requires 0 <= i < |es| => Var(ElementName("a", i)));
    var env1 := FixedElementsCorrect(d, ctx, "a", es, 0, [Return(visit, args)], env, pos, fuel);
    assert ElementsDeliver(d, ctx, "a", es, 0, [Return(visit, args)], env, pos, fuel, env1);
    match DenoteAll(d, ctx.tokens, es, pos, fuel) {
      case ParseFailed(f) =>
      case Parsed(vals, p) =>
        assert forall j :: 0 <= j < |es| ==> PureValue(args[j], env1) == Some(vals[j]);
        EvalArgsPure(ctx, args, env1, p, fuel);
        assert seq(|args|, i requires 0 <= i < |args| => PureValue(args[i], env1).value) == vals;
        assert Exec(ctx, [Return(visit, args)], env1, p, fuel) == Returned(VisitValue(visit, vals), p);
    }
  }

  lemma {:induction false} TopManyCorrect(d: Definition, ctx: Ctx, visitorName: string, x: Expr, env: Env, pos: nat, fuel: nat)
    requires WellFormed(d) && Loaded(d, ctx)
    ensures Exec(ctx, FixedTopLevel(d, visitorName, Many(x)).value, env, pos, fuel)
         == AsOutcome(DenoteTop(d, ctx.tokens, visitorName, Many(x), pos, fuel))
    decreases fuel, 1, 0, 0
  {
    var visit := MethodName(visitorName);
    assert TempName("a") == "at";
    var decl := [Declare("a", ListType(ExprType(d, x)), NewList)];
    var loop := [While(TestFor(d, x), FixedExpr(d, "at", AddTo("a"), x))];
    var ret := [Return(visit, [Var("a")])];
    SplitTriple(decl[0], loop[0], ret[0]);
    assert FixedTopLevel(d, visitorName, Many(x)).value == decl + (loop + ret);
    ExecAppend(ctx, decl, loop + ret, env, pos, fuel);
    var env1 := env["a" := ListValue([])];
    ExecDeclare(ctx, "a", ListType(ExprType(d, x)), NewList, env, pos, fuel);
    ExecAppend(ctx, loop, ret, env1, pos, fuel);
    ExecWhile(ctx, TestFor(d, x), FixedExpr(d, "at", AddTo("a"), x), env1, pos, fuel);
    var env2 := FixedLoopCorrect(d, ctx, "a", x, env1, pos, fuel);
    match DenoteMany(d, ctx.tokens, x, pos, fuel) {
      case ParseFailed(f) =>
      case Parsed(items, p) =>
        AppendEmpty(items);
        ExecReturnVar(ctx, visit, "a", env2, p, fuel);
    }
  }

  lemma {:induction false} TopOptionalCorrect(d: Definition, ctx: Ctx, visitorName: string, x: Expr, env: Env, pos: nat, fuel: nat)
    requires WellFormed(d) && Loaded(d, ctx)
    ensures Exec(ctx, FixedTopLevel(d, visitorName, Optional(x)).value, env, pos, fuel)
         == AsOutcome(DenoteTop(d, ctx.tokens, visitorName, Optional(x), pos, fuel))
    decreases fuel, 1, 0, 0
  {
    var visit := MethodName(visitorName);
    assert TempName("a") == "at";
    var body := FixedExpr(d, "at", SetTo("a"), x);
    var decl := [Declare("a", ExprType(d, Optional(x)), Null)];
    var cond := [If(TestFor(d, x), body)];
    var ret := [Return(visit, [Var("a")])];
    SplitTriple(decl[0], cond[0], ret[0]);
    assert FixedTopLevel(d, visitorName, Optional(x)).value == decl + (cond + ret);
    ExecAppend(ctx, decl, cond + ret, env, pos, fuel);
    var env1 := env["a" := NullValue];
    ExecDeclare(ctx, "a", ExprType(d, Optional(x)), Null, env, pos, fuel);
    ExecAppend(ctx, cond, ret, env1, pos, fuel);
    ExecIf(ctx, TestFor(d, x), body, env1, pos, fuel);
    if Holds(TestFor(d, x), Lookahead(ctx, pos)) {
      var env2, a2 := FixedExprCorrect(d, ctx, "at", SetTo("a"), x, [], env1, pos, fuel);
      assert Delivers(d, ctx, "at", SetTo("a"), x, [], env1, pos, fuel, env2, a2);
      AppendEmpty(body);
      match Denote(d, ctx.tokens, x, pos, fuel) {
        case ParseFailed(f) =>
        case Parsed(val, p) =>
          DeliverSet(ctx, "a", a2, [], env2, p, fuel, val);
          ExecReturnVar(ctx, visit, "a", env2["a" := val], p, fuel);
      }
    } else {
      ExecReturnVar(ctx, visit, "a", env1, pos, fuel);
    }
  }

  /** The arms of an alternative production, branch by branch. */
  lemma {:induction false} FixedTopArmsShape(d: Definition, lhs: string, es: seq<Expr>, from: nat)
    requires from <= |es|
    requires FixedTopArms(d, lhs, es, from).Ok?
    ensures |FixedTopArms(d, lhs, es, from).value| == |es| - from
    ensures forall i :: from <= i < |es| ==>
      && FixedTopLevel(d, BranchVisitorName(lhs, i), es[i]).Ok?
      && FixedTopArms(d, lhs, es, from).value[i - from]
         == Arm(TestFor(d, es[i]), FixedTopLevel(d, BranchVisitorName(lhs, i), es[i]).value)
    decreases |es| - from
  {
    if from < |es| {
      FixedTopArmsShape(d, lhs, es, from + 1);
    }
  }

  /** Each parse function of the corrected generator computes its production's reference result. */
  lemma {:induction false} ProductionCorrect(d: Definition, ctx: Ctx, p: Production, pos: nat, fuel: nat)
    requires WellFormed(d) && Loaded(d, ctx) && p in d.productions
    ensures FixedBody(d, p).Ok?
    ensures Exec(ctx, FixedBody(d, p).value, map[], pos, fuel) == AsOutcome(DenoteProduction(d, ctx.tokens, p, pos, fuel))
    decreases fuel, 2, 0, 0
  {
    if p.expr.Alternative? {
      var es := p.expr.exprs;
      FixedTopArmsShape(d, p.lhs, es, 0);
      var arms := FixedTopArms(d, p.lhs, es, 0).value;
      var kind := Lookahead(ctx, pos);
      SelectArmAgrees(d, arms, es, kind);
      AppendEmpty([When(arms, Kinds(d, p.expr))]);
      assert FixedBody(d, p).value == [When(arms, Kinds(d, p.expr))] + [];
      ExecWhen(ctx, arms, Kinds(d, p.expr), [], map[], pos, fuel);
      match FirstMatch(d, es, kind, 0) {
        case None =>
        case Some(i) =>
          AppendEmpty(arms[i].body);
          FixedTopLevelCorrect(d, ctx, BranchVisitorName(p.lhs, i), es[i], map[], pos, fuel);
      }
    } else {
      FixedTopLevelCorrect(d, ctx, p.lhs, p.expr, map[], pos, fuel);
    }
  }

  /** `writeParseFunctions` of the corrected generator: function `i` is production `i`'s, under its parse function name. */
  lemma {:induction false} FixedFunctionsShape(d: Definition, ps: seq<Production>)
    ensures FixedFunctions(d, ps).Ok? <==> forall i :: 0 <= i < |ps| ==> FixedBody(d, ps[i]).Ok?
    ensures FixedFunctions(d, ps).Ok? ==>
      && |FixedFunctions(d, ps).value| == |ps|
      && forall i :: 0 <= i < |ps| ==>
           FixedFunctions(d, ps).value[i]
           == ParseFunction(ParseFunctionName(ps[i].lhs), ps[i].lhs, FixedBody(d, ps[i]).value)
  {
    if ps != [] {
      FixedFunctionsShape(d, ps[1..]);
      assert forall i :: 1 <= i < |ps| ==> ps[i] == ps[1..][i - 1];
    }
  }

  /** The class the corrected generator emits, with its functions looked up by name. */
  function ClassContext(d: Definition, tokens: seq<Token>): Ctx
    requires FixedParser(d).Ok?
  {
    Ctx(tokens, FunctionTable(FixedParser(d).value.functions))
  }

  /** Every production of a well-formed grammar finds its own corrected parse function in the generated class. */
  lemma {:induction false} ClassLoaded(d: Definition, tokens: seq<Token>)
    requires WellFormed(d) && FixedParser(d).Ok?
    ensures Loaded(d, ClassContext(d, tokens))
  {
    var fs := FixedFunctions(d, d.productions).value;
    FixedFunctionsShape(d, d.productions);
    assert FixedParser(d).value.functions == fs;
    forall p | p in d.productions
      ensures FixedBody(d, p).Ok?
      ensures ParseFunctionName(p.lhs) in ClassContext(d, tokens).functions
      ensures ClassContext(d, tokens).functions[ParseFunctionName(p.lhs)] == FixedBody(d, p).value
    {
      var i :| 0 <= i < |d.productions| && d.productions[i] == p;
      assert fs[i].name == ParseFunctionName(p.lhs);
      FunctionTableLookup(fs, i);
    }
  }

  /**
   * The main theorem: in the class the corrected generator emits for a
   * well-formed grammar, the parse function of every production, run on any
   * token stream from any position, returns the visitor's value for the
   * reference parse, or throws the reference's parsing exception.
   */
  lemma {:induction false} ParserCorrect(d: Definition, tokens: seq<Token>, p: Production, pos: nat, fuel: nat)
    requires WellFormed(d) && FixedParser(d).Ok? && p in d.productions
    ensures ParseFunctionName(p.lhs) in ClassContext(d, tokens).functions
    ensures Exec(ClassContext(d, tokens), ClassContext(d, tokens).functions[ParseFunctionName(p.lhs)], map[], pos, fuel)
         == AsOutcome(DenoteProduction(d, tokens, p, pos, fuel))
  {
    ClassLoaded(d, tokens);
    ProductionCorrect(d, ClassContext(d, tokens), p, pos, fuel);
  }
}
