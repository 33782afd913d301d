/**
 * The shape of the class the generator as written emits: which productions
 * it refuses, and how the parser it emits matches the visitor interface
 * emitted beside it (mod.ts:150-189 against mod.ts:334-468). The parser is
 * generic over exactly the visitor's type variables, and its parse
 * functions call exactly the visitor methods the interface declares, each
 * with as many arguments as the method has parameters.
 */
module Structure {
  import opened Wrappers
  import opened Names
  import opened Grammar
  import opened Types
  import opened Visitor
  import opened Plan
  import opened Generator
  import opened Repaired

  /** A visitor call: the method's name and the number of arguments. */
  type Call = (string, nat)

  /** The visitor calls a block makes, in any of its nested blocks. */
  function Calls(ss: seq<Stmt>): set<Call>
  {
    if ss == [] then {} else StmtCalls(ss[0]) + Calls(ss[1..])
  }

  function StmtCalls(s: Stmt): set<Call>
  {
    match s
    case When(arms, _) => ArmsCalls(arms)
    case While(_, body) => Calls(body)
    case If(_, body) => Calls(body)
    case Return(m, args) => {(m, |args|)}
    case _ => {}
  }

  function ArmsCalls(arms: seq<Arm>): set<Call>
  {
    if arms == [] then {} else Calls(arms[0].body) + ArmsCalls(arms[1..])
  }

  /** The visitor calls of the parse functions of a class. */
  function FunctionCalls(fs: seq<ParseFunction>): set<Call>
  {
    if fs == [] then {} else Calls(fs[0].body) + FunctionCalls(fs[1..])
  }

  /** The calls an interface allows: each method by its name and its number of parameters. */
  function Declared(sigs: seq<Signature>): (r: set<Call>)
    ensures forall s :: s in sigs ==> (s.name, |s.params|) in r
    ensures forall c :: c in r ==> exists s :: s in sigs && c == (s.name, |s.params|)
  {
    set s | s in sigs :: (s.name, |s.params|)
  }

  lemma {:induction false} CallsAppend(a: seq<Stmt>, b: seq<Stmt>)
    ensures Calls(a + b) == Calls(a) + Calls(b)
  {
    if a == [] {
      assert a + b == b;
    } else {
      assert (a + b)[0] == a[0];
      assert (a + b)[1..] == a[1..] + b;
      CallsAppend(a[1..], b);
    }
  }

  /** Passing a value on never returns. */
  lemma {:induction false} EmitHasNoCalls(k: Assigner, arg: Rhs)
    ensures Calls(Emit(k, arg)) == {}
  {
    match k {
      case WrapUnion(n, i, v, outer) => EmitHasNoCalls(outer, MkUnion(n, i, Var(v)));
      case _ =>
    }
  }

  /** The code of a nested expression never calls the visitor: only a parse function's own body returns. */
  lemma {:induction false} ExprHasNoCalls(d: Definition, v: string, k: Assigner, e: Expr)
    ensures Calls(CompileExpr(d, v, k, e)) == {}
    decreases e, 1
  {
    match e {
      case Identifier(n) =>
        EmitHasNoCalls(k, Var(v));
        CallsAppend([Declare(v, ExprType(d, e), IdentifierRhs(d, n))], Emit(k, Var(v)));
      case Sequence(es) =>
        ElementsHaveNoCalls(d, v, es, 0);
        SequenceHasNoCalls(d, v, k, es);
      case Alternative(es) =>
        forall i | 0 <= i < |es|
          ensures Calls(CompileExpr(d, v, WrapUnion(|es|, i, v, k), es[i])) == {}
        {
          ExprHasNoCalls(d, v, WrapUnion(|es|, i, v, k), es[i]);
        }
        AlternativeHasNoCalls(d, v, k, es);
      case Many(x) =>
        ExprHasNoCalls(d, TempName(v), AddTemp(v, TempName(v)), x);
        ManyHasNoCalls(d, v, k, x);
      case Optional(x) =>
        ExprHasNoCalls(d, TempName(v), SetTemp(v, TempName(v)), x);
        OptionalHasNoCalls(d, v, k, x);
    }
  }

  /** A sequence's own code adds no call to its elements' code. */
  lemma SequenceHasNoCalls(d: Definition, v: string, k: Assigner, es: seq<Expr>)
    requires Calls(CompileElements(d, v, es, 0)) == {}
    ensures Calls(CompileExpr(d, v, k, Sequence(es))) == {}
  {
    var decl := [Declare(v, ExprType(d, Sequence(es)), MkTuple(ElementNames(v, |es|)))];
    EmitHasNoCalls(k, Var(v));
    CallsAppend(CompileElements(d, v, es, 0), decl);
    CallsAppend(CompileElements(d, v, es, 0) + decl, Emit(k, Var(v)));
  }

  /** An alternative's own code adds no call to its branches' code. */
  lemma AlternativeHasNoCalls(d: Definition, v: string, k: Assigner, es: seq<Expr>)
    requires forall i :: 0 <= i < |es| ==> Calls(CompileExpr(d, v, WrapUnion(|es|, i, v, k), es[i])) == {}
    ensures Calls(CompileExpr(d, v, k, Alternative(es))) == {}
  {
    var arms := seq(|es|, i requires 0 <= i < |es| =>
      Arm(TestFor(d, es[i]), CompileExpr(d, v, WrapUnion(|es|, i, v, k), es[i])));
    ArmsHaveNoCalls(arms, 0);
    assert CompileExpr(d, v, k, Alternative(es)) == [When(arms, Kinds(d, Alternative(es)))];
  }

  /** A repetition's own code adds no call to its item's code. */
  lemma ManyHasNoCalls(d: Definition, v: string, k: Assigner, x: Expr)
    requires Calls(CompileExpr(d, TempName(v), AddTemp(v, TempName(v)), x)) == {}
    ensures Calls(CompileExpr(d, v, k, Many(x))) == {}
  {
    var body := CompileExpr(d, TempName(v), AddTemp(v, TempName(v)), x);
    EmitHasNoCalls(k, Var(v));
    CallsAppend(body, Emit(k, Var(v)));
    var code := CompileExpr(d, v, k, Many(x));
    assert code[1..] == [While(TestFor(d, x), body + Emit(k, Var(v)))];
    assert Calls(code[1..]) == Calls(body + Emit(k, Var(v))) + Calls(code[1..][1..]);
    assert code[1..][1..] == [];
  }

  /** An option's own code adds no call to its item's code. */
  lemma OptionalHasNoCalls(d: Definition, v: string, k: Assigner, x: Expr)
    requires Calls(CompileExpr(d, TempName(v), SetTemp(v, TempName(v)), x)) == {}
    ensures Calls(CompileExpr(d, v, k, Optional(x))) == {}
  {
    var code := [Declare(v, NullableType(ExprType(d, x)), Null),
                 If(TestFor(d, x), CompileExpr(d, TempName(v), SetTemp(v, TempName(v)), x))];
    EmitHasNoCalls(k, Var(v));
    CallsAppend(code, Emit(k, Var(v)));
    assert code[1..][1..] == [];
    assert Calls(code[1..]) == Calls(CompileExpr(d, TempName(v), SetTemp(v, TempName(v)), x)) + Calls([]);
    assert Calls(code) == {} + Calls(code[1..]);
  }

  lemma {:induction false} ElementsHaveNoCalls(d: Definition, v: string, es: seq<Expr>, start: nat)
    ensures Calls(CompileElements(d, v, es, start)) == {}
    decreases es, 0
  {
    if es != [] {
      ExprHasNoCalls(d, ElementName(v, start), Ignore, es[0]);
      ElementsHaveNoCalls(d, v, es[1..], start + 1);
      CallsAppend(CompileExpr(d, ElementName(v, start), Ignore, es[0]), CompileElements(d, v, es[1..], start + 1));
    }
  }

  lemma {:induction false} ArmsHaveNoCalls(arms: seq<Arm>, from: nat)
    requires from <= |arms|
    requires forall i :: from <= i < |arms| ==> Calls(arms[i].body) == {}
    ensures ArmsCalls(arms[from..]) == {}
    decreases |arms| - from
  {
    if from < |arms| {
      ArmsHaveNoCalls(arms, from + 1);
      assert arms[from..][1..] == arms[from + 1..];
    }
  }

  /** A body that is not dispatched on makes one visitor call, with one argument per parameter of its method. */
  lemma {:induction false} TopLevelCalls(d: Definition, visitorName: string, e: Expr)
    requires CompileTopLevel(d, visitorName, e).Ok?
    ensures Calls(CompileTopLevel(d, visitorName, e).value) == {(MethodName(visitorName), |Parameters(d, e)|)}
  {
    var visit := MethodName(visitorName);
    match e {
      case Identifier(n) =>
        assert [Return(visit, [IdentifierRhs(d, n)])][1..] == [];
      case Sequence(es) =>
        var ret := [Return(visit, seq(|es|, i requires 0 <= i < |es| => Var(ElementName("a", i))))];
        ElementsHaveNoCalls(d, "a", es, 0);
        CallsAppend(CompileElements(d, "a", es, 0), ret);
        assert ret[1..] == [];
      case Many(x) =>
        var code := CompileTopLevel(d, visitorName, e).value;
        ExprHasNoCalls(d, "at", AddArg("a"), x);
        assert code[1..][1..] == [Return(visit, [Var("a")])];
        assert code[1..][1..][1..] == [];
        assert Calls(code[1..][1..]) == {(visit, 1)} + Calls([]);
        assert Calls(code[1..]) == Calls(CompileExpr(d, "at", AddArg("a"), x)) + Calls(code[1..][1..]);
        assert Calls(code) == {} + Calls(code[1..]);
        assert |Parameters(d, e)| == 1;
      case Optional(x) =>
        var code := CompileTopLevel(d, visitorName, e).value;
        ExprHasNoCalls(d, "at", SetArg("a"), x);
        assert code[1..][1..] == [Return(visit, [Var("a")])];
        assert code[1..][1..][1..] == [];
        assert Calls(code[1..][1..]) == {(visit, 1)} + Calls([]);
        assert Calls(code[1..]) == Calls(CompileExpr(d, "at", SetArg("a"), x)) + Calls(code[1..][1..]);
        assert Calls(code) == {} + Calls(code[1..]);
        assert |Parameters(d, e)| == 1;
    }
  }

  /** The arms of an alternative production are those of its branches, in order, as long as none of them fails. */
  lemma {:induction false} TopArmsShape(d: Definition, lhs: string, es: seq<Expr>, from: nat)
    requires from <= |es|
    ensures CompileTopArms(d, lhs, es, from).Ok?
        <==> forall i :: from <= i < |es| ==> !es[i].Alternative?
    ensures CompileTopArms(d, lhs, es, from).Ok? ==>
      && |CompileTopArms(d, lhs, es, from).value| == |es| - from
      && forall i :: from <= i < |es| ==>
           CompileTopArms(d, lhs, es, from).value[i - from]
           == Arm(TestFor(d, es[i]), CompileTopLevel(d, BranchVisitorName(lhs, i), es[i]).value)
    ensures CompileTopArms(d, lhs, es, from).Err? ==>
      exists i :: from <= i < |es| && es[i].Alternative?
        && (forall j :: from <= j < i ==> !es[j].Alternative?)
        && CompileTopArms(d, lhs, es, from).error == InternalError(AlternativeReason, es[i])
    decreases |es| - from
  {
    if from < |es| {
      TopArmsShape(d, lhs, es, from + 1);
    }
  }

  /**
   * `writeTopLevelBody` fails exactly on an alternative production one of
   * whose branches is itself an alternative, and then names the first such
   * branch.
   */
  predicate NestedTopAlternative(p: Production)
  {
    p.expr.Alternative? && exists i :: 0 <= i < |p.expr.exprs| && p.expr.exprs[i].Alternative?
  }

  lemma {:induction false} BodyFails(d: Definition, p: Production)
    ensures CompileBody(d, p).Err? <==> NestedTopAlternative(p)
    ensures CompileBody(d, p).Err? ==>
      exists i :: 0 <= i < |p.expr.exprs| && p.expr.exprs[i].Alternative?
        && (forall j :: 0 <= j < i ==> !p.expr.exprs[j].Alternative?)
        && CompileBody(d, p).error == InternalError(AlternativeReason, p.expr.exprs[i])
  {
    if p.expr.Alternative? {
      TopArmsShape(d, p.lhs, p.expr.exprs, 0);
    }
  }

  /** The methods of a production are exactly the visitor calls of its parse function. */
  lemma {:induction false} BodyCalls(d: Definition, p: Production)
    requires CompileBody(d, p).Ok?
    ensures Calls(CompileBody(d, p).value) == Declared(ProductionSignatures(d, p))
  {
    if p.expr.Alternative? {
      AlternativeBodyCalls(d, p);
    } else {
      var sigs := ProductionSignatures(d, p);
      TopLevelCalls(d, p.lhs, p.expr);
      assert sigs == [Signature(MethodName(p.lhs), Parameters(d, p.expr), p.lhs)];
      assert Declared(sigs) == {(MethodName(p.lhs), |Parameters(d, p.expr)|)};
    }
  }

  lemma {:induction false} AlternativeBodyCalls(d: Definition, p: Production)
    requires p.expr.Alternative? && CompileBody(d, p).Ok?
    ensures Calls(CompileBody(d, p).value) == Declared(ProductionSignatures(d, p))
  {
    var sigs := ProductionSignatures(d, p);
    var es := p.expr.exprs;
    TopArmsShape(d, p.lhs, es, 0);
    var arms := CompileTopArms(d, p.lhs, es, 0).value;
    assert CompileBody(d, p).value == [When(arms, Kinds(d, p.expr))];
    assert Calls([When(arms, Kinds(d, p.expr))]) == ArmsCalls(arms) + Calls([]);
    forall i | 0 <= i < |es|
      ensures Calls(arms[i].body) == {(sigs[i].name, |sigs[i].params|)}
    {
      assert arms[i - 0] == arms[i];
      TopLevelCalls(d, BranchVisitorName(p.lhs, i), es[i]);
    }
    ArmsCallsAre(arms, sigs, 0);
    assert arms[0..] == arms && sigs[0..] == sigs;
  }

  lemma {:induction false} ArmsCallsAre(arms: seq<Arm>, sigs: seq<Signature>, from: nat)
    requires from <= |arms| == |sigs|
    requires forall i :: from <= i < |arms| ==> Calls(arms[i].body) == {(sigs[i].name, |sigs[i].params|)}
    ensures ArmsCalls(arms[from..]) == Declared(sigs[from..])
    decreases |arms| - from
  {
    if from < |arms| {
      ArmsCallsAre(arms, sigs, from + 1);
      assert arms[from..][1..] == arms[from + 1..];
      assert sigs[from..] == [sigs[from]] + sigs[from + 1..];
      DeclaredAppend([sigs[from]], sigs[from + 1..]);
    }
  }

  lemma DeclaredAppend(a: seq<Signature>, b: seq<Signature>)
    ensures Declared(a + b) == Declared(a) + Declared(b)
  {
  }

  /** `writeParseFunctions` fails exactly when some production has an alternative branch that is an alternative. */
  lemma {:induction false} FunctionsShape(d: Definition, ps: seq<Production>)
    ensures CompileFunctions(d, ps).Ok? <==> forall i :: 0 <= i < |ps| ==> !NestedTopAlternative(ps[i])
    ensures CompileFunctions(d, ps).Ok? ==>
      && |CompileFunctions(d, ps).value| == |ps|
      && (forall i :: 0 <= i < |ps| ==>
            CompileBody(d, ps[i]).Ok? &&
            CompileFunctions(d, ps).value[i]
            == ParseFunction(ParseFunctionName(ps[i].lhs), ps[i].lhs, CompileBody(d, ps[i]).value))
      && FunctionCalls(CompileFunctions(d, ps).value) == Declared(Signatures(d, ps))
  {
    if ps != [] {
      BodyFails(d, ps[0]);
      FunctionsShape(d, ps[1..]);
      assert forall i :: 1 <= i < |ps| ==> ps[i] == ps[1..][i - 1];
      if CompileFunctions(d, ps).Ok? {
        BodyCalls(d, ps[0]);
        DeclaredAppend(ProductionSignatures(d, ps[0]), Signatures(d, ps[1..]));
        assert CompileFunctions(d, ps).value[1..] == CompileFunctions(d, ps[1..]).value;
      }
    }
  }

  /**
   * The parser class and the visitor interface fit together: the class
   * exists exactly when no alternative production has an alternative
   * branch; it is generic over the visitor's type variables; it has one
   * parse function per production, in order; and its parse functions call
   * exactly the methods the interface declares, each with one argument per
   * parameter.
   */
  lemma {:induction false} ParserMatchesVisitor(d: Definition)
    ensures CompileParser(d).Ok? <==> forall p :: p in d.productions ==> !NestedTopAlternative(p)
    ensures CompileParser(d).Ok? ==>
      && CompileParser(d).value.typeVariables == WriteVisitor(d).typeVariables
      && |CompileParser(d).value.functions| == |d.productions|
      && (forall i :: 0 <= i < |d.productions| ==>
            CompileParser(d).value.functions[i].name == ParseFunctionName(d.productions[i].lhs))
      && FunctionCalls(CompileParser(d).value.functions) == Declared(WriteVisitor(d).methods)
  {
    FunctionsShape(d, d.productions);
  }

  /** The corrected generator refuses exactly the same productions. */
  lemma {:induction false} RepairedFailsAlike(d: Definition, ps: seq<Production>)
    ensures FixedFunctions(d, ps).Ok? <==> CompileFunctions(d, ps).Ok?
  {
    if ps != [] {
      RepairedBodyFailsAlike(d, ps[0]);
      RepairedFailsAlike(d, ps[1..]);
    }
  }

  lemma {:induction false} RepairedBodyFailsAlike(d: Definition, p: Production)
    ensures FixedBody(d, p).Ok? <==> CompileBody(d, p).Ok?
  {
    if p.expr.Alternative? {
      RepairedArmsFailAlike(d, p.lhs, p.expr.exprs, 0);
    }
  }

  lemma {:induction false} RepairedArmsFailAlike(d: Definition, lhs: string, es: seq<Expr>, from: nat)
    ensures FixedTopArms(d, lhs, es, from).Ok? <==> CompileTopArms(d, lhs, es, from).Ok?
    decreases |es| - from
  {
    if from < |es| {
      RepairedArmsFailAlike(d, lhs, es, from + 1);
    }
  }
}
