/**
 * Where the generator as written is right. The two callback defects only
 * show when an alternative or a `Many` is nested where its caller's
 * callback cannot take the value it is handed; `Supported` describes the
 * nestings where they do not, and for those the code `writeExpr` emits is
 * exactly the corrected generator's. So for every grammar all of whose
 * productions are supported, the correctness theorem of module Correctness
 * holds for the class the generator as written emits.
 */
module Agreement {
  import opened Wrappers
  import opened Names
  import opened Grammar
  import opened Types
  import opened Visitor
  import opened Plan
  import opened Semantics
  import opened Reference
  import opened Generator
  import opened Repaired
  import opened Correctness

  /**
   * `e`, written into variable `v` with callback `k`, behaves as if its
   * value went to sink `s`: every callback it calls hands on exactly what
   * the sink would receive, and a nested `Many` has nothing to hand on
   * from inside its loop.
   */
  predicate Supported(e: Expr, k: Assigner, s: Sink, v: string)
    decreases e
  {
    match e
    case Identifier(_) => Emit(k, Var(v)) == EmitFixed(s, Var(v))
    case Sequence(es) =>
      && Emit(k, Var(v)) == EmitFixed(s, Var(v))
      && forall j :: 0 <= j < |es| ==>
           Supported(es[j], Ignore, BindTo(ElementName(v, j)), ElementName(v, j))
    case Alternative(es) =>
      forall i :: 0 <= i < |es| ==>
        Supported(es[i], WrapUnion(|es|, i, v, k), Wrap(|es|, i, s), v)
    case Many(x) =>
      && Emit(k, Var(v)) == [] && EmitFixed(s, Var(v)) == []
      && Supported(x, AddTemp(v, TempName(v)), AddTo(v), TempName(v))
    case Optional(x) =>
      && Emit(k, Var(v)) == EmitFixed(s, Var(v))
      && Supported(x, SetTemp(v, TempName(v)), SetTo(v), TempName(v))
  }

  /** A production body `writeTopLevelExpresseion` writes the same code for as the corrected generator. */
  predicate TopSupported(e: Expr)
  {
    match e
    case Identifier(_) => true
    case Sequence(es) =>
      forall j :: 0 <= j < |es| ==> Supported(es[j], Ignore, BindTo(ElementName("a", j)), ElementName("a", j))
    case Alternative(_) => true
    case Many(x) => Supported(x, AddArg("a"), AddTo("a"), "at")
    case Optional(x) => Supported(x, SetArg("a"), SetTo("a"), "at")
  }

  predicate ProductionSupported(p: Production)
  {
    match p.expr
    case Alternative(es) => forall i :: 0 <= i < |es| ==> TopSupported(es[i])
    case _ => TopSupported(p.expr)
  }

  predicate GrammarSupported(d: Definition)
  {
    forall i :: 0 <= i < |d.productions| ==> ProductionSupported(d.productions[i])
  }

  /** On a supported expression `writeExpr` emits the corrected generator's code. */
  lemma {:induction false} ExprAgrees(d: Definition, v: string, k: Assigner, s: Sink, e: Expr)
    requires Supported(e, k, s, v)
    ensures CompileExpr(d, v, k, e) == FixedExpr(d, v, s, e)
    decreases e, 2
  {
    match e {
      case Identifier(_) =>
      case Sequence(es) => SequenceAgrees(d, v, k, s, es);
      case Alternative(es) => AlternativeAgrees(d, v, k, s, es);
      case Many(x) =>
        ExprAgrees(d, TempName(v), AddTemp(v, TempName(v)), AddTo(v), x);
        assert CompileExpr(d, TempName(v), AddTemp(v, TempName(v)), x) + [] == FixedExpr(d, TempName(v), AddTo(v), x);
      case Optional(x) =>
        ExprAgrees(d, TempName(v), SetTemp(v, TempName(v)), SetTo(v), x);
    }
  }

  lemma {:induction false} SequenceAgrees(d: Definition, v: string, k: Assigner, s: Sink, es: seq<Expr>)
    requires Supported(Sequence(es), k, s, v)
    ensures CompileExpr(d, v, k, Sequence(es)) == FixedExpr(d, v, s, Sequence(es))
    decreases Sequence(es), 1
  {
    SequenceSupported(v, k, s, es);
    ElementsAgree(d, v, es, 0);
    CompiledSequence(d, v, k, es);
    FixedSequence(d, v, s, es);
  }

  /** What a supported sequence asks of its elements and of its own callback. */
  lemma SequenceSupported(v: string, k: Assigner, s: Sink, es: seq<Expr>)
    requires Supported(Sequence(es), k, s, v)
    ensures Emit(k, Var(v)) == EmitFixed(s, Var(v))
    ensures forall j :: 0 <= j < 0 + |es| ==>
      Supported(es[j - 0], Ignore, BindTo(ElementName(v, j)), ElementName(v, j))
  {
  }

  lemma {:induction false} AlternativeAgrees(d: Definition, v: string, k: Assigner, s: Sink, es: seq<Expr>)
    requires Supported(Alternative(es), k, s, v)
    ensures CompileExpr(d, v, k, Alternative(es)) == FixedExpr(d, v, s, Alternative(es))
    decreases Alternative(es), 1
  {
    forall i | 0 <= i < |es|
      ensures CompileExpr(d, v, WrapUnion(|es|, i, v, k), es[i]) == FixedExpr(d, v, Wrap(|es|, i, s), es[i])
    {
      ExprAgrees(d, v, WrapUnion(|es|, i, v, k), Wrap(|es|, i, s), es[i]);
    }
    assert CompileExpr(d, v, k, Alternative(es))[0].arms == FixedArms(d, v, s, es);
  }

  lemma {:induction false} ElementsAgree(d: Definition, v: string, es: seq<Expr>, start: nat)
    requires forall j :: start <= j < start + |es| ==>
      Supported(es[j - start], Ignore, BindTo(ElementName(v, j)), ElementName(v, j))
    ensures CompileElements(d, v, es, start) == FixedElements(d, v, es, start)
    decreases es, 0
  {
    if es != [] {
      assert Supported(es[start - start], Ignore, BindTo(ElementName(v, start)), ElementName(v, start));
      ExprAgrees(d, ElementName(v, start), Ignore, BindTo(ElementName(v, start)), es[0]);
      forall j | start + 1 <= j < start + 1 + |es[1..]|
        ensures Supported(es[1..][j - (start + 1)], Ignore, BindTo(ElementName(v, j)), ElementName(v, j))
      {
        assert es[1..][j - (start + 1)] == es[j - start];
      }
      ElementsAgree(d, v, es[1..], start + 1);
    }
  }

  /** On a supported production body `writeTopLevelExpresseion` agrees with the corrected generator, failures included. */
  lemma {:induction false} TopLevelAgrees(d: Definition, visitorName: string, e: Expr)
    requires TopSupported(e)
    ensures CompileTopLevel(d, visitorName, e) == FixedTopLevel(d, visitorName, e)
  {
    match e {
      case Identifier(_) =>
      case Sequence(es) =>
        TopSequenceAgrees(d, visitorName, es);
      case Alternative(_) =>
      case Many(x) =>
        ExprAgrees(d, "at", AddArg("a"), AddTo("a"), x);
      case Optional(x) =>
        ExprAgrees(d, "at", SetArg("a"), SetTo("a"), x);
    }
  }

  lemma {:induction false} TopSequenceAgrees(d: Definition, visitorName: string, es: seq<Expr>)
    requires TopSupported(Sequence(es))
    ensures CompileTopLevel(d, visitorName, Sequence(es)) == FixedTopLevel(d, visitorName, Sequence(es))
  {
    assert forall j :: 0 <= j < 0 + |es| ==> es[j - 0] == es[j];
    ElementsAgree(d, "a", es, 0);
    var ret := [Return(MethodName(visitorName), seq(|es|, i requires 0 <= i < |es| => Var(ElementName("a", i))))];
    assert CompileTopLevel(d, visitorName, Sequence(es)) == Ok(CompileElements(d, "a", es, 0) + ret);
    assert FixedTopLevel(d, visitorName, Sequence(es)) == Ok(FixedElements(d, "a", es, 0) + ret);
  }

  lemma {:induction false} TopArmsAgree(d: Definition, lhs: string, es: seq<Expr>, from: nat)
    requires forall i :: 0 <= i < |es| ==> TopSupported(es[i])
    ensures CompileTopArms(d, lhs, es, from) == FixedTopArms(d, lhs, es, from)
    decreases |es| - from
  {
    if from < |es| {
      TopLevelAgrees(d, BranchVisitorName(lhs, from), es[from]);
      TopArmsAgree(d, lhs, es, from + 1);
    }
  }

  lemma {:induction false} BodyAgrees(d: Definition, p: Production)
    requires ProductionSupported(p)
    ensures CompileBody(d, p) == FixedBody(d, p)
  {
    if p.expr.Alternative? {
      TopArmsAgree(d, p.lhs, p.expr.exprs, 0);
    } else {
      TopLevelAgrees(d, p.lhs, p.expr);
    }
  }

  lemma {:induction false} FunctionsAgree(d: Definition, ps: seq<Production>)
    requires forall i :: 0 <= i < |ps| ==> ProductionSupported(ps[i])
    ensures CompileFunctions(d, ps) == FixedFunctions(d, ps)
  {
    if ps != [] {
      BodyAgrees(d, ps[0]);
      FunctionsAgree(d, ps[1..]);
    }
  }

  /** For a supported grammar the generator as written emits the corrected generator's class. */
  lemma {:induction false} ParserAgrees(d: Definition)
    requires GrammarSupported(d)
    ensures CompileParser(d) == FixedParser(d)
  {
    FunctionsAgree(d, d.productions);
  }

  /**
   * The correctness theorem for the generator as written: on a
   * well-formed, supported grammar each emitted parse function computes
   * its production's reference result.
   */
  lemma {:induction false} GeneratedParserCorrect(d: Definition, tokens: seq<Token>, p: Production, pos: nat, fuel: nat)
    requires WellFormed(d) && GrammarSupported(d) && CompileParser(d).Ok? && p in d.productions
    ensures ParseFunctionName(p.lhs) in FunctionTable(CompileParser(d).value.functions)
    ensures Exec(Ctx(tokens, FunctionTable(CompileParser(d).value.functions)),
                 FunctionTable(CompileParser(d).value.functions)[ParseFunctionName(p.lhs)], map[], pos, fuel)
         == AsOutcome(DenoteProduction(d, tokens, p, pos, fuel))
  {
    ParserAgrees(d);
    ParserCorrect(d, tokens, p, pos, fuel);
  }
}
