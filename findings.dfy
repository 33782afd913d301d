/**
 * Two defects of `writeExpr` (mod.ts:194-332), each shown on a concrete
 * one-production grammar: the class the generator as written emits
 * computes something other than the reference parse, while the corrected
 * generator of module Repaired computes exactly the reference parse (as
 * module Correctness proves for every grammar).
 *
 * 1. An alternative that is an element of a sequence (or the body of a
 *    nested `Many` or `Optional`) hands its caller a callback that ignores
 *    its argument, so the union value `Union<n><x>(v)` is never stored:
 *    the element variable keeps the bare value of the branch, which does
 *    not fit the union type the visitor method declares for it. In the
 *    emitted Kotlin that variable is declared only inside the `when` arm.
 * 2. A `Many` nested where its caller collects values (the body of a
 *    top-level `Many`, or of a nested `Many`) calls its caller's callback
 *    inside its loop, once per item, instead of once after the loop.
 */
module Findings {
  import opened Wrappers
  import opened Names
  import opened Grammar
  import opened Types
  import opened Visitor
  import opened Plan
  import opened Semantics
  import opened Reference
  import opened Generator
  import opened Repaired
  import opened Correctness
  import opened Typing

  /** FIRST sets for grammars over terminals only: an identifier starts with its own kind. */
  function TerminalFirst(e: Expr): seq<string>
    decreases e, 1
  {
    match e
    case Identifier(n) => [n]
    case Sequence(es) => if es == [] then [Epsilon] else TerminalFirst(es[0])
    case Alternative(es) => FirstOfEach(es)
    case Many(x) => TerminalFirst(x) + [Epsilon]
    case Optional(x) => TerminalFirst(x) + [Epsilon]
  }

  function FirstOfEach(es: seq<Expr>): seq<string>
    decreases es, 0
  {
    if es == [] then [] else TerminalFirst(es[0]) + FirstOfEach(es[1..])
  }

  /** `S: (A | B)` written as a sequence of one element, that element an alternative. */
  const UnionGrammar: Definition :=
    Definition([Production("S", Sequence([Alternative([Identifier("A"), Identifier("B")])]))], {"S"}, TerminalFirst)

  const OneA: seq<Token> := [Token("A", "a")]

  /** As written: the visitor receives the token itself, not `Union2a(token)`. */
  lemma NestedAlternativeAsWritten()
    ensures CompileParser(UnionGrammar).Ok?
    ensures
      var ctx := Ctx(OneA, FunctionTable(CompileParser(UnionGrammar).value.functions));
      Exec(ctx, ctx.functions["s"], map[], 0, 3)
        == Returned(VisitValue("visitS", [TokenValue(Token("A", "a"))]), 1)
  {
    var d := UnionGrammar;
    var es := [Identifier("A"), Identifier("B")];
    var alt := Alternative(es);
    assert Kinds(d, Identifier("A")) == ["A"] by {
      assert d.first(Identifier("A")) == ["A"];
    }
    assert ElementName("a", 0) == "a1" by {
      assert NatToString(1) == "1";
    }
    var decl := Declare("a1", TokenType, MatchToken("A"));
    var when := CompileExpr(d, "a1", Ignore, alt);
    assert "A" !in d.nonTerminalNames;
    assert TestFor(d, Identifier("A")) == IsToken("A");
    assert CompileExpr(d, "a1", WrapUnion(2, 0, "a1", Ignore), Identifier("A")) == [decl] + [];
    assert when[0].arms[0] == Arm(IsToken("A"), [decl]);
    assert [alt][0] == alt && [alt][1..] == [];
    assert CompileElements(d, "a", [alt], 0) == when + [];
    var ret := Return("visitS", [Var("a1")]);
    assert MethodName("S") == "visitS";
    assert seq(1, i requires 0 <= i < 1 => Var(ElementName("a", i))) == [Var("a1")];
    assert CompileTopLevel(d, "S", Sequence([alt])).value == when + [ret];
    assert ParseFunctionName("S") == "s";
    var body := when + [ret];
    assert CompileFunctions(d, d.productions) == Ok([ParseFunction("s", "S", body)]) by {
      assert d.productions[1..] == [];
      assert CompileBody(d, d.productions[0]) == Ok(body);
      assert CompileFunctions(d, []) == Ok([]);
      assert [ParseFunction("s", "S", body)] + [] == [ParseFunction("s", "S", body)];
    }
    var ctx := Ctx(OneA, FunctionTable(CompileParser(d).value.functions));
    assert ctx.functions["s"] == body;
    ExecWhen(ctx, when[0].arms, when[0].expected, [ret], map[], 0, 3);
    assert SelectArm(when[0].arms, "A", 0) == Some(0);
    var tok := TokenValue(Token("A", "a"));
    ExecAppend(ctx, [decl], [ret], map[], 0, 3);
    assert Exec(ctx, [decl], map[], 0, 3) == Normal(map["a1" := tok], 1);
    assert Exec(ctx, [ret], map["a1" := tok], 1, 3) == Returned(VisitValue("visitS", [tok]), 1) by {
      assert [Var("a1")][1..] == [];
      assert EvalArgs(ctx, [], map["a1" := tok], 1, 3) == Evaluated([], 1);
      assert [tok] + [] == [tok];
    }
  }

  lemma NestedAlternativeReference()
    ensures DenoteProduction(UnionGrammar, OneA, UnionGrammar.productions[0], 0, 3)
         == Parsed(VisitValue("visitS", [UnionValue(2, 0, TokenValue(Token("A", "a")))]), 1)
  {
    var d := UnionGrammar;
    var es := [Identifier("A"), Identifier("B")];
    var alt := Alternative(es);
    assert Kinds(d, Identifier("A")) == ["A"] by {
      assert d.first(Identifier("A")) == ["A"];
    }
    assert FirstMatch(d, es, "A", 0) == Some(0);
    var tok := TokenValue(Token("A", "a"));
    assert Denote(d, OneA, Identifier("A"), 0, 3) == Parsed(tok, 1);
    assert Denote(d, OneA, alt, 0, 3) == Parsed(UnionValue(2, 0, tok), 1);
    assert [alt][0] == alt && [alt][1..] == [];
    assert DenoteAll(d, OneA, [], 1, 3) == Parsed([], 1);
    assert [UnionValue(2, 0, tok)] + [] == [UnionValue(2, 0, tok)];
    assert DenoteAll(d, OneA, [alt], 0, 3) == Parsed([UnionValue(2, 0, tok)], 1);
    assert MethodName("S") == "visitS";
  }

  /** `L: A**`: a list of lists of `A`, the inner list taking every `A` in a row. */
  const ListGrammar: Definition :=
    Definition([Production("L", Many(Many(Identifier("A"))))], {"L"}, TerminalFirst)

  const TwoA: seq<Token> := [Token("A", "a1"), Token("A", "a2")]

  /** The code the generator as written emits for `A**`: the inner loop adds its list to the outer list after every item. */
  const ManyInner: seq<Stmt> := [Declare("att", TokenType, MatchToken("A")), Add("at", Var("att")), Add("a", Var("at"))]
  const ManyOuter: seq<Stmt> := [Declare("at", ListType(TokenType), NewList), While(IsToken("A"), ManyInner)]
  const ManyBody: seq<Stmt> :=
    [Declare("a", ListType(ListType(TokenType)), NewList), While(IsToken("A"), ManyOuter), Return("visitL", [Var("a")])]

  lemma NestedManyCode()
    ensures CompileParser(ListGrammar).Ok?
    ensures CompileParser(ListGrammar).value.functions == [ParseFunction("l", "L", ManyBody)]
  {
    var d := ListGrammar;
    var ida := Identifier("A");
    assert Kinds(d, ida) == ["A"] by {
      assert d.first(ida) == ["A"];
    }
    assert Kinds(d, Many(ida)) == ["A"] by {
      assert d.first(Many(ida)) == ["A", Epsilon];
      assert RemoveEpsilon([Epsilon]) == [] + RemoveEpsilon([]);
      assert RemoveEpsilon(["A", Epsilon]) == ["A"] + RemoveEpsilon([Epsilon]);
    }
    assert TestFor(d, ida) == IsToken("A");
    assert TestFor(d, Many(ida)) == IsToken("A");
    assert TempName("at") == "att";
    assert CompileExpr(d, "att", AddTemp("at", "att"), ida) == ManyInner[..2];
    assert ManyInner[..2] + Emit(AddArg("a"), Var("at")) == ManyInner;
    assert CompileExpr(d, "at", AddArg("a"), Many(ida)) == ManyOuter;
    assert MethodName("L") == "visitL";
    assert CompileTopLevel(d, "L", Many(Many(ida))).value == ManyBody;
    assert ParseFunctionName("L") == "l";
    assert d.productions[1..] == [];
    assert CompileBody(d, d.productions[0]) == Ok(ManyBody);
    assert CompileFunctions(d, []) == Ok([]);
    assert [ParseFunction("l", "L", ManyBody)] + [] == [ParseFunction("l", "L", ManyBody)];
  }

  /** One iteration of the inner loop. */
  lemma InnerIteration(ctx: Ctx, env: Env, pos: nat, fuel: nat)
    requires ctx.tokens == TwoA && pos < 2
    requires "a" in env && env["a"].ListValue? && "at" in env && env["at"].ListValue?
    ensures
      var t := TokenValue(TwoA[pos]);
      var at := ListValue(env["at"].items + [t]);
      Exec(ctx, ManyInner, env, pos, fuel)
        == Normal(env["att" := t]["at" := at]["a" := ListValue(env["a"].items + [at])], pos + 1)
  {
    var t := TokenValue(TwoA[pos]);
    var at := ListValue(env["at"].items + [t]);
    var e1 := env["att" := t];
    var e2 := e1["at" := at];
    var e3 := e2["a" := ListValue(env["a"].items + [at])];
    assert Exec(ctx, ManyInner[2..], e2, pos + 1, fuel) == Normal(e3, pos + 1) by {
      assert ManyInner[2..][1..] == [];
    }
    assert Exec(ctx, ManyInner[1..], e1, pos + 1, fuel) == Normal(e3, pos + 1) by {
      assert ManyInner[1..][1..] == ManyInner[2..];
    }
  }

  /** The environment after the inner loop has taken both tokens. */
  function ManyFinalEnv(): Env
  {
    var a1 := TokenValue(Token("A", "a1"));
    var a2 := TokenValue(Token("A", "a2"));
    map["a" := ListValue([ListValue([a1]), ListValue([a1, a2])]), "at" := ListValue([a1, a2]), "att" := a2]
  }

  /** The inner loop on `A A`: two iterations, each adding the inner list to the outer one. */
  lemma InnerLoopRun(ctx: Ctx)
    requires ctx.tokens == TwoA
    ensures Loop(ctx, IsToken("A"), ManyInner, map["a" := ListValue([]), "at" := ListValue([])], 0, 4)
         == Normal(ManyFinalEnv(), 2)
  {
    var test := IsToken("A");
    var a1 := TokenValue(Token("A", "a1"));
    var a2 := TokenValue(Token("A", "a2"));
    var env1 := map["a" := ListValue([]), "at" := ListValue([])];
    var env2 := env1["att" := a1]["at" := ListValue([a1])]["a" := ListValue([ListValue([a1])])];
    var env3 := ManyFinalEnv();
    InnerIteration(ctx, env1, 0, 3);
    assert [] + [a1] == [a1] && [] + [ListValue([a1])] == [ListValue([a1])];
    InnerIteration(ctx, env2, 1, 2);
    assert [a1] + [a2] == [a1, a2];
    assert [ListValue([a1])] + [ListValue([a1, a2])] == [ListValue([a1]), ListValue([a1, a2])];
    assert env2["att" := a2]["at" := ListValue([a1, a2])]["a" := ListValue([ListValue([a1]), ListValue([a1, a2])])] == env3;
    assert Exec(ctx, ManyInner, env2, 1, 2) == Normal(env3, 2);
    assert Loop(ctx, test, ManyInner, env3, 2, 2) == Normal(env3, 2);
    assert Loop(ctx, test, ManyInner, env2, 1, 3) == Normal(env3, 2);
  }

  /** The one iteration of the outer loop on `A A`. */
  lemma OuterIterationRun(ctx: Ctx)
    requires ctx.tokens == TwoA
    ensures Exec(ctx, ManyOuter, map["a" := ListValue([])], 0, 4) == Normal(ManyFinalEnv(), 2)
  {
    var env1 := map["a" := ListValue([]), "at" := ListValue([])];
    InnerLoopRun(ctx);
    assert map["a" := ListValue([])]["at" := ListValue([])] == env1;
    assert Exec(ctx, ManyOuter[1..], env1, 0, 4) == Normal(ManyFinalEnv(), 2) by {
      assert ManyOuter[1..][1..] == [];
    }
  }

  /** Run on `A A`, the emitted body returns a list with one entry per item of the inner list. */
  lemma NestedManyRun(ctx: Ctx)
    requires ctx.tokens == TwoA
    ensures
      var a1 := TokenValue(Token("A", "a1"));
      var a2 := TokenValue(Token("A", "a2"));
      Exec(ctx, ManyBody, map[], 0, 5)
        == Returned(VisitValue("visitL", [ListValue([ListValue([a1]), ListValue([a1, a2])])]), 2)
  {
    var test := IsToken("A");
    var env3 := ManyFinalEnv();
    var env0 := map["a" := ListValue([])];
    OuterIterationRun(ctx);
    assert Loop(ctx, test, ManyOuter, env3, 2, 4) == Normal(env3, 2);
    assert Loop(ctx, test, ManyOuter, env0, 0, 5) == Normal(env3, 2);
    var result := env3["a"];
    ExecReturnA(ctx, env3, 2, 5);
    assert Exec(ctx, ManyBody[1..], env0, 0, 5) == Returned(VisitValue("visitL", [result]), 2) by {
      assert ManyBody[1..][1..] == ManyBody[2..];
    }
    assert map[]["a" := ListValue([])] == env0;
  }

  lemma ExecReturnA(ctx: Ctx, env: Env, pos: nat, fuel: nat)
    requires "a" in env
    ensures Exec(ctx, ManyBody[2..], env, pos, fuel) == Returned(VisitValue("visitL", [env["a"]]), pos)
  {
    assert ManyBody[2..] == [Return("visitL", [Var("a")])];
    ExecReturnVar(ctx, "visitL", "a", env, pos, fuel);
  }

  /** As written: the inner list is added to the outer one after each of its items, giving two entries. */
  lemma NestedManyAsWritten()
    ensures CompileParser(ListGrammar).Ok?
    ensures
      var ctx := Ctx(TwoA, FunctionTable(CompileParser(ListGrammar).value.functions));
      var a1 := TokenValue(Token("A", "a1"));
      var a2 := TokenValue(Token("A", "a2"));
      Exec(ctx, ctx.functions["l"], map[], 0, 5)
        == Returned(VisitValue("visitL", [ListValue([ListValue([a1]), ListValue([a1, a2])])]), 2)
  {
    NestedManyCode();
    var ctx := Ctx(TwoA, FunctionTable(CompileParser(ListGrammar).value.functions));
    assert ctx.functions["l"] == ManyBody;
    NestedManyRun(ctx);
  }

  /** The reference: one entry, the list of both tokens. */
  lemma NestedManyReference()
    ensures
      var a1 := TokenValue(Token("A", "a1"));
      var a2 := TokenValue(Token("A", "a2"));
      DenoteProduction(ListGrammar, TwoA, ListGrammar.productions[0], 0, 5)
        == Parsed(VisitValue("visitL", [ListValue([ListValue([a1, a2])])]), 2)
  {
    var d := ListGrammar;
    var ida := Identifier("A");
    var a1 := TokenValue(Token("A", "a1"));
    var a2 := TokenValue(Token("A", "a2"));
    assert Kinds(d, ida) == ["A"] by {
      assert d.first(ida) == ["A"];
    }
    assert Kinds(d, Many(ida)) == ["A"] by {
      assert d.first(Many(ida)) == ["A", Epsilon];
      assert RemoveEpsilon([Epsilon]) == [] + RemoveEpsilon([]);
      assert RemoveEpsilon(["A", Epsilon]) == ["A"] + RemoveEpsilon([Epsilon]);
    }
    assert DenoteMany(d, TwoA, ida, 2, 2) == Parsed([], 2);
    assert Denote(d, TwoA, ida, 1, 2) == Parsed(a2, 2);
    assert [a2] + [] == [a2];
    assert DenoteMany(d, TwoA, ida, 1, 3) == Parsed([a2], 2);
    assert Denote(d, TwoA, ida, 0, 3) == Parsed(a1, 1);
    assert [a1] + [a2] == [a1, a2];
    assert DenoteMany(d, TwoA, ida, 0, 4) == Parsed([a1, a2], 2);
    assert Denote(d, TwoA, Many(ida), 0, 4) == Parsed(ListValue([a1, a2]), 2);
    assert DenoteMany(d, TwoA, Many(ida), 2, 4) == Parsed([], 2);
    assert [ListValue([a1, a2])] + [] == [ListValue([a1, a2])];
    assert DenoteMany(d, TwoA, Many(ida), 0, 5) == Parsed([ListValue([a1, a2])], 2);
    assert MethodName("L") == "visitL";
  }

  /**
   * The as-written call of the first example does not even fit the
   * generated visitor: `visitS` declares a `Union2<Token, Token>` parameter,
   * which the corrected call fits and the as-written call does not.
   */
  lemma NestedAlternativeIllTyped()
    ensures WriteVisitor(UnionGrammar).methods == [Signature("visitS", [Param("a1", UnionType([TokenType, TokenType]))], "S")]
    ensures !Fits([TokenValue(Token("A", "a"))], [Param("a1", UnionType([TokenType, TokenType]))])
    ensures Fits([UnionValue(2, 0, TokenValue(Token("A", "a")))], [Param("a1", UnionType([TokenType, TokenType]))])
  {
    var d := UnionGrammar;
    var alt := Alternative([Identifier("A"), Identifier("B")]);
    assert d.nonTerminalNames == {"S"};
    assert ExprType(d, Identifier("A")) == TokenType && ExprType(d, Identifier("B")) == TokenType;
    var t := ExprType(d, alt);
    assert t.items[0] == ExprType(d, alt.exprs[0]) && alt.exprs[0] == Identifier("A");
    assert t.items[1] == ExprType(d, alt.exprs[1]) && alt.exprs[1] == Identifier("B");
    assert |t.items| == 2 && t.items[0] == TokenType && t.items[1] == TokenType;
    assert t == UnionType([TokenType, TokenType]);
    assert ArgumentName(0) == "a1" by {
      assert NatToString(1) == "1";
    }
    assert Parameters(d, Sequence([alt])) == [Param("a1", UnionType([TokenType, TokenType]))];
    assert MethodName("S") == "visitS";
    assert d.productions[1..] == [];
    assert Signatures(d, d.productions) == ProductionSignatures(d, d.productions[0]) + [];
    var args := [TokenValue(Token("A", "a"))];
    assert !Inhabits(args[0], UnionType([TokenType, TokenType]));
  }

  /** The well-formed grammar both examples use. */
  lemma ExamplesWellFormed()
    ensures WellFormed(UnionGrammar) && FixedParser(UnionGrammar).Ok?
    ensures WellFormed(ListGrammar) && FixedParser(ListGrammar).Ok?
  {
    FixedFunctionsShape(UnionGrammar, UnionGrammar.productions);
    FixedFunctionsShape(ListGrammar, ListGrammar.productions);
    assert UnionGrammar.productions[0].lhs == "S";
    assert ListGrammar.productions[0].lhs == "L";
  }

  /** Corrected: the class the repaired generator emits hands the visitor `Union2a(token)`. */
  lemma NestedAlternativeRepaired()
    ensures FixedParser(UnionGrammar).Ok?
    ensures
      var ctx := ClassContext(UnionGrammar, OneA);
      && "s" in ctx.functions
      && Exec(ctx, ctx.functions["s"], map[], 0, 3)
         == Returned(VisitValue("visitS", [UnionValue(2, 0, TokenValue(Token("A", "a")))]), 1)
  {
    ExamplesWellFormed();
    assert ParseFunctionName("S") == "s";
    ParserCorrect(UnionGrammar, OneA, UnionGrammar.productions[0], 0, 3);
    NestedAlternativeReference();
  }

  /** Corrected: the class the repaired generator emits hands the visitor one list holding both tokens. */
  lemma NestedManyRepaired()
    ensures FixedParser(ListGrammar).Ok?
    ensures
      var ctx := ClassContext(ListGrammar, TwoA);
      var a1 := TokenValue(Token("A", "a1"));
      var a2 := TokenValue(Token("A", "a2"));
      && "l" in ctx.functions
      && Exec(ctx, ctx.functions["l"], map[], 0, 5)
         == Returned(VisitValue("visitL", [ListValue([ListValue([a1, a2])])]), 2)
  {
    ExamplesWellFormed();
    assert ParseFunctionName("L") == "l";
    ParserCorrect(ListGrammar, TwoA, ListGrammar.productions[0], 0, 5);
    NestedManyReference();
  }
}
