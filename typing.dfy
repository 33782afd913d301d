/**
 * The generated parser is well typed against the generated visitor: the
 * value a parse computes for an expression `e` has the type `writeExprType`
 * gives `e` (mod.ts:117-148), and every visitor method the parse calls is a
 * method of the generated `Visitor` interface (mod.ts:150-189), called with
 * as many arguments as it declares parameters, each of the declared type.
 *
 * A result type `T_<lhs>` is what the visitor methods of production `lhs`
 * return, so it is inhabited by the results of exactly those methods:
 * `visit<lhs>`, or `visit<lhs><i+1>` for branch `i` of an alternative body.
 */
module Typing {
  import opened Wrappers
  import opened Names
  import opened Grammar
  import opened Types
  import opened Visitor
  import opened Semantics
  import opened Reference
  import opened Generator
  import opened Correctness
  import opened Agreement

  /** `visit` is a method the generated interface declares for production `lhs`, so it returns `T_<lhs>`. */
  ghost predicate ReturnsResultOf(visit: string, lhs: string)
  {
    visit == MethodName(lhs) || exists i: nat :: visit == MethodName(BranchVisitorName(lhs, i))
  }

  /** `v` is a value of the Kotlin type `t`. */
  ghost predicate Inhabits(v: Value, t: DerivedType)
    decreases t
  {
    match t
    case TokenType => v.TokenValue?
    case ResultType(n) => v.VisitValue? && ReturnsResultOf(v.visit, n)
    case TupleType(ts) =>
      v.TupleValue? && |v.items| == |ts| && forall i :: 0 <= i < |ts| ==> Inhabits(v.items[i], ts[i])
    case UnionType(ts) =>
      v.UnionValue? && v.arity == |ts| && v.index < |ts| && Inhabits(v.item, ts[v.index])
    case ListType(item) =>
      v.ListValue? && forall i :: 0 <= i < |v.items| ==> Inhabits(v.items[i], item)
    case NullableType(item) => v.NullValue? || Inhabits(v, item)
  }

  /**
   * Result types of different productions are told apart: in the test
   * grammar's `visitManyIds(a1: T_Id, a2: T_Ids)`, the result of `visitIds`
   * cannot stand for `a1`, nor the result of `visitId` for `a2`.
   */
  lemma ResultTypesDistinct()
    ensures Inhabits(VisitValue("visitId", []), ResultType("Id"))
    ensures !Inhabits(VisitValue("visitIds", []), ResultType("Id"))
    ensures !Inhabits(VisitValue("visitId", []), ResultType("Ids"))
    ensures !Fits([VisitValue("visitIds", []), VisitValue("visitId", [])],
                  [Param("a1", ResultType("Id")), Param("a2", ResultType("Ids"))])
  {
    forall i: nat
      ensures "visitIds" != MethodName(BranchVisitorName("Id", i))
      ensures "visitId" != MethodName(BranchVisitorName("Ids", i))
    {
      var m := MethodName(BranchVisitorName("Id", i));
      assert m == "visitId" + NatToString(i + 1);
      assert '0' <= m[7] <= '9' && "visitIds"[7] == 's';
      assert |MethodName(BranchVisitorName("Ids", i))| > |"visitId"|;
    }
    var args := [VisitValue("visitIds", []), VisitValue("visitId", [])];
    var params := [Param("a1", ResultType("Id")), Param("a2", ResultType("Ids"))];
    assert !Inhabits(args[0], params[0].ty);
  }

  /** Arguments that fit a parameter list: one per parameter, each of its parameter's type. */
  ghost predicate Fits(args: seq<Value>, params: seq<Param>)
  {
    |args| == |params| && forall i :: 0 <= i < |args| ==> Inhabits(args[i], params[i].ty)
  }

  /** The value of an expression has the expression's derived type. */
  lemma {:induction false} DenoteWellTyped(d: Definition, tokens: seq<Token>, e: Expr, pos: nat, fuel: nat)
    ensures Denote(d, tokens, e, pos, fuel).Parsed? ==>
      Inhabits(Denote(d, tokens, e, pos, fuel).value, ExprType(d, e))
    decreases fuel, 0, e
  {
    match e
    case Identifier(n) =>
      if n in d.nonTerminalNames && fuel > 0 {
        match ProductionFor(d.productions, n) {
          case Some(p) => ProductionResult(d, tokens, p, pos, fuel - 1);
          case None =>
        }
      }
    case Sequence(es) =>
      AllWellTyped(d, tokens, es, pos, fuel);
    case Alternative(es) =>
      var t := Peek(tokens, pos);
      match FirstMatch(d, es, t.kind, 0) {
        case Some(i) => DenoteWellTyped(d, tokens, es[i], pos, fuel);
        case None =>
      }
    case Many(x) =>
      ManyWellTyped(d, tokens, x, pos, fuel);
    case Optional(x) =>
      DenoteWellTyped(d, tokens, x, pos, fuel);
  }

  /** A production's parse returns the result of one of that production's visitor methods. */
  lemma ProductionResult(d: Definition, tokens: seq<Token>, p: Production, pos: nat, fuel: nat)
    ensures DenoteProduction(d, tokens, p, pos, fuel).Parsed? ==>
      ReturnsResultOf(DenoteProduction(d, tokens, p, pos, fuel).value.visit, p.lhs)
  {
    if p.expr.Alternative? {
      match FirstMatch(d, p.expr.exprs, Peek(tokens, pos).kind, 0) {
        case Some(i) =>
          var r := DenoteTop(d, tokens, BranchVisitorName(p.lhs, i), p.expr.exprs[i], pos, fuel);
          if r.Parsed? {
            assert r.value.visit == MethodName(BranchVisitorName(p.lhs, i));
          }
        case None =>
      }
    }
  }

  /** The values of a sequence's elements have the elements' types, in order. */
  lemma {:induction false} AllWellTyped(d: Definition, tokens: seq<Token>, es: seq<Expr>, pos: nat, fuel: nat)
    ensures DenoteAll(d, tokens, es, pos, fuel).Parsed? ==>
      forall i :: 0 <= i < |es| ==> Inhabits(DenoteAll(d, tokens, es, pos, fuel).value[i], ExprType(d, es[i]))
    decreases fuel, 0, es
  {
    if es != [] {
      DenoteWellTyped(d, tokens, es[0], pos, fuel);
      match Denote(d, tokens, es[0], pos, fuel) {
        case ParseFailed(_) =>
        case Parsed(v, p) =>
          AllWellTyped(d, tokens, es[1..], p, fuel);
          match DenoteAll(d, tokens, es[1..], p, fuel) {
            case ParseFailed(_) =>
            case Parsed(vs, _) =>
              forall i | 0 <= i < |es|
                ensures Inhabits(([v] + vs)[i], ExprType(d, es[i]))
              {
                if i > 0 {
                  assert ([v] + vs)[i] == vs[i - 1] && es[i] == es[1..][i - 1];
                }
              }
          }
      }
    }
  }

  /** Every item of a repetition has the type of the repeated expression. */
  lemma {:induction false} ManyWellTyped(d: Definition, tokens: seq<Token>, x: Expr, pos: nat, fuel: nat)
    ensures DenoteMany(d, tokens, x, pos, fuel).Parsed? ==>
      forall i :: 0 <= i < |DenoteMany(d, tokens, x, pos, fuel).value| ==>
        Inhabits(DenoteMany(d, tokens, x, pos, fuel).value[i], ExprType(d, x))
    decreases fuel, 0, x
  {
    if Peek(tokens, pos).kind in Kinds(d, x) && fuel > 0 {
      DenoteWellTyped(d, tokens, x, pos, fuel - 1);
      match Denote(d, tokens, x, pos, fuel - 1) {
        case ParseFailed(_) =>
        case Parsed(v, p) =>
          ManyWellTyped(d, tokens, x, p, fuel - 1);
          match DenoteMany(d, tokens, x, p, fuel - 1) {
            case ParseFailed(_) =>
            case Parsed(vs, _) =>
              forall i | 0 <= i < |[v] + vs|
                ensures Inhabits(([v] + vs)[i], ExprType(d, x))
              {
                if i > 0 {
                  assert ([v] + vs)[i] == vs[i - 1];
                }
              }
          }
      }
    }
  }

  /** The visitor call of a body that is not dispatched on fits the parameters `writeParameters` declares for it. */
  lemma {:induction false} TopWellTyped(d: Definition, tokens: seq<Token>, visitorName: string, e: Expr, pos: nat, fuel: nat)
    ensures DenoteTop(d, tokens, visitorName, e, pos, fuel).Parsed? ==>
      Fits(DenoteTop(d, tokens, visitorName, e, pos, fuel).value.args, Parameters(d, e))
  {
    if e.Sequence? {
      AllWellTyped(d, tokens, e.exprs, pos, fuel);
    } else {
      DenoteWellTyped(d, tokens, e, pos, fuel);
    }
  }

  /**
   * A production's parse calls one of the methods `writeProduction`
   * declares for that production, with arguments that fit it.
   */
  lemma {:induction false} ProductionWellTyped(d: Definition, tokens: seq<Token>, p: Production, pos: nat, fuel: nat)
    ensures DenoteProduction(d, tokens, p, pos, fuel).Parsed? ==>
      var v := DenoteProduction(d, tokens, p, pos, fuel).value;
      exists s :: s in ProductionSignatures(d, p) && s.name == v.visit && Fits(v.args, s.params)
  {
    ProductionSignaturesShape(d, p);
    match p.expr
    case Alternative(es) =>
      var t := Peek(tokens, pos);
      match FirstMatch(d, es, t.kind, 0) {
        case Some(i) =>
          TopWellTyped(d, tokens, BranchVisitorName(p.lhs, i), es[i], pos, fuel);
          if DenoteProduction(d, tokens, p, pos, fuel).Parsed? {
            assert ProductionSignatures(d, p)[i] in ProductionSignatures(d, p);
          }
        case None =>
      }
    case _ =>
      TopWellTyped(d, tokens, p.lhs, p.expr, pos, fuel);
  }

  /** Every visitor call a parse makes is a call of a method of the generated interface, with arguments that fit it. */
  lemma {:induction false} CallsMatchInterface(d: Definition, tokens: seq<Token>, p: Production, pos: nat, fuel: nat)
    requires p in d.productions
    ensures DenoteProduction(d, tokens, p, pos, fuel).Parsed? ==>
      var v := DenoteProduction(d, tokens, p, pos, fuel).value;
      exists s :: s in WriteVisitor(d).methods && s.name == v.visit && Fits(v.args, s.params)
  {
    ProductionWellTyped(d, tokens, p, pos, fuel);
    SignaturesOfProductions(d, d.productions);
    if DenoteProduction(d, tokens, p, pos, fuel).Parsed? {
      var v := DenoteProduction(d, tokens, p, pos, fuel).value;
      var s :| s in ProductionSignatures(d, p) && s.name == v.visit && Fits(v.args, s.params);
      var j :| 0 <= j < |d.productions| && d.productions[j] == p;
      assert s in Signatures(d, d.productions);
    }
  }

  /**
   * On a grammar where the generator as written is correct, the value its
   * parse function returns is the result of a visitor method of the
   * generated interface, called with arguments that fit that method.
   */
  lemma {:induction false} GeneratedCallsWellTyped(d: Definition, tokens: seq<Token>, p: Production, pos: nat, fuel: nat)
    requires WellFormed(d) && GrammarSupported(d) && CompileParser(d).Ok? && p in d.productions
    ensures ParseFunctionName(p.lhs) in FunctionTable(CompileParser(d).value.functions)
    ensures
      var o := Exec(Ctx(tokens, FunctionTable(CompileParser(d).value.functions)),
                    FunctionTable(CompileParser(d).value.functions)[ParseFunctionName(p.lhs)], map[], pos, fuel);
      o.Returned? ==>
        && o.value.VisitValue?
        && exists s :: s in WriteVisitor(d).methods && s.name == o.value.visit && Fits(o.value.args, s.params)
  {
    GeneratedParserCorrect(d, tokens, p, pos, fuel);
    CallsMatchInterface(d, tokens, p, pos, fuel);
  }
}
