/**
 * The parser generator as written, `writeMkParser` (mod.ts:191-552): each
 * `writeExpr`, `writeTopLevelExpresseion` and `writeTopLevelBody` call
 * becomes a function from the grammar to a plan. The `assign` callback that
 * `writeExpr` threads through is a closure in the source; here it is the
 * `Assigner` datatype and `Emit` applies it.
 */
module Generator {
  import opened Wrappers
  import opened Names
  import opened Grammar
  import opened Types
  import opened Visitor
  import opened Plan

  /** The `assign` callbacks that `writeExpr` is given. */
  datatype Assigner =
    | Ignore                                   // (_) => PP.empty
    | AddTemp(list: string, temp: string)      // () => <list>.add(<temp>)
    | SetTemp(target: string, temp: string)    // () => <target> = <temp>
    | AddArg(list: string)                     // (n) => <list>.add(n)
    | SetArg(target: string)                   // (ns) => <target> = ns
    | WrapUnion(arity: nat, index: nat, variable: string, outer: Assigner)
                                               // () => outer("Union<arity><'a'+index>(<variable>)")

  /** The statements `assign(arg)` contributes. Only `AddArg` and `SetArg` look at `arg`. */
  function Emit(k: Assigner, arg: Rhs): seq<Stmt>
  {
    match k
    case Ignore => []
    case AddTemp(l, t) => [Add(l, Var(t))]
    case SetTemp(x, t) => [Assign(x, Var(t))]
    case AddArg(l) => [Add(l, arg)]
    case SetArg(x) => [Assign(x, arg)]
    case WrapUnion(n, i, v, outer) => Emit(outer, MkUnion(n, i, Var(v)))
  }

  /** What an identifier compiles to: a call of the nonterminal's parse function, or `matchToken`. */
  function IdentifierRhs(d: Definition, name: string): Rhs
  {
    if name in d.nonTerminalNames then CallParse(ParseFunctionName(name)) else MatchToken(name)
  }

  /**
   * `writeIsToken`: `isToken` when `e` starts with exactly one kind,
   * `isTokens(setOf(...))` otherwise; either way the test accepts exactly
   * the kinds that may start `e`.
   */
  function TestFor(d: Definition, e: Expr): (t: Test)
    ensures t.IsToken? <==> |Kinds(d, e)| == 1
    ensures forall kind :: Holds(t, kind) <==> kind in Kinds(d, e)
  {
    var f := Kinds(d, e);
    if |f| == 1 then IsToken(f[0]) else IsTokens(f)
  }

  /** `${variable}${i + 1}`: the variable that holds element `i` (from 0) of a sequence. */
  function ElementName(v: string, i: nat): string
  {
    v + NatToString(i + 1)
  }

  /** `${variable}t`: the variable that holds one item of a `Many` or `Optional`. */
  function TempName(v: string): string
  {
    v + "t"
  }

  /** The names `v1, ..., vn` of the elements of an n-element sequence. */
  function ElementNames(v: string, n: nat): seq<string>
  {
    seq(n, i requires 0 <= i < n => ElementName(v, i))
  }

  /** `writeExpr(variable, assign, e)` */
  function CompileExpr(d: Definition, v: string, k: Assigner, e: Expr): seq<Stmt>
    decreases e
  {
    match e
    case Identifier(n) =>
      [Declare(v, ExprType(d, e), IdentifierRhs(d, n))] + Emit(k, Var(v))
    case Sequence(es) =>
      CompileElements(d, v, es, 0)
      + [Declare(v, ExprType(d, e), MkTuple(ElementNames(v, |es|)))]
      + Emit(k, Var(v))
    case Alternative(es) =>
      [When(seq(|es|, i requires 0 <= i < |es| =>
              Arm(TestFor(d, es[i]), CompileExpr(d, v, WrapUnion(|es|, i, v, k), es[i]))),
            Kinds(d, e))]
    case Many(x) =>
      [ Declare(v, ListType(ExprType(d, x)), NewList),
        While(TestFor(d, x), CompileExpr(d, TempName(v), AddTemp(v, TempName(v)), x) + Emit(k, Var(v))) ]
    case Optional(x) =>
      [ Declare(v, NullableType(ExprType(d, x)), Null),
        If(TestFor(d, x), CompileExpr(d, TempName(v), SetTemp(v, TempName(v)), x)) ]
      + Emit(k, Var(v))
  }

  /** The code `writeExpr` emits for a sequence: its elements, the tuple, the callback. */
  lemma CompiledSequence(d: Definition, v: string, k: Assigner, es: seq<Expr>)
    ensures CompileExpr(d, v, k, Sequence(es)) ==
      CompileElements(d, v, es, 0) + [Declare(v, ExprType(d, Sequence(es)), MkTuple(ElementNames(v, |es|)))] + Emit(k, Var(v))
  {
  }

  /** The elements of a sequence, element `j` of `es` being element `start + j` of the whole. */
  function CompileElements(d: Definition, v: string, es: seq<Expr>, start: nat): seq<Stmt>
    decreases es
  {
    if es == [] then []
    else CompileExpr(d, ElementName(v, start), Ignore, es[0]) + CompileElements(d, v, es[1..], start + 1)
  }

  /** The exception `writeTopLevelExpresseion` throws for an alternative. */
  datatype GenError = InternalError(reason: string, expr: Expr)

  const AlternativeReason: string := "Alternative case should not be encoutered"

  /** `writeTopLevelExpresseion(visitorName, e)`: a body that ends by returning `visitor.visit<visitorName>(...)`. */
  function CompileTopLevel(d: Definition, visitorName: string, e: Expr): Result<seq<Stmt>, GenError>
  {
    var visit := MethodName(visitorName);
    match e
    case Identifier(n) => Ok([Return(visit, [IdentifierRhs(d, n)])])
    case Sequence(es) =>
      Ok(CompileElements(d, "a", es, 0) + [Return(visit, seq(|es|, i requires 0 <= i < |es| => Var(ElementName("a", i))))])
    case Many(x) =>
      Ok([ Declare("a", ListType(ExprType(d, x)), NewList),
           While(TestFor(d, x), CompileExpr(d, "at", AddArg("a"), x)),
           Return(visit, [Var("a")]) ])
    case Optional(x) =>
      Ok([ Declare("a", ExprType(d, e), Null),
           If(TestFor(d, x), CompileExpr(d, "at", SetArg("a"), x)),
           Return(visit, [Var("a")]) ])
    case Alternative(_) => Err(InternalError(AlternativeReason, e))
  }

  /** The `when` arms of an alternative production, from branch `from` on; the first failing branch aborts. */
  function CompileTopArms(d: Definition, lhs: string, es: seq<Expr>, from: nat): Result<seq<Arm>, GenError>
    decreases |es| - from
  {
    if |es| <= from then Ok([])
    else
      match CompileTopLevel(d, BranchVisitorName(lhs, from), es[from])
      case Err(err) => Err(err)
      case Ok(body) =>
        (match CompileTopArms(d, lhs, es, from + 1)
         case Err(err) => Err(err)
         case Ok(arms) => Ok([Arm(TestFor(d, es[from]), body)] + arms))
  }

  /** `writeTopLevelBody`: the body of a production's parse function. */
  function CompileBody(d: Definition, p: Production): Result<seq<Stmt>, GenError>
  {
    match p.expr
    case Alternative(es) =>
      (match CompileTopArms(d, p.lhs, es, 0)
       case Err(err) => Err(err)
       case Ok(arms) => Ok([When(arms, Kinds(d, p.expr))]))
    case _ => CompileTopLevel(d, p.lhs, p.expr)
  }

  /** `writeParseFunctions`: one parse function per production, in order; the first failure aborts. */
  function CompileFunctions(d: Definition, ps: seq<Production>): Result<seq<ParseFunction>, GenError>
  {
    if ps == [] then Ok([])
    else
      match CompileBody(d, ps[0])
      case Err(err) => Err(err)
      case Ok(body) =>
        (match CompileFunctions(d, ps[1..])
         case Err(err) => Err(err)
         case Ok(fs) => Ok([ParseFunction(ParseFunctionName(ps[0].lhs), ps[0].lhs, body)] + fs))
  }

  /** `writeMkParser`: the parser class, generic over the same type variables as the visitor. */
  function CompileParser(d: Definition): Result<ParserClass, GenError>
  {
    match CompileFunctions(d, d.productions)
    case Err(err) => Err(err)
    case Ok(fs) => Ok(ParserClass(GenericTypeVariables(d), fs))
  }
}
