/**
 * The parser generator with its two callback defects corrected (see
 * module Findings): a nested expression always hands its value to its
 * caller, wrapped in the union constructor of every alternative it is a
 * branch of, and a nested `Many` hands over its list once, after the loop.
 * Everything else is the generator of module Generator.
 */
module Repaired {
  import opened Wrappers
  import opened Names
  import opened Grammar
  import opened Types
  import opened Visitor
  import opened Plan
  import opened Generator

  /** Where the value of a nested expression goes. */
  datatype Sink =
    | BindTo(variable: string)                    // into a variable (a sequence element)
    | AddTo(list: string)                         // appended to a list
    | SetTo(target: string)                       // assigned to a nullable variable
    | Wrap(arity: nat, index: nat, outer: Sink)   // wrapped in a union constructor, then passed on

  /** The statements that deliver `arg` to the sink; binding a variable to itself needs none. */
  function EmitFixed(s: Sink, arg: Rhs): seq<Stmt>
  {
    match s
    case BindTo(x) => if arg == Var(x) then [] else [Assign(x, arg)]
    case AddTo(l) => [Add(l, arg)]
    case SetTo(x) => [Assign(x, arg)]
    case Wrap(n, i, outer) => EmitFixed(outer, MkUnion(n, i, arg))
  }

  function FixedExpr(d: Definition, v: string, s: Sink, e: Expr): seq<Stmt>
    decreases e
  {
    match e
    case Identifier(n) =>
      [Declare(v, ExprType(d, e), IdentifierRhs(d, n))] + EmitFixed(s, Var(v))
    case Sequence(es) =>
      FixedElements(d, v, es, 0)
      + [Declare(v, ExprType(d, e), MkTuple(ElementNames(v, |es|)))]
      + EmitFixed(s, Var(v))
    case Alternative(es) =>
      [When(FixedArms(d, v, s, es), Kinds(d, e))]
    case Many(x) =>
      [ Declare(v, ListType(ExprType(d, x)), NewList),
        While(TestFor(d, x), FixedExpr(d, TempName(v), AddTo(v), x)) ]
      + EmitFixed(s, Var(v))
    case Optional(x) =>
      [ Declare(v, NullableType(ExprType(d, x)), Null),
        If(TestFor(d, x), FixedExpr(d, TempName(v), SetTo(v), x)) ]
      + EmitFixed(s, Var(v))
  }

  /** The code the corrected generator emits for a sequence: its elements, the tuple, the sink. */
  lemma FixedSequence(d: Definition, v: string, s: Sink, es: seq<Expr>)
    ensures FixedExpr(d, v, s, Sequence(es)) ==
      FixedElements(d, v, es, 0) + [Declare(v, ExprType(d, Sequence(es)), MkTuple(ElementNames(v, |es|)))] + EmitFixed(s, Var(v))
  {
  }

  /** The arms of a nested alternative: branch `i` delivers its value wrapped in the i-th union constructor. */
  function FixedArms(d: Definition, v: string, s: Sink, es: seq<Expr>): seq<Arm>
    decreases Alternative(es), 0
  {
    seq(|es|, i requires 0 <= i < |es| =>
      Arm(TestFor(d, es[i]), FixedExpr(d, v, Wrap(|es|, i, s), es[i])))
  }

  function FixedElements(d: Definition, v: string, es: seq<Expr>, start: nat): seq<Stmt>
    decreases es
  {
    if es == [] then []
    else
      FixedExpr(d, ElementName(v, start), BindTo(ElementName(v, start)), es[0])
      + FixedElements(d, v, es[1..], start + 1)
  }

  function FixedTopLevel(d: Definition, visitorName: string, e: Expr): Result<seq<Stmt>, GenError>
  {
    var visit := MethodName(visitorName);
    match e
    case Identifier(n) => Ok([Return(visit, [IdentifierRhs(d, n)])])
    case Sequence(es) =>
      Ok(FixedElements(d, "a", es, 0) + [Return(visit, seq(|es|, i requires 0 <= i < |es| => Var(ElementName("a", i))))])
    case Many(x) =>
      Ok([ Declare("a", ListType(ExprType(d, x)), NewList),
           While(TestFor(d, x), FixedExpr(d, "at", AddTo("a"), x)),
           Return(visit, [Var("a")]) ])
    case Optional(x) =>
      Ok([ Declare("a", ExprType(d, e), Null),
           If(TestFor(d, x), FixedExpr(d, "at", SetTo("a"), x)),
           Return(visit, [Var("a")]) ])
    case Alternative(_) => Err(InternalError(AlternativeReason, e))
  }

  function FixedTopArms(d: Definition, lhs: string, es: seq<Expr>, from: nat): Result<seq<Arm>, GenError>
    decreases |es| - from
  {
    if |es| <= from then Ok([])
    else
      match FixedTopLevel(d, BranchVisitorName(lhs, from), es[from])
      case Err(err) => Err(err)
      case Ok(body) =>
        (match FixedTopArms(d, lhs, es, from + 1)
         case Err(err) => Err(err)
         case Ok(arms) => Ok([Arm(TestFor(d, es[from]), body)] + arms))
  }

  function FixedBody(d: Definition, p: Production): Result<seq<Stmt>, GenError>
  {
    match p.expr
    case Alternative(es) =>
      (match FixedTopArms(d, p.lhs, es, 0)
       case Err(err) => Err(err)
       case Ok(arms) => Ok([When(arms, Kinds(d, p.expr))]))
    case _ => FixedTopLevel(d, p.lhs, p.expr)
  }

  function FixedFunctions(d: Definition, ps: seq<Production>): Result<seq<ParseFunction>, GenError>
  {
    if ps == [] then Ok([])
    else
      match FixedBody(d, ps[0])
      case Err(err) => Err(err)
      case Ok(body) =>
        (match FixedFunctions(d, ps[1..])
         case Err(err) => Err(err)
         case Ok(fs) => Ok([ParseFunction(ParseFunctionName(ps[0].lhs), ps[0].lhs, body)] + fs))
  }

  function FixedParser(d: Definition): Result<ParserClass, GenError>
  {
    match FixedFunctions(d, d.productions)
    case Err(err) => Err(err)
    case Ok(fs) => Ok(ParserClass(GenericTypeVariables(d), fs))
  }
}
