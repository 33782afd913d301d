/**
 * The visitor contract, `writeVisitor` (mod.ts:150-189): one method per
 * production, or one per branch when the production's body is an
 * alternative, in production order; the interface is generic over the type
 * variables of `writeGenericTypeVariables`.
 */
module Visitor {
  import opened Names
  import opened Grammar
  import opened Types

  datatype Param = Param(name: string, ty: DerivedType)

  /** `fun <name>(<params>): T_<resultOf>` */
  datatype Signature = Signature(name: string, params: seq<Param>, resultOf: string)

  /** `interface Visitor<typeVariables> { methods }` */
  datatype Interface = Interface(typeVariables: seq<string>, methods: seq<Signature>)

  /** `visit<visitorName>`: the visitor method the parser calls. */
  function MethodName(visitorName: string): string
  {
    "visit" + visitorName
  }

  /** `${production.lhs}${i + 1}`: the visitor name of branch `i` (from 0) of an alternative production. */
  function BranchVisitorName(lhs: string, i: nat): string
  {
    lhs + NatToString(i + 1)
  }

  /** `a${i + 1}`: the parameter name of element `i` (from 0) of a sequence. */
  function ArgumentName(i: nat): string
  {
    "a" + NatToString(i + 1)
  }

  /** `writeParameters`: `a1..an` for a sequence, a single `a` otherwise. */
  function Parameters(d: Definition, e: Expr): seq<Param>
  {
    if e.Sequence? then
      seq(|e.exprs|, i requires 0 <= i < |e.exprs| => Param(ArgumentName(i), ExprType(d, e.exprs[i])))
    else
      [Param("a", ExprType(d, e))]
  }

  /** Kotlin needs distinct parameter names, and the generated ones are. */
  lemma ParameterNamesDistinct(d: Definition, e: Expr, i: nat, j: nat)
    requires i < j < |Parameters(d, e)|
    ensures Parameters(d, e)[i].name != Parameters(d, e)[j].name
  {
    if ArgumentName(i) == ArgumentName(j) {
      assert NatToString(i + 1) == ArgumentName(i)[1..] == ArgumentName(j)[1..] == NatToString(j + 1);
      NatToStringInjective(i + 1, j + 1);
    }
  }

  /** `writeProduction`: the methods one production contributes. */
  function ProductionSignatures(d: Definition, p: Production): seq<Signature>
  {
    if p.expr.Alternative? then
      seq(|p.expr.exprs|, i requires 0 <= i < |p.expr.exprs| =>
        Signature(MethodName(BranchVisitorName(p.lhs, i)), Parameters(d, p.expr.exprs[i]), p.lhs))
    else
      [Signature(MethodName(p.lhs), Parameters(d, p.expr), p.lhs)]
  }

  /** How many methods a production contributes. */
  function MethodCount(p: Production): nat
  {
    if p.expr.Alternative? then |p.expr.exprs| else 1
  }

  function TotalMethodCount(ps: seq<Production>): nat
  {
    if ps == [] then 0 else MethodCount(ps[0]) + TotalMethodCount(ps[1..])
  }

  /** The methods of several productions, in production order. */
  function Signatures(d: Definition, ps: seq<Production>): seq<Signature>
  {
    if ps == [] then [] else ProductionSignatures(d, ps[0]) + Signatures(d, ps[1..])
  }

  /** `writeVisitor`: the whole interface. */
  function WriteVisitor(d: Definition): Interface
  {
    Interface(GenericTypeVariables(d), Signatures(d, d.productions))
  }

  /**
   * The interface declares, for each production, as many methods as it has
   * branches (one if its body is not an alternative), all returning the
   * production's type variable; and it declares nothing else.
   */
  lemma {:induction false} SignaturesOfProductions(d: Definition, ps: seq<Production>)
    ensures |Signatures(d, ps)| == TotalMethodCount(ps)
    ensures forall s :: s in Signatures(d, ps) <==>
      exists j :: 0 <= j < |ps| && s in ProductionSignatures(d, ps[j])
  {
    if ps != [] {
      SignaturesOfProductions(d, ps[1..]);
      forall s | s in Signatures(d, ps)
        ensures exists j :: 0 <= j < |ps| && s in ProductionSignatures(d, ps[j])
      {
        if s !in ProductionSignatures(d, ps[0]) {
          var j :| 0 <= j < |ps[1..]| && s in ProductionSignatures(d, ps[1..][j]);
          assert s in ProductionSignatures(d, ps[j + 1]);
        }
      }
      forall s, j | 0 <= j < |ps| && s in ProductionSignatures(d, ps[j])
        ensures s in Signatures(d, ps)
      {
        if j > 0 {
          assert s in ProductionSignatures(d, ps[1..][j - 1]);
        }
      }
    }
  }

  /**
   * The methods of one production: for an n-branch alternative, method `i`
   * is `visit<lhs><i+1>` taking branch `i`'s value; otherwise one method
   * `visit<lhs>`; every method returns `T_<lhs>`.
   */
  lemma ProductionSignaturesShape(d: Definition, p: Production)
    ensures |ProductionSignatures(d, p)| == MethodCount(p)
    ensures forall s :: s in ProductionSignatures(d, p) ==> s.resultOf == p.lhs
    ensures p.expr.Alternative? ==> forall i :: 0 <= i < |p.expr.exprs| ==>
      ProductionSignatures(d, p)[i].name == MethodName(BranchVisitorName(p.lhs, i)) &&
      ProductionSignatures(d, p)[i].params == Parameters(d, p.expr.exprs[i])
    ensures !p.expr.Alternative? ==>
      ProductionSignatures(d, p) == [Signature(MethodName(p.lhs), Parameters(d, p.expr), p.lhs)]
  {
  }
}
