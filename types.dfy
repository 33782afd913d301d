/**
 * The type deriver, `writeExprType` (mod.ts:117-148), and the list of type
 * variables, `writeGenericTypeVariables` (mod.ts:112-115). A derived type is
 * kept as a datatype; the Kotlin spelling of each constructor is noted
 * beside it.
 */
module Types {
  import opened Grammar

  datatype DerivedType =
    | TokenType                            // Token
    | ResultType(nonTerminal: string)      // T_<nonTerminal>
    | TupleType(items: seq<DerivedType>)   // io.littlelanguages.data.Tuple<n><...>
    | UnionType(items: seq<DerivedType>)   // io.littlelanguages.data.Union<n><...>
    | ListType(item: DerivedType)          // List<...>
    | NullableType(item: DerivedType)      // ...?

  /** The type of the value that the generated code computes for `e`. */
  function ExprType(d: Definition, e: Expr): DerivedType
  {
    match e
    case Identifier(name) =>
      if name in d.nonTerminalNames then ResultType(name) else TokenType
    case Sequence(es) =>
      TupleType(seq(|es|, i requires 0 <= i < |es| => ExprType(d, es[i])))
    case Alternative(es) =>
      UnionType(seq(|es|, i requires 0 <= i < |es| => ExprType(d, es[i])))
    case Many(x) => ListType(ExprType(d, x))
    case Optional(x) => NullableType(ExprType(d, x))
  }

  /**
   * The derived type depends only on the shape of the expression and on the
   * set of nonterminal names: not on the productions, not on FIRST sets.
   */
  lemma {:induction false} ExprTypeDependsOnShapeOnly(d1: Definition, d2: Definition, e: Expr)
    requires d1.nonTerminalNames == d2.nonTerminalNames
    ensures ExprType(d1, e) == ExprType(d2, e)
  {
    match e
    case Identifier(_) =>
    case Sequence(es) =>
      forall i | 0 <= i < |es| ensures ExprType(d1, es[i]) == ExprType(d2, es[i]) {
        ExprTypeDependsOnShapeOnly(d1, d2, es[i]);
      }
    case Alternative(es) =>
      forall i | 0 <= i < |es| ensures ExprType(d1, es[i]) == ExprType(d2, es[i]) {
        ExprTypeDependsOnShapeOnly(d1, d2, es[i]);
      }
    case Many(x) => ExprTypeDependsOnShapeOnly(d1, d2, x);
    case Optional(x) => ExprTypeDependsOnShapeOnly(d1, d2, x);
  }

  /** `T_<lhs>`: the type variable standing for the result of a production. */
  function TypeVariable(lhs: string): string
  {
    "T_" + lhs
  }

  /** `<T_p1, T_p2, ...>`: one type variable per production, in production order. */
  function GenericTypeVariables(d: Definition): (r: seq<string>)
    ensures |r| == |d.productions|
    ensures forall i :: 0 <= i < |r| ==> r[i] == TypeVariable(d.productions[i].lhs)
  {
    seq(|d.productions|, i requires 0 <= i < |d.productions| => TypeVariable(d.productions[i].lhs))
  }
}
