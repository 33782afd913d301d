/**
 * The resolved grammar the generator consumes: the expression shapes of a
 * production body, the productions in declaration order, the set of
 * nonterminal names and the FIRST-set table. FIRST sets are computed by the
 * grammar front end and are not part of this model; `first` stands for the
 * call `first(definition.firsts, e)` and is free: nothing here relies on
 * the set of an alternative is the union of the sets of its branches.
 */
module Grammar {
  import opened Names

  /** The five shapes of a production body. */
  datatype Expr =
    | Identifier(name: string)      // a terminal (token kind) or a nonterminal
    | Sequence(exprs: seq<Expr>)
    | Alternative(exprs: seq<Expr>)
    | Many(expr: Expr)              // zero or more
    | Optional(expr: Expr)          // zero or one

  datatype Production = Production(lhs: string, expr: Expr)

  /**
   * `first` gives the FIRST set of an expression in the order in which
   * spreading the set yields it; it may contain the epsilon marker "".
   */
  datatype Definition = Definition(
    productions: seq<Production>,
    nonTerminalNames: set<string>,
    first: Expr -> seq<string>)

  /** The marker that a FIRST set uses for "matches the empty input". */
  const Epsilon: string := ""

  /** `.filter((n) => n !== "")`: the kinds with the epsilon marker removed, in order. */
  function RemoveEpsilon(kinds: seq<string>): (r: seq<string>)
    ensures |r| <= |kinds|
    ensures forall k :: k in r <==> k in kinds && k != Epsilon
  {
    if kinds == [] then []
    else (if kinds[0] == Epsilon then [] else [kinds[0]]) + RemoveEpsilon(kinds[1..])
  }

  /** The token kinds that may start `e`: its FIRST set without the epsilon marker. */
  function Kinds(d: Definition, e: Expr): seq<string>
  {
    RemoveEpsilon(d.first(e))
  }

  /**
   * What the generated parser relies on: every nonterminal name has a
   * production, and no two productions share a parse function name.
   */
  ghost predicate WellFormed(d: Definition)
  {
    && (forall n :: n in d.nonTerminalNames ==>
          exists i :: 0 <= i < |d.productions| && d.productions[i].lhs == n)
    && (forall i, j :: 0 <= i < j < |d.productions| ==>
          ParseFunctionName(d.productions[i].lhs) != ParseFunctionName(d.productions[j].lhs))
  }
}
