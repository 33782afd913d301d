/**
 * The code the generator emits, as a syntax tree rather than text: the
 * statements of a parse function of the generated Kotlin `Parser` class
 * (mod.ts:191-552). Layout, blank lines and the exact spelling of each line
 * are the pretty printer's business and are not modelled.
 */
module Plan {
  import opened Types

  /** A right-hand side: what a declaration, an assignment or a call argument computes. */
  datatype Rhs =
    | Var(name: string)                            // a local variable
    | MatchToken(kind: string)                     // matchToken(TToken.T<kind>)
    | CallParse(parseFunction: string)             // <parseFunction>()
    | MkTuple(names: seq<string>)                  // io.littlelanguages.data.Tuple<n>(v1, ..., vn)
    | MkUnion(arity: nat, index: nat, arg: Rhs)    // io.littlelanguages.data.Union<arity><'a' + index>(arg)
    | NewList                                      // mutableListOf<...>()
    | Null                                         // null

  /** A lookahead test. */
  datatype Test =
    | IsToken(kind: string)                        // isToken(TToken.T<kind>)
    | IsTokens(kinds: seq<string>)                 // isTokens(setOf(TToken.T<k1>, ...))

  /** Whether a test accepts a lookahead token of kind `kind`. */
  predicate Holds(t: Test, kind: string)
  {
    match t
    case IsToken(k) => kind == k
    case IsTokens(ks) => kind in ks
  }

  datatype Stmt =
    | Declare(name: string, ty: DerivedType, init: Rhs)  // val/var <name>: <ty> = <init>
    | Assign(name: string, value: Rhs)                   // <name> = <value>
    | Add(list: string, item: Rhs)                       // <list>.add(<item>)
    | When(arms: seq<Arm>, expected: seq<string>)        // when { arms; else -> throw ParsingException(peek(), setOf(expected)) }
    | While(test: Test, body: seq<Stmt>)                 // while (<test>) { body }
    | If(test: Test, body: seq<Stmt>)                    // if (<test>) { body }
    | Return(visit: string, args: seq<Rhs>)              // return visitor.<visit>(args)

  /** `<test> -> { body }` */
  datatype Arm = Arm(test: Test, body: seq<Stmt>)

  /** `fun <name>(): T_<resultOf> { body }` */
  datatype ParseFunction = ParseFunction(name: string, resultOf: string, body: seq<Stmt>)

  /** `class Parser<typeVariables>(scanner, visitor) { functions; runtime helpers }` */
  datatype ParserClass = ParserClass(typeVariables: seq<string>, functions: seq<ParseFunction>)

  /** The number of statements in a block, counting nested blocks; used as a termination measure. */
  function Size(ss: seq<Stmt>): nat
  {
    if ss == [] then 0 else StmtSize(ss[0]) + Size(ss[1..])
  }

  function StmtSize(s: Stmt): (n: nat)
    ensures 1 <= n
  {
    match s
    case When(arms, _) => 1 + ArmsSize(arms)
    case While(_, body) => 2 + Size(body)
    case If(_, body) => 1 + Size(body)
    case _ => 1
  }

  function ArmsSize(arms: seq<Arm>): nat
  {
    if arms == [] then 0 else 1 + Size(arms[0].body) + ArmsSize(arms[1..])
  }

  /** Every arm of a `when` is smaller than the `when` itself. */
  lemma {:induction false} ArmSmaller(arms: seq<Arm>, i: nat)
    requires i < |arms|
    ensures Size(arms[i].body) < ArmsSize(arms)
  {
    if i > 0 {
      ArmSmaller(arms[1..], i - 1);
    }
  }

  /** Sizes add up over concatenation. */
  lemma {:induction false} SizeAppend(a: seq<Stmt>, b: seq<Stmt>)
    ensures Size(a + b) == Size(a) + Size(b)
  {
    if a == [] {
      assert a + b == b;
    } else {
      assert (a + b)[0] == a[0];
      assert (a + b)[1..] == a[1..] + b;
      SizeAppend(a[1..], b);
    }
  }
}
