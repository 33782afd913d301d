/**
 * What the emitted parse functions do when run: a functional interpreter of
 * the plan of module Plan against a token stream, with the runtime helpers
 * of the generated class (mod.ts:506-547) built in.
 *
 * The visitor is left uninterpreted: calling `visitor.<visit>(args)` yields
 * the value `VisitValue(visit, args)`, so the result of a parse records
 * exactly which visitor methods were called, in which nesting and with which
 * arguments.
 *
 * `fuel` bounds the depth of the computation: every call of a parse function
 * and every iteration of a loop costs one unit, which the callee or the
 * iteration's body then has one fewer of. Running out gives `OutOfFuel`.
 */
module Semantics {
  import opened Wrappers
  import opened Types
  import opened Plan

  /** A token of the scanner: its kind (the `TToken` constant) and its text. */
  datatype Token = Token(kind: string, lexeme: string)

  /** The kind of the token the scanner keeps returning at the end of the input (`TToken.TEOS`). */
  const EndKind: string := "EOS"

  /** `peek()`, that is `scanner.current()`: the token at `pos`, or the end token past the last one. */
  function Peek(tokens: seq<Token>, pos: nat): (t: Token)
    ensures pos < |tokens| ==> t == tokens[pos]
    ensures |tokens| <= pos ==> t.kind == EndKind
  {
    if pos < |tokens| then tokens[pos] else Token(EndKind, "")
  }

  /** `skipToken()`, that is `scanner.next()`: move past the current token; at the end, stay there. */
  function Advance(tokens: seq<Token>, pos: nat): (p: nat)
    ensures pos < |tokens| ==> p == pos + 1
    ensures |tokens| <= pos ==> p == pos
  {
    if pos < |tokens| then pos + 1 else pos
  }

  datatype Value =
    | TokenValue(token: Token)
    | TupleValue(items: seq<Value>)
    | UnionValue(arity: nat, index: nat, item: Value)
    | ListValue(items: seq<Value>)
    | NullValue
    | VisitValue(visit: string, args: seq<Value>)   // what `visitor.<visit>(args)` returned

  datatype Failure =
    | Thrown(found: Token, expected: set<string>)   // throw ParsingException(found, expected)
    | Stuck                                         // code that would not compile: unknown variable or function
    | OutOfFuel

  type Env = map<string, Value>

  datatype Outcome =
    | Normal(env: Env, pos: nat)          // the block ran to its end
    | Returned(value: Value, pos: nat)    // a `return` ended the function
    | Failed(failure: Failure)

  datatype Evaluated<T> = Evaluated(value: T, pos: nat) | EvalFailed(failure: Failure)

  /** The token stream and the parse functions of the class, by name. */
  datatype Ctx = Ctx(tokens: seq<Token>, functions: map<string, seq<Stmt>>)

  /** `setOf(...)`: the set of the listed kinds. */
  function AsSet(kinds: seq<string>): (r: set<string>)
    ensures forall k :: k in r <==> k in kinds
  {
    set k | k in kinds
  }

  /**
   * The parse functions of a generated class by name; a later function of
   * the same name would be shadowed by the first.
   */
  function FunctionTable(fs: seq<ParseFunction>): (m: map<string, seq<Stmt>>)
    ensures forall name :: name in m <==> exists i :: 0 <= i < |fs| && fs[i].name == name
  {
    if fs == [] then map[]
    else FunctionTable(fs[1..])[fs[0].name := fs[0].body]
  }

  /** Where the names of the functions are distinct, each name leads to its own function's body. */
  lemma {:induction false} FunctionTableLookup(fs: seq<ParseFunction>, i: nat)
    requires i < |fs|
    requires forall j, k :: 0 <= j < k < |fs| ==> fs[j].name != fs[k].name
    ensures fs[i].name in FunctionTable(fs) && FunctionTable(fs)[fs[i].name] == fs[i].body
  {
    if i > 0 {
      FunctionTableLookup(fs[1..], i - 1);
    }
  }

  /** The kind of the lookahead token. */
  function Lookahead(ctx: Ctx, pos: nat): string
  {
    Peek(ctx.tokens, pos).kind
  }

  /** The arm a `when` takes: the first one, from `from` on, whose test holds. */
  function SelectArm(arms: seq<Arm>, kind: string, from: nat): (r: Option<nat>)
    ensures r.Some? ==> from <= r.value < |arms| && Holds(arms[r.value].test, kind)
    ensures r.Some? ==> forall j :: from <= j < r.value ==> !Holds(arms[j].test, kind)
    ensures r.None? ==> forall j :: from <= j < |arms| ==> !Holds(arms[j].test, kind)
    decreases |arms| - from
  {
    if |arms| <= from then None
    else if Holds(arms[from].test, kind) then Some(from)
    else SelectArm(arms, kind, from + 1)
  }

  /** The value of a right-hand side that reads variables only, if all the variables it reads are bound. */
  function PureValue(r: Rhs, env: Env): Option<Value>
  {
    match r
    case Var(x) => if x in env then Some(env[x]) else None
    case MkTuple(names) =>
      if forall n :: n in names ==> n in env then
        Some(TupleValue(seq(|names|, i requires 0 <= i < |names| => env[names[i]])))
      else None
    case MkUnion(n, i, a) =>
      (match PureValue(a, env)
       case Some(v) => Some(UnionValue(n, i, v))
       case None => None)
    case NewList => Some(ListValue([]))
    case Null => Some(NullValue)
    case _ => None
  }

  /** Evaluate a right-hand side; `matchToken` and parse function calls consume input. */
  function Eval(ctx: Ctx, r: Rhs, env: Env, pos: nat, fuel: nat): Evaluated<Value>
    decreases fuel, 0, r
  {
    match r
    case MatchToken(k) =>
      var t := Peek(ctx.tokens, pos);
      if t.kind == k then Evaluated(TokenValue(t), Advance(ctx.tokens, pos))
      else EvalFailed(Thrown(t, {k}))
    case CallParse(f) =>
      if fuel == 0 then EvalFailed(OutOfFuel)
      else if f !in ctx.functions then EvalFailed(Stuck)
      else
        (match Exec(ctx, ctx.functions[f], map[], pos, fuel - 1)
         case Returned(v, p) => Evaluated(v, p)
         case Normal(_, _) => EvalFailed(Stuck)
         case Failed(failure) => EvalFailed(failure))
    case MkUnion(n, i, a) =>
      (match Eval(ctx, a, env, pos, fuel)
       case Evaluated(v, p) => Evaluated(UnionValue(n, i, v), p)
       case EvalFailed(failure) => EvalFailed(failure))
    case _ =>
      (match PureValue(r, env)
       case Some(v) => Evaluated(v, pos)
       case None => EvalFailed(Stuck))
  }

  /** Evaluate call arguments from left to right. */
  function EvalArgs(ctx: Ctx, args: seq<Rhs>, env: Env, pos: nat, fuel: nat): Evaluated<seq<Value>>
    decreases fuel, 0, args
  {
    if args == [] then Evaluated([], pos)
    else
      match Eval(ctx, args[0], env, pos, fuel)
      case EvalFailed(failure) => EvalFailed(failure)
      case Evaluated(v, p) =>
        (match EvalArgs(ctx, args[1..], env, p, fuel)
         case EvalFailed(failure) => EvalFailed(failure)
         case Evaluated(vs, p') => Evaluated([v] + vs, p'))
  }

  /** Run a block. */
  function Exec(ctx: Ctx, ss: seq<Stmt>, env: Env, pos: nat, fuel: nat): Outcome
    decreases fuel, Size(ss), 0
  {
    if ss == [] then Normal(env, pos)
    else
      assert Size(ss) == StmtSize(ss[0]) + Size(ss[1..]);
      match ss[0]
      case Declare(x, _, r) =>
        (match Eval(ctx, r, env, pos, fuel)
         case Evaluated(v, p) => Exec(ctx, ss[1..], env[x := v], p, fuel)
         case EvalFailed(failure) => Failed(failure))
      case Assign(x, r) =>
        (match Eval(ctx, r, env, pos, fuel)
         case Evaluated(v, p) => Exec(ctx, ss[1..], env[x := v], p, fuel)
         case EvalFailed(failure) => Failed(failure))
      case Add(l, r) =>
        (match Eval(ctx, r, env, pos, fuel)
         case Evaluated(v, p) =>
           if l in env && env[l].ListValue? then
             Exec(ctx, ss[1..], env[l := ListValue(env[l].items + [v])], p, fuel)
           else Failed(Stuck)
         case EvalFailed(failure) => Failed(failure))
      case When(arms, expected) =>
        (match SelectArm(arms, Lookahead(ctx, pos), 0)
         case Some(i) =>
           ArmSmaller(arms, i);
           (match Exec(ctx, arms[i].body, env, pos, fuel)
            case Normal(env', p') => Exec(ctx, ss[1..], env', p', fuel)
            case o => o)
         case None => Failed(Thrown(Peek(ctx.tokens, pos), AsSet(expected))))
      case While(t, body) =>
        (match Loop(ctx, t, body, env, pos, fuel)
         case Normal(env', p') => Exec(ctx, ss[1..], env', p', fuel)
         case o => o)
      case If(t, body) =>
        if Holds(t, Lookahead(ctx, pos)) then
          (match Exec(ctx, body, env, pos, fuel)
           case Normal(env', p') => Exec(ctx, ss[1..], env', p', fuel)
           case o => o)
        else Exec(ctx, ss[1..], env, pos, fuel)
      case Return(m, args) =>
        (match EvalArgs(ctx, args, env, pos, fuel)
         case Evaluated(vs, p) => Returned(VisitValue(m, vs), p)
         case EvalFailed(failure) => Failed(failure))
  }

  /** Run `while (t) { body }`: test first; each iteration costs one unit of fuel. */
  function Loop(ctx: Ctx, t: Test, body: seq<Stmt>, env: Env, pos: nat, fuel: nat): Outcome
    decreases fuel, Size(body) + 1, 0
  {
    if !Holds(t, Lookahead(ctx, pos)) then Normal(env, pos)
    else if fuel == 0 then Failed(OutOfFuel)
    else
      match Exec(ctx, body, env, pos, fuel - 1)
      case Normal(env', p') => Loop(ctx, t, body, env', p', fuel - 1)
      case o => o
  }

  /** One iteration of a loop whose test holds and whose body completes normally. */
  lemma LoopStep(ctx: Ctx, t: Test, body: seq<Stmt>, env: Env, pos: nat, fuel: nat, env': Env, p: nat)
    requires Holds(t, Lookahead(ctx, pos)) && fuel > 0
    requires Exec(ctx, body, env, pos, fuel - 1) == Normal(env', p)
    ensures Loop(ctx, t, body, env, pos, fuel) == Loop(ctx, t, body, env', p, fuel - 1)
  {
  }

  /** Continue with `b` after an outcome. */
  function Then(ctx: Ctx, o: Outcome, b: seq<Stmt>, fuel: nat): Outcome
  {
    match o
    case Normal(env, p) => Exec(ctx, b, env, p, fuel)
    case _ => o
  }

  /** Running two blocks one after the other is running the first, then, if it ended normally, the second. */
  lemma {:induction false} ExecAppend(ctx: Ctx, a: seq<Stmt>, b: seq<Stmt>, env: Env, pos: nat, fuel: nat)
    ensures Exec(ctx, a + b, env, pos, fuel) == Then(ctx, Exec(ctx, a, env, pos, fuel), b, fuel)
    decreases a
  {
    if a == [] {
      assert a + b == b;
    } else {
      assert (a + b)[0] == a[0];
      assert (a + b)[1..] == a[1..] + b;
      match a[0] {
        case Declare(x, _, r) =>
          match Eval(ctx, r, env, pos, fuel) {
            case Evaluated(v, p) => ExecAppend(ctx, a[1..], b, env[x := v], p, fuel);
            case EvalFailed(_) =>
          }
        case Assign(x, r) =>
          match Eval(ctx, r, env, pos, fuel) {
            case Evaluated(v, p) => ExecAppend(ctx, a[1..], b, env[x := v], p, fuel);
            case EvalFailed(_) =>
          }
        case Add(l, r) =>
          match Eval(ctx, r, env, pos, fuel) {
            case Evaluated(v, p) =>
              if l in env && env[l].ListValue? {
                ExecAppend(ctx, a[1..], b, env[l := ListValue(env[l].items + [v])], p, fuel);
              }
            case EvalFailed(_) =>
          }
        case When(arms, _) =>
          match SelectArm(arms, Lookahead(ctx, pos), 0) {
            case Some(i) =>
              match Exec(ctx, arms[i].body, env, pos, fuel) {
                case Normal(env', p') => ExecAppend(ctx, a[1..], b, env', p', fuel);
                case _ =>
              }
            case None =>
          }
        case While(t, body) =>
          match Loop(ctx, t, body, env, pos, fuel) {
            case Normal(env', p') => ExecAppend(ctx, a[1..], b, env', p', fuel);
            case _ =>
          }
        case If(t, body) =>
          if Holds(t, Lookahead(ctx, pos)) {
            match Exec(ctx, body, env, pos, fuel) {
              case Normal(env', p') => ExecAppend(ctx, a[1..], b, env', p', fuel);
              case _ =>
            }
          } else {
            ExecAppend(ctx, a[1..], b, env, pos, fuel);
          }
        case Return(_, _) =>
      }
    }
  }

  /**
   * A `when` runs the arm of the first test that holds, then what follows;
   * when no test holds it throws a parsing exception with the lookahead
   * token and the listed kinds.
   */
  lemma ExecWhen(ctx: Ctx, arms: seq<Arm>, expected: seq<string>, rest: seq<Stmt>, env: Env, pos: nat, fuel: nat)
    ensures Exec(ctx, [When(arms, expected)] + rest, env, pos, fuel)
         == match SelectArm(arms, Lookahead(ctx, pos), 0)
            case Some(i) => Exec(ctx, arms[i].body + rest, env, pos, fuel)
            case None => Failed(Thrown(Peek(ctx.tokens, pos), AsSet(expected)))
  {
    assert ([When(arms, expected)] + rest)[0] == When(arms, expected);
    assert ([When(arms, expected)] + rest)[1..] == rest;
    match SelectArm(arms, Lookahead(ctx, pos), 0) {
      case Some(i) => ExecAppend(ctx, arms[i].body, rest, env, pos, fuel);
      case None =>
    }
  }

  /** A declaration whose right-hand side reads only variables binds the variable and consumes nothing. */
  lemma ExecDeclare(ctx: Ctx, x: string, ty: DerivedType, r: Rhs, env: Env, pos: nat, fuel: nat)
    requires PureValue(r, env).Some?
    ensures Exec(ctx, [Declare(x, ty, r)], env, pos, fuel) == Normal(env[x := PureValue(r, env).value], pos)
  {
    EvalPure(ctx, r, env, pos, fuel);
  }

  /** A loop on its own is its iterations. */
  lemma ExecWhile(ctx: Ctx, t: Test, body: seq<Stmt>, env: Env, pos: nat, fuel: nat)
    ensures Exec(ctx, [While(t, body)], env, pos, fuel) == Loop(ctx, t, body, env, pos, fuel)
  {
  }

  /** A guarded block on its own runs its body when the test holds, and does nothing otherwise. */
  lemma ExecIf(ctx: Ctx, t: Test, body: seq<Stmt>, env: Env, pos: nat, fuel: nat)
    ensures Exec(ctx, [If(t, body)], env, pos, fuel) ==
      if Holds(t, Lookahead(ctx, pos)) then Exec(ctx, body, env, pos, fuel) else Normal(env, pos)
  {
  }

  /** A right-hand side that only reads variables evaluates to its pure value and consumes nothing. */
  lemma {:induction false} EvalPure(ctx: Ctx, r: Rhs, env: Env, pos: nat, fuel: nat)
    requires PureValue(r, env).Some?
    ensures Eval(ctx, r, env, pos, fuel) == Evaluated(PureValue(r, env).value, pos)
  {
    if r.MkUnion? {
      EvalPure(ctx, r.arg, env, pos, fuel);
    }
  }
}
