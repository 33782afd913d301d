/**
 * The generated parser as an object: the helper methods the generator
 * emits into every parser class (mod.ts:506-547) over a scanner cursor
 * `pos`, and an executor that runs a parse function's statements the way
 * the emitted Kotlin does, moving the cursor as it goes and running each
 * `while` as a loop. Every method is proved to compute what the
 * interpreter of module Semantics says.
 */
module Runtime {
  import opened Wrappers
  import opened Plan
  import opened Semantics

  class Parser {
    /** What the scanner will deliver, from the start of the input. */
    const tokens: seq<Token>
    /** The parse functions of the class, by name. */
    const functions: map<string, seq<Stmt>>
    /** The scanner's position: `scanner.current()` is the token at `pos`. */
    var pos: nat

    constructor(tokens: seq<Token>, functions: map<string, seq<Stmt>>)
      ensures this.tokens == tokens && this.functions == functions && pos == 0
    {
      this.tokens := tokens;
      this.functions := functions;
      pos := 0;
    }

    function Context(): Ctx
    {
      Ctx(tokens, functions)
    }

    /** `peek()`: the current token, or the end token once the input is used up. */
    method Peek() returns (t: Token)
      ensures t == Semantics.Peek(tokens, pos)
      ensures pos < |tokens| ==> t == tokens[pos]
      ensures |tokens| <= pos ==> t.kind == EndKind
    {
      if pos < |tokens| {
        t := tokens[pos];
      } else {
        t := Token(EndKind, "");
      }
    }

    /** `skipToken()`: move past the current token; at the end of the input, stay. */
    method SkipToken()
      modifies this
      ensures pos == Advance(tokens, old(pos))
      ensures old(pos) < |tokens| ==> pos == old(pos) + 1
    {
      if pos < |tokens| {
        pos := pos + 1;
      }
    }

    /** `nextToken()`: the current token, after which the cursor moves past it. */
    method NextToken() returns (t: Token)
      modifies this
      ensures t == Semantics.Peek(tokens, old(pos))
      ensures pos == Advance(tokens, old(pos))
    {
      t := Peek();
      SkipToken();
    }

    /**
     * `matchToken(kind)`: the current token, consumed, if it has the kind;
     * otherwise `ParsingException(peek(), setOf(kind))` with nothing consumed.
     */
    method MatchToken(kind: string) returns (r: Result<Token, Failure>)
      modifies this
      ensures Semantics.Peek(tokens, old(pos)).kind == kind ==>
        r == Ok(Semantics.Peek(tokens, old(pos))) && pos == Advance(tokens, old(pos))
      ensures Semantics.Peek(tokens, old(pos)).kind != kind ==>
        r == Err(Thrown(Semantics.Peek(tokens, old(pos)), {kind})) && pos == old(pos)
    {
      var t := Peek();
      if t.kind == kind {
        t := NextToken();
        r := Ok(t);
      } else {
        r := Err(Thrown(t, {kind}));
      }
    }

    /** `isToken(kind)`: the current token has the kind; nothing moves. */
    method IsToken(kind: string) returns (b: bool)
      ensures b <==> Lookahead(Context(), pos) == kind
    {
      var t := Peek();
      b := t.kind == kind;
    }

    /** `isTokens(kinds)`: the current token has one of the kinds; nothing moves. */
    method IsTokens(kinds: set<string>) returns (b: bool)
      ensures b <==> Lookahead(Context(), pos) in kinds
    {
      var t := Peek();
      b := t.kind in kinds;
    }

    /** A lookahead test as emitted: `isToken` for a single kind, `isTokens(setOf(...))` otherwise. */
    method Check(t: Test) returns (b: bool)
      ensures b == Holds(t, Lookahead(Context(), pos))
    {
      match t
      case IsToken(k) => b := IsToken(k);
      case IsTokens(ks) => b := IsTokens(AsSet(ks));
    }

    /** Evaluate a right-hand side: match a token, call a parse function, or build a value. */
    method Evaluate(r: Rhs, env: Env, fuel: nat) returns (o: Evaluated<Value>)
      modifies this
      ensures o == Eval(Context(), r, env, old(pos), fuel)
      ensures o.Evaluated? ==> pos == o.pos
      decreases fuel, 0, r
    {
      match r {
        case MatchToken(k) =>
          var m := MatchToken(k);
          match m {
            case Ok(t) => o := Evaluated(TokenValue(t), pos);
            case Err(f) => o := EvalFailed(f);
          }
        case CallParse(f) =>
          if fuel == 0 {
            o := EvalFailed(OutOfFuel);
          } else if f !in functions {
            o := EvalFailed(Stuck);
          } else {
            var out := Run(functions[f], map[], fuel - 1);
            match out {
              case Returned(v, p) => o := Evaluated(v, p);
              case Normal(_, _) => o := EvalFailed(Stuck);
              case Failed(failure) => o := EvalFailed(failure);
            }
          }
        case MkUnion(n, i, a) =>
          var inner := Evaluate(a, env, fuel);
          match inner {
            case Evaluated(v, p) => o := Evaluated(UnionValue(n, i, v), p);
            case EvalFailed(failure) => o := EvalFailed(failure);
          }
        case _ =>
          match PureValue(r, env) {
            case Some(v) => o := Evaluated(v, pos);
            case None => o := EvalFailed(Stuck);
          }
      }
    }

    /** Evaluate the arguments of a visitor call from left to right. */
    method EvaluateArgs(args: seq<Rhs>, env: Env, fuel: nat) returns (o: Evaluated<seq<Value>>)
      modifies this
      ensures o == EvalArgs(Context(), args, env, old(pos), fuel)
      ensures o.Evaluated? ==> pos == o.pos
      decreases fuel, 0, args
    {
      if args == [] {
        o := Evaluated([], pos);
      } else {
        var first := Evaluate(args[0], env, fuel);
        match first {
          case EvalFailed(failure) => o := EvalFailed(failure);
          case Evaluated(v, _) =>
            var rest := EvaluateArgs(args[1..], env, fuel);
            match rest {
              case EvalFailed(failure) => o := EvalFailed(failure);
              case Evaluated(vs, p) => o := Evaluated([v] + vs, p);
            }
        }
      }
    }

    /** Run a block of statements. */
    method Run(ss: seq<Stmt>, env: Env, fuel: nat) returns (o: Outcome)
      modifies this
      ensures o == Exec(Context(), ss, env, old(pos), fuel)
      ensures o.Normal? || o.Returned? ==> pos == o.pos
      decreases fuel, Size(ss), 0
    {
      if ss == [] {
        return Normal(env, pos);
      }
      assert Size(ss) == StmtSize(ss[0]) + Size(ss[1..]);
      match ss[0] {
        case Declare(x, _, r) =>
          var v := Evaluate(r, env, fuel);
          match v {
            case Evaluated(val, _) => o := Run(ss[1..], env[x := val], fuel);
            case EvalFailed(failure) => o := Failed(failure);
          }
        case Assign(x, r) =>
          var v := Evaluate(r, env, fuel);
          match v {
            case Evaluated(val, _) => o := Run(ss[1..], env[x := val], fuel);
            case EvalFailed(failure) => o := Failed(failure);
          }
        case Add(l, r) =>
          var v := Evaluate(r, env, fuel);
          match v {
            case Evaluated(val, _) =>
              if l in env && env[l].ListValue? {
                o := Run(ss[1..], env[l := ListValue(env[l].items + [val])], fuel);
              } else {
                o := Failed(Stuck);
              }
            case EvalFailed(failure) => o := Failed(failure);
          }
        case When(arms, expected) =>
          var i := SelectArmNow(arms);
          match i {
            case Some(k) =>
              ArmSmaller(arms, k);
              var inner := Run(arms[k].body, env, fuel);
              match inner {
                case Normal(env', _) => o := Run(ss[1..], env', fuel);
                case _ => o := inner;
              }
            case None =>
              var t := Peek();
              o := Failed(Thrown(t, AsSet(expected)));
          }
        case While(t, body) =>
          var inner := RunLoop(t, body, env, fuel);
          match inner {
            case Normal(env', _) => o := Run(ss[1..], env', fuel);
            case _ => o := inner;
          }
        case If(t, body) =>
          var h := Check(t);
          if h {
            var inner := Run(body, env, fuel);
            match inner {
              case Normal(env', _) => o := Run(ss[1..], env', fuel);
              case _ => o := inner;
            }
          } else {
            o := Run(ss[1..], env, fuel);
          }
        case Return(m, args) =>
          var vs := EvaluateArgs(args, env, fuel);
          match vs {
            case Evaluated(values, p) => o := Returned(VisitValue(m, values), p);
            case EvalFailed(failure) => o := Failed(failure);
          }
      }
    }

    /** The `when` arm taken: the first one whose test holds at the current token. */
    method SelectArmNow(arms: seq<Arm>) returns (r: Option<nat>)
      ensures r == SelectArm(arms, Lookahead(Context(), pos), 0)
    {
      var i := 0;
      while i < |arms|
        invariant 0 <= i <= |arms|
        invariant SelectArm(arms, Lookahead(Context(), pos), 0) == SelectArm(arms, Lookahead(Context(), pos), i)
      {
        var h := Check(arms[i].test);
        if h {
          return Some(i);
        }
        i := i + 1;
      }
      r := None;
    }

    /** `while (test) { body }`: each iteration spends one unit of fuel. */
    method RunLoop(t: Test, body: seq<Stmt>, env: Env, fuel: nat) returns (o: Outcome)
      modifies this
      ensures o == Loop(Context(), t, body, env, old(pos), fuel)
      ensures o.Normal? || o.Returned? ==> pos == o.pos
      decreases fuel, Size(body) + 1, 0
    {
      var e := env;
      var f: nat := fuel;
      while true
        invariant f <= fuel
        invariant Loop(Context(), t, body, e, pos, f) == Loop(Context(), t, body, env, old(pos), fuel)
        decreases f
      {
        var h := Check(t);
        if !h {
          return Normal(e, pos);
        }
        if f == 0 {
          return Failed(OutOfFuel);
        }
        var inner := Run(body, e, f - 1);
        match inner {
          case Normal(e', _) =>
            e := e';
            f := f - 1;
          case _ =>
            return inner;
        }
      }
    }

    /** Call the parse function `name` from the current token, as `visitor`-producing code does. */
    method Parse(name: string, fuel: nat) returns (o: Evaluated<Value>)
      modifies this
      ensures o == Eval(Context(), CallParse(name), map[], old(pos), fuel)
      ensures o.Evaluated? ==> pos == o.pos
    {
      o := Evaluate(CallParse(name), map[], fuel);
    }
  }
}
