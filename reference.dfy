/**
 * What a parse function is meant to compute, stated directly on the
 * grammar: the value of each expression shape, the visitor calls of a
 * production and the exception a parse raises. The lookahead decisions are
 * the generated parser's own (the first alternative whose FIRST set holds
 * the lookahead kind; a loop or an option continues while the lookahead is
 * in the FIRST set of its body), and fuel is spent as the emitted code
 * spends it.
 */
module Reference {
  import opened Wrappers
  import opened Grammar
  import opened Visitor
  import opened Semantics

  datatype Parsed<T> = Parsed(value: T, pos: nat) | ParseFailed(failure: Failure)

  /** The first of `es`, from `from` on, whose FIRST set holds `kind`. */
  function FirstMatch(d: Definition, es: seq<Expr>, kind: string, from: nat): (r: Option<nat>)
    ensures r.Some? ==> from <= r.value < |es| && kind in Kinds(d, es[r.value])
    ensures r.Some? ==> forall j :: from <= j < r.value ==> kind !in Kinds(d, es[j])
    ensures r.None? ==> forall j :: from <= j < |es| ==> kind !in Kinds(d, es[j])
    decreases |es| - from
  {
    if |es| <= from then None
    else if kind in Kinds(d, es[from]) then Some(from)
    else FirstMatch(d, es, kind, from + 1)
  }

  /** The first production whose left-hand side is `name`. */
  function ProductionFor(ps: seq<Production>, name: string): (r: Option<Production>)
    ensures r.Some? ==> r.value in ps && r.value.lhs == name
    ensures r.None? ==> forall p :: p in ps ==> p.lhs != name
  {
    if ps == [] then None
    else if ps[0].lhs == name then Some(ps[0])
    else ProductionFor(ps[1..], name)
  }

  /** The value of `e` at `pos`, and where its input ends; a parse never moves backwards. */
  function Denote(d: Definition, tokens: seq<Token>, e: Expr, pos: nat, fuel: nat): (r: Parsed<Value>)
    ensures r.Parsed? ==> pos <= r.pos
    decreases fuel, 0, e
  {
    match e
    case Identifier(n) =>
      if n in d.nonTerminalNames then
        if fuel == 0 then ParseFailed(OutOfFuel)
        else
          (match ProductionFor(d.productions, n)
           case None => ParseFailed(Stuck)
           case Some(p) => DenoteProduction(d, tokens, p, pos, fuel - 1))
      else
        var t := Peek(tokens, pos);
        if t.kind == n then Parsed(TokenValue(t), Advance(tokens, pos))
        else ParseFailed(Thrown(t, {n}))
    case Sequence(es) =>
      (match DenoteAll(d, tokens, es, pos, fuel)
       case Parsed(vs, p) => Parsed(TupleValue(vs), p)
       case ParseFailed(f) => ParseFailed(f))
    case Alternative(es) =>
      var t := Peek(tokens, pos);
      (match FirstMatch(d, es, t.kind, 0)
       case Some(i) =>
         (match Denote(d, tokens, es[i], pos, fuel)
          case Parsed(v, p) => Parsed(UnionValue(|es|, i, v), p)
          case ParseFailed(f) => ParseFailed(f))
       case None => ParseFailed(Thrown(t, AsSet(Kinds(d, e)))))
    case Many(x) =>
      (match DenoteMany(d, tokens, x, pos, fuel)
       case Parsed(vs, p) => Parsed(ListValue(vs), p)
       case ParseFailed(f) => ParseFailed(f))
    case Optional(x) =>
      if Peek(tokens, pos).kind in Kinds(d, x) then Denote(d, tokens, x, pos, fuel)
      else Parsed(NullValue, pos)
  }

  /** The values of the elements of a sequence, one per element, parsed one after the other. */
  function DenoteAll(d: Definition, tokens: seq<Token>, es: seq<Expr>, pos: nat, fuel: nat): (r: Parsed<seq<Value>>)
    ensures r.Parsed? ==> pos <= r.pos && |r.value| == |es|
    decreases fuel, 0, es
  {
    if es == [] then Parsed([], pos)
    else
      match Denote(d, tokens, es[0], pos, fuel)
      case ParseFailed(f) => ParseFailed(f)
      case Parsed(v, p) =>
        (match DenoteAll(d, tokens, es[1..], p, fuel)
         case ParseFailed(f) => ParseFailed(f)
         case Parsed(vs, p') => Parsed([v] + vs, p'))
  }

  /** The items of `Many(x)`: parse `x` while the lookahead may start it; each item costs one unit of fuel. */
  function DenoteMany(d: Definition, tokens: seq<Token>, x: Expr, pos: nat, fuel: nat): (r: Parsed<seq<Value>>)
    ensures r.Parsed? ==> pos <= r.pos
    ensures r.Parsed? && r.value == [] ==> r.pos == pos
    ensures r.Parsed? ==> Peek(tokens, r.pos).kind !in Kinds(d, x)
    decreases fuel, 0, x
  {
    if Peek(tokens, pos).kind !in Kinds(d, x) then Parsed([], pos)
    else if fuel == 0 then ParseFailed(OutOfFuel)
    else
      match Denote(d, tokens, x, pos, fuel - 1)
      case ParseFailed(f) => ParseFailed(f)
      case Parsed(v, p) =>
        (match DenoteMany(d, tokens, x, p, fuel - 1)
         case ParseFailed(f) => ParseFailed(f)
         case Parsed(vs, p') => Parsed([v] + vs, p'))
  }

  /** A nonterminal parses as its production, one unit of fuel deeper. */
  lemma DenoteNonTerminal(d: Definition, tokens: seq<Token>, n: string, p: Production, pos: nat, fuel: nat)
    requires n in d.nonTerminalNames && fuel > 0
    requires ProductionFor(d.productions, n) == Some(p)
    ensures Denote(d, tokens, Identifier(n), pos, fuel) == DenoteProduction(d, tokens, p, pos, fuel - 1)
  {
  }

  /** A two-element sequence parses its elements one after the other. */
  lemma DenotePair(d: Definition, tokens: seq<Token>, a: Expr, b: Expr, pos: nat, fuel: nat,
                   va: Value, p1: nat, vb: Value, p2: nat)
    requires Denote(d, tokens, a, pos, fuel) == Parsed(va, p1)
    requires Denote(d, tokens, b, p1, fuel) == Parsed(vb, p2)
    ensures DenoteAll(d, tokens, [a, b], pos, fuel) == Parsed([va, vb], p2)
  {
    assert [a, b][1..] == [b] && [b][1..] == [];
    assert DenoteAll(d, tokens, [], p2, fuel) == Parsed([], p2);
    assert [vb] + [] == [vb] && [va] + [vb] == [va, vb];
    assert DenoteAll(d, tokens, [b], p1, fuel) == Parsed([vb], p2);
  }

  /** One item of a repetition whose first item parses: the rest of the repetition decides. */
  lemma ManyStep(d: Definition, tokens: seq<Token>, x: Expr, pos: nat, fuel: nat, val: Value, p: nat)
    requires Peek(tokens, pos).kind in Kinds(d, x) && fuel > 0
    requires Denote(d, tokens, x, pos, fuel - 1) == Parsed(val, p)
    ensures DenoteMany(d, tokens, x, p, fuel - 1).ParseFailed? ==>
      DenoteMany(d, tokens, x, pos, fuel) == DenoteMany(d, tokens, x, p, fuel - 1)
    ensures DenoteMany(d, tokens, x, p, fuel - 1).Parsed? ==>
      DenoteMany(d, tokens, x, pos, fuel) ==
        Parsed([val] + DenoteMany(d, tokens, x, p, fuel - 1).value, DenoteMany(d, tokens, x, p, fuel - 1).pos)
  {
  }

  /**
   * The result of a production body that is not dispatched on: the visitor
   * method `visit<visitorName>` applied to the elements of a sequence, or to
   * the single value of any other shape.
   */
  function DenoteTop(d: Definition, tokens: seq<Token>, visitorName: string, e: Expr, pos: nat, fuel: nat): (r: Parsed<Value>)
    ensures r.Parsed? ==> pos <= r.pos && r.value.VisitValue? && r.value.visit == MethodName(visitorName)
    ensures r.Parsed? ==> |r.value.args| == |Parameters(d, e)|
    decreases fuel, 1, 0
  {
    if e.Sequence? then
      match DenoteAll(d, tokens, e.exprs, pos, fuel)
      case Parsed(vs, p) => Parsed(VisitValue(MethodName(visitorName), vs), p)
      case ParseFailed(f) => ParseFailed(f)
    else
      match Denote(d, tokens, e, pos, fuel)
      case Parsed(v, p) => Parsed(VisitValue(MethodName(visitorName), [v]), p)
      case ParseFailed(f) => ParseFailed(f)
  }

  /**
   * The result of a production's parse function: an alternative body picks
   * its branch by the lookahead and calls that branch's visitor method,
   * raising a parsing exception listing the alternative's kinds when none
   * fits; any other body calls the production's one visitor method.
   */
  function DenoteProduction(d: Definition, tokens: seq<Token>, p: Production, pos: nat, fuel: nat): (r: Parsed<Value>)
    ensures r.Parsed? ==> pos <= r.pos && r.value.VisitValue?
    decreases fuel, 2, 0
  {
    match p.expr
    case Alternative(es) =>
      var t := Peek(tokens, pos);
      (match FirstMatch(d, es, t.kind, 0)
       case Some(i) => DenoteTop(d, tokens, BranchVisitorName(p.lhs, i), es[i], pos, fuel)
       case None => ParseFailed(Thrown(t, AsSet(Kinds(d, p.expr)))))
    case _ => DenoteTop(d, tokens, p.lhs, p.expr, pos, fuel)
  }
}
