/**
 * Parses of the repository's Kotlin parser tests
 * (test/src/test/kotlin/simple/ParserTests.kt), run through the parser the
 * generator as written emits for the test grammar. The scanner is replaced
 * by its token sequence and the visitor by the values that record its
 * calls, so each lemma states which visitor methods the parse calls, with
 * which arguments, and where the input ends; `TestVisitor`'s own
 * computations on those arguments are not modelled.
 */
module SimpleTests {
  import opened Wrappers
  import opened Names
  import opened Grammar
  import opened Visitor
  import opened Plan
  import opened Semantics
  import opened Reference
  import opened Generator
  import opened Correctness
  import opened Agreement
  import opened Simple

  /** The parse functions of the class the generator as written emits for the test grammar, by name. */
  function SimpleTable(): map<string, seq<Stmt>>
  {
    match CompileParser(SimpleGrammar)
    case Ok(c) => FunctionTable(c.functions)
    case Err(_) => map[]
  }

  /** Calling the parse function of a production of the test grammar gives the reference result of that production. */
  lemma SimpleRun(p: Production, tokens: seq<Token>, fuel: nat)
    requires p in Productions
    ensures ParseFunctionName(p.lhs) in SimpleTable()
    ensures Exec(Ctx(tokens, SimpleTable()), SimpleTable()[ParseFunctionName(p.lhs)], map[], 0, fuel)
         == AsOutcome(DenoteProduction(SimpleGrammar, tokens, p, 0, fuel))
  {
    SimpleWellFormed();
    SimpleSupported();
    SimpleCompiles();
    assert SimpleGrammar.productions == Productions;
    GeneratedParserCorrect(SimpleGrammar, tokens, p, 0, fuel);
  }

  const Hello: Token := Token("Identifier", "hello")
  const World: Token := Token("Identifier", "world")
  const N123: Token := Token("LiteralInt", "123")

  /** The token kinds that may start the test grammar's expressions of these shapes. */
  lemma SimpleKinds()
    ensures Kinds(SimpleGrammar, Ident) == ["Identifier"]
    ensures Kinds(SimpleGrammar, Identifier("Id")) == ["Identifier"]
    ensures Kinds(SimpleGrammar, Identifier("Ids")) == ["Identifier"]
    ensures Kinds(SimpleGrammar, Identifier("ManyIds")) == ["Identifier"]
    ensures Kinds(SimpleGrammar, Int) == ["LiteralInt"]
  {
    assert RemoveEpsilon(["Identifier"]) == ["Identifier"] by {
      assert ["Identifier"][1..] == [];
    }
    assert RemoveEpsilon(["LiteralInt"]) == ["LiteralInt"] by {
      assert ["LiteralInt"][1..] == [];
    }
    assert RemoveEpsilon(["Identifier", Epsilon]) == ["Identifier"] by {
      assert ["Identifier", Epsilon][1..] == [Epsilon];
      assert [Epsilon][1..] == [];
      assert RemoveEpsilon([Epsilon]) == [];
    }
  }

  /** `id()` on `abc`: `visitId` of the identifier token; an empty input throws, expecting an identifier. */
  lemma IdTest(fuel: nat)
    ensures "id" in SimpleTable()
    ensures Exec(Ctx([Hello], SimpleTable()), SimpleTable()["id"], map[], 0, fuel)
         == Returned(VisitValue("visitId", [TokenValue(Hello)]), 1)
    ensures Exec(Ctx([], SimpleTable()), SimpleTable()["id"], map[], 0, fuel)
         == Failed(Thrown(Token(EndKind, ""), {"Identifier"}))
  {
    var p := Production("Id", Ident);
    assert Productions[0] == p;
    SimpleRun(p, [Hello], fuel);
    SimpleRun(p, [], fuel);
    assert ParseFunctionName("Id") == "id";
    IdDenotes(fuel);
  }

  lemma IdDenotes(fuel: nat)
    ensures DenoteProduction(SimpleGrammar, [Hello], Production("Id", Ident), 0, fuel)
         == Parsed(VisitValue("visitId", [TokenValue(Hello)]), 1)
    ensures DenoteProduction(SimpleGrammar, [], Production("Id", Ident), 0, fuel)
         == ParseFailed(Thrown(Token(EndKind, ""), {"Identifier"}))
  {
    var d := SimpleGrammar;
    assert MethodName("Id") == "visitId";
    assert "Identifier" !in d.nonTerminalNames;
    assert Peek([Hello], 0) == Hello;
    assert Denote(d, [Hello], Ident, 0, fuel) == Parsed(TokenValue(Hello), 1);
    assert DenoteTop(d, [Hello], "Id", Ident, 0, fuel) == Parsed(VisitValue("visitId", [TokenValue(Hello)]), 1);
    assert Denote(d, [], Ident, 0, fuel) == ParseFailed(Thrown(Token(EndKind, ""), {"Identifier"}));
    assert DenoteTop(d, [], "Id", Ident, 0, fuel) == ParseFailed(Thrown(Token(EndKind, ""), {"Identifier"}));
  }

  /** `ids()` on the empty input: `visitIds` of the empty list, nothing consumed. */
  lemma IdsEmptyTest(fuel: nat)
    ensures "ids" in SimpleTable()
    ensures Exec(Ctx([], SimpleTable()), SimpleTable()["ids"], map[], 0, fuel)
         == Returned(VisitValue("visitIds", [ListValue([])]), 0)
  {
    var p := Production("Ids", Many(Ident));
    assert Productions[1] == p;
    SimpleRun(p, [], fuel);
    assert ParseFunctionName("Ids") == "ids";
    IdsDenotes(fuel);
  }

  /** `ids()` on `hello world`: `visitIds` of both identifier tokens, in order; each loop iteration costs fuel. */
  lemma IdsTest(fuel: nat)
    requires 2 <= fuel
    ensures "ids" in SimpleTable()
    ensures Exec(Ctx([Hello, World], SimpleTable()), SimpleTable()["ids"], map[], 0, fuel)
         == Returned(VisitValue("visitIds", [ListValue([TokenValue(Hello), TokenValue(World)])]), 2)
  {
    var p := Production("Ids", Many(Ident));
    assert Productions[1] == p;
    SimpleRun(p, [Hello, World], fuel);
    assert ParseFunctionName("Ids") == "ids";
    IdsDenotes(fuel);
  }

  lemma IdsDenotes(fuel: nat)
    ensures DenoteProduction(SimpleGrammar, [], Production("Ids", Many(Ident)), 0, fuel)
         == Parsed(VisitValue("visitIds", [ListValue([])]), 0)
    ensures 2 <= fuel ==>
      DenoteProduction(SimpleGrammar, [Hello, World], Production("Ids", Many(Ident)), 0, fuel)
         == Parsed(VisitValue("visitIds", [ListValue([TokenValue(Hello), TokenValue(World)])]), 2)
  {
    var d := SimpleGrammar;
    SimpleKinds();
    assert MethodName("Ids") == "visitIds";
    assert "Identifier" !in d.nonTerminalNames;
    assert DenoteMany(d, [], Ident, 0, fuel) == Parsed([], 0);
    assert Denote(d, [], Many(Ident), 0, fuel) == Parsed(ListValue([]), 0);
    assert DenoteTop(d, [], "Ids", Many(Ident), 0, fuel) == Parsed(VisitValue("visitIds", [ListValue([])]), 0);
    if 2 <= fuel {
      var ts := [Hello, World];
      assert Peek(ts, 0) == Hello && Peek(ts, 1) == World && Peek(ts, 2).kind == EndKind;
      assert DenoteMany(d, ts, Ident, 2, fuel - 2) == Parsed([], 2);
      assert Denote(d, ts, Ident, 1, fuel - 2) == Parsed(TokenValue(World), 2);
      assert [TokenValue(World)] + [] == [TokenValue(World)];
      assert DenoteMany(d, ts, Ident, 1, fuel - 1) == Parsed([TokenValue(World)], 2);
      assert [TokenValue(Hello)] + [TokenValue(World)] == [TokenValue(Hello), TokenValue(World)];
      assert Denote(d, ts, Ident, 0, fuel - 1) == Parsed(TokenValue(Hello), 1);
      assert DenoteMany(d, ts, Ident, 0, fuel) == Parsed([TokenValue(Hello), TokenValue(World)], 2);
      assert Denote(d, ts, Many(Ident), 0, fuel) == Parsed(ListValue([TokenValue(Hello), TokenValue(World)]), 2);
    }
  }

  /** `optionalId()` on `123`: the lookahead cannot start an `Id`, so `visitOptionalId(null)` and nothing consumed. */
  lemma OptionalIdTest(fuel: nat)
    ensures "optionalId" in SimpleTable()
    ensures Exec(Ctx([N123], SimpleTable()), SimpleTable()["optionalId"], map[], 0, fuel)
         == Returned(VisitValue("visitOptionalId", [NullValue]), 0)
  {
    var p := Production("OptionalId", Optional(Identifier("Id")));
    assert Productions[2] == p;
    SimpleRun(p, [N123], fuel);
    assert ParseFunctionName("OptionalId") == "optionalId";
    OptionalIdDenotes(fuel);
  }

  lemma OptionalIdDenotes(fuel: nat)
    ensures DenoteProduction(SimpleGrammar, [N123], Production("OptionalId", Optional(Identifier("Id"))), 0, fuel)
         == Parsed(VisitValue("visitOptionalId", [NullValue]), 0)
  {
    var d, x := SimpleGrammar, Optional(Identifier("Id"));
    SimpleKinds();
    assert MethodName("OptionalId") == "visitOptionalId";
    assert Peek([N123], 0) == N123;
    assert Denote(d, [N123], x, 0, fuel) == Parsed(NullValue, 0);
    assert DenoteTop(d, [N123], "OptionalId", x, 0, fuel) == Parsed(VisitValue("visitOptionalId", [NullValue]), 0);
  }

  /** `manyIds()` on `hello`: `visitManyIds` of `visitId(hello)` and of `visitIds` of the empty list. */
  lemma ManyIdsTest(fuel: nat)
    requires 1 <= fuel
    ensures "manyIds" in SimpleTable()
    ensures Exec(Ctx([Hello], SimpleTable()), SimpleTable()["manyIds"], map[], 0, fuel)
         == Returned(VisitValue("visitManyIds",
              [VisitValue("visitId", [TokenValue(Hello)]), VisitValue("visitIds", [ListValue([])])]), 1)
  {
    var p := Production("ManyIds", Sequence([Identifier("Id"), Identifier("Ids")]));
    assert Productions[3] == p;
    SimpleRun(p, [Hello], fuel);
    assert ParseFunctionName("ManyIds") == "manyIds";
    ManyIdsDenotes(fuel);
  }

  lemma ManyIdsDenotes(fuel: nat)
    requires 1 <= fuel
    ensures DenoteProduction(SimpleGrammar, [Hello], Production("ManyIds", Sequence([Identifier("Id"), Identifier("Ids")])), 0, fuel)
         == Parsed(VisitValue("visitManyIds",
              [VisitValue("visitId", [TokenValue(Hello)]), VisitValue("visitIds", [ListValue([])])]), 1)
  {
    var id := VisitValue("visitId", [TokenValue(Hello)]);
    var ids := VisitValue("visitIds", [ListValue([])]);
    ManyIdsElements(fuel);
    var pair := [Identifier("Id"), Identifier("Ids")];
    DenotePair(SimpleGrammar, [Hello], pair[0], pair[1], 0, fuel, id, 1, ids, 1);
    ManyIdsName();
    assert DenoteTop(SimpleGrammar, [Hello], "ManyIds", Sequence(pair), 0, fuel)
        == Parsed(VisitValue("visitManyIds", [id, ids]), 1);
  }

  lemma ManyIdsName()
    ensures MethodName("ManyIds") == "visitManyIds"
  {
  }

  /** The two elements of `manyIds` on `hello`: the identifier, then the empty rest. */
  lemma ManyIdsElements(fuel: nat)
    requires 1 <= fuel
    ensures Denote(SimpleGrammar, [Hello], Identifier("Id"), 0, fuel) == Parsed(VisitValue("visitId", [TokenValue(Hello)]), 1)
    ensures Denote(SimpleGrammar, [Hello], Identifier("Ids"), 1, fuel) == Parsed(VisitValue("visitIds", [ListValue([])]), 1)
  {
    IdElement(fuel);
    IdsElement(fuel);
  }

  lemma IdElement(fuel: nat)
    requires 1 <= fuel
    ensures Denote(SimpleGrammar, [Hello], Identifier("Id"), 0, fuel) == Parsed(VisitValue("visitId", [TokenValue(Hello)]), 1)
  {
    IdDenotes(fuel - 1);
    SimpleLookups();
    DenoteNonTerminal(SimpleGrammar, [Hello], "Id", Production("Id", Ident), 0, fuel);
  }

  lemma IdsElement(fuel: nat)
    requires 1 <= fuel
    ensures Denote(SimpleGrammar, [Hello], Identifier("Ids"), 1, fuel) == Parsed(VisitValue("visitIds", [ListValue([])]), 1)
  {
    IdsAtEnd(fuel - 1);
    SimpleLookups();
    DenoteNonTerminal(SimpleGrammar, [Hello], "Ids", Production("Ids", Many(Ident)), 1, fuel);
  }

  /** The productions the test grammar's nonterminals `Id` and `Ids` name. */
  lemma SimpleLookups()
    ensures "Id" in SimpleGrammar.nonTerminalNames && "Ids" in SimpleGrammar.nonTerminalNames
    ensures ProductionFor(SimpleGrammar.productions, "Id") == Some(Production("Id", Ident))
    ensures ProductionFor(SimpleGrammar.productions, "Ids") == Some(Production("Ids", Many(Ident)))
  {
    var ps := SimpleGrammar.productions;
    assert ps == Productions;
    assert ps[1..][0] == Production("Ids", Many(Ident));
  }

  /** `ids()` where the input has ended: the empty list. */
  lemma IdsAtEnd(fuel: nat)
    ensures DenoteProduction(SimpleGrammar, [Hello], Production("Ids", Many(Ident)), 1, fuel)
         == Parsed(VisitValue("visitIds", [ListValue([])]), 1)
  {
    var d := SimpleGrammar;
    SimpleKinds();
    assert MethodName("Ids") == "visitIds";
    assert Peek([Hello], 1).kind == EndKind;
    assert DenoteMany(d, [Hello], Ident, 1, fuel) == Parsed([], 1);
    assert Denote(d, [Hello], Many(Ident), 1, fuel) == Parsed(ListValue([]), 1);
  }

  /** `alternativeValues()` on `123`: the second branch is chosen, so `visitAlternativeValues2` of the token. */
  lemma AlternativeValuesTest(fuel: nat)
    ensures "alternativeValues" in SimpleTable()
    ensures Exec(Ctx([N123], SimpleTable()), SimpleTable()["alternativeValues"], map[], 0, fuel)
         == Returned(VisitValue("visitAlternativeValues2", [TokenValue(N123)]), 1)
  {
    var p := Production("AlternativeValues", Alternative([Identifier("Ids"), Int]));
    assert Productions[4] == p;
    SimpleRun(p, [N123], fuel);
    AlternativeValuesName();
    AlternativeValuesDenotes(fuel);
  }

  lemma AlternativeValuesName()
    ensures ParseFunctionName("AlternativeValues") == "alternativeValues"
  {
    assert LowerChar('A') == 'a' && "AlternativeValues"[1..] == "lternativeValues";
  }

  lemma AlternativeValuesDenotes(fuel: nat)
    ensures DenoteProduction(SimpleGrammar, [N123], Production("AlternativeValues", Alternative([Identifier("Ids"), Int])), 0, fuel)
         == Parsed(VisitValue("visitAlternativeValues2", [TokenValue(N123)]), 1)
  {
    var d, ts := SimpleGrammar, [N123];
    SimpleKinds();
    var es := [Identifier("Ids"), Int];
    assert Peek(ts, 0) == N123;
    assert FirstMatch(d, es, "LiteralInt", 1) == Some(1);
    assert FirstMatch(d, es, "LiteralInt", 0) == Some(1);
    assert BranchVisitorName("AlternativeValues", 1) == "AlternativeValues2" by {
      assert NatToString(2) == "2";
    }
    assert MethodName("AlternativeValues2") == "visitAlternativeValues2";
    assert "LiteralInt" !in d.nonTerminalNames;
    assert Denote(d, ts, Int, 0, fuel) == Parsed(TokenValue(N123), 1);
  }

  /** `optionalManyIds()` on the empty input: `visitOptionalManyIds(null)`. */
  lemma OptionalManyIdsTest(fuel: nat)
    ensures "optionalManyIds" in SimpleTable()
    ensures Exec(Ctx([], SimpleTable()), SimpleTable()["optionalManyIds"], map[], 0, fuel)
         == Returned(VisitValue("visitOptionalManyIds", [NullValue]), 0)
  {
    var p := Production("OptionalManyIds", Optional(Identifier("ManyIds")));
    assert Productions[5] == p;
    SimpleRun(p, [], fuel);
    assert ParseFunctionName("OptionalManyIds") == "optionalManyIds";
    OptionalManyIdsDenotes(fuel);
  }

  lemma OptionalManyIdsDenotes(fuel: nat)
    ensures DenoteProduction(SimpleGrammar, [], Production("OptionalManyIds", Optional(Identifier("ManyIds"))), 0, fuel)
         == Parsed(VisitValue("visitOptionalManyIds", [NullValue]), 0)
  {
    var d, x := SimpleGrammar, Optional(Identifier("ManyIds"));
    SimpleKinds();
    assert MethodName("OptionalManyIds") == "visitOptionalManyIds";
    assert Denote(d, [], x, 0, fuel) == Parsed(NullValue, 0);
  }
}
