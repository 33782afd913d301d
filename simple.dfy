/**
 * The grammar the repository's own Kotlin tests are generated from
 * (test/src/test/kotlin/simple), rebuilt from the visitor those tests
 * implement: eight productions over the terminals `Identifier` and
 * `LiteralInt`. The generator accepts it, the generated visitor has
 * exactly the methods and parameter types the tests' `TestVisitor`
 * overrides, the generator as written agrees with the corrected one on it,
 * and some of the tests' parses come out as the tests expect.
 */
module Simple {
  import opened Wrappers
  import opened Names
  import opened Grammar
  import opened Types
  import opened Visitor
  import opened Plan
  import opened Semantics
  import opened Reference
  import opened Generator
  import opened Repaired
  import opened Correctness
  import opened Agreement
  import opened Structure

  const Ident: Expr := Identifier("Identifier")
  const Int: Expr := Identifier("LiteralInt")

  const Productions: seq<Production> := [
    Production("Id", Ident),
    Production("Ids", Many(Ident)),
    Production("OptionalId", Optional(Identifier("Id"))),
    Production("ManyIds", Sequence([Identifier("Id"), Identifier("Ids")])),
    Production("AlternativeValues", Alternative([Identifier("Ids"), Int])),
    Production("OptionalManyIds", Optional(Identifier("ManyIds"))),
    Production("ManyAlternativeValues",
      Many(Alternative([Sequence([Identifier("Id"), Identifier("Ids")]), Int]))),
    Production("ManyAlternativeOptionalValues",
      Many(Alternative([Sequence([Identifier("Id"), Identifier("Ids")]), Optional(Int)])))
  ]

  const NonTerminals: set<string> :=
    {"Id", "Ids", "OptionalId", "ManyIds", "AlternativeValues", "OptionalManyIds",
     "ManyAlternativeValues", "ManyAlternativeOptionalValues"}

  /** The FIRST set of a nonterminal of this grammar. */
  function NonTerminalFirst(n: string): seq<string>
  {
    if n in {"Id", "ManyIds"} then ["Identifier"]
    else if n in {"Ids", "OptionalId", "OptionalManyIds"} then ["Identifier", Epsilon]
    else if n == "AlternativeValues" then ["Identifier", Epsilon, "LiteralInt"]
    else ["Identifier", "LiteralInt", Epsilon]
  }

  /** FIRST sets of this grammar, whose sequences all start with an element that cannot be empty. */
  function SimpleFirst(e: Expr): seq<string>
    decreases e, 1
  {
    match e
    case Identifier(n) => if n in NonTerminals then NonTerminalFirst(n) else [n]
    case Sequence(es) => if es == [] then [Epsilon] else SimpleFirst(es[0])
    case Alternative(es) => AllFirst(es)
    case Many(x) => SimpleFirst(x) + [Epsilon]
    case Optional(x) => SimpleFirst(x) + [Epsilon]
  }

  function AllFirst(es: seq<Expr>): seq<string>
    decreases es, 0
  {
    if es == [] then [] else SimpleFirst(es[0]) + AllFirst(es[1..])
  }

  const SimpleGrammar: Definition := Definition(Productions, NonTerminals, SimpleFirst)

  /** Every nonterminal has its production and the parse function names differ. */
  lemma SimpleWellFormed()
    ensures WellFormed(SimpleGrammar)
  {
    var d := SimpleGrammar;
    assert d.productions == Productions;
    forall n | n in d.nonTerminalNames
      ensures exists i :: 0 <= i < |d.productions| && d.productions[i].lhs == n
    {
      if n == "Id" { assert d.productions[0].lhs == n; }
      else if n == "Ids" { assert d.productions[1].lhs == n; }
      else if n == "OptionalId" { assert d.productions[2].lhs == n; }
      else if n == "ManyIds" { assert d.productions[3].lhs == n; }
      else if n == "AlternativeValues" { assert d.productions[4].lhs == n; }
      else if n == "OptionalManyIds" { assert d.productions[5].lhs == n; }
      else if n == "ManyAlternativeValues" { assert d.productions[6].lhs == n; }
      else { assert d.productions[7].lhs == n; }
    }
    forall i, j | 0 <= i < j < |d.productions|
      ensures ParseFunctionName(d.productions[i].lhs) != ParseFunctionName(d.productions[j].lhs)
    {
      var x, y := d.productions[i].lhs, d.productions[j].lhs;
      assert x != y;
      assert |x| >= 2 && |y| >= 2 && 'A' <= x[0] <= 'Z' && 'A' <= y[0] <= 'Z';
      if x[0] == y[0] {
        assert x[1..] != y[1..];
      }
    }
  }

  /** A two-element sequence `Id Ids` inside a nested alternative is written as the corrected generator writes it. */
  lemma PairSupported(v: string, k: Assigner, s: Sink)
    requires Emit(k, Var(v)) == EmitFixed(s, Var(v))
    ensures Supported(Sequence([Identifier("Id"), Identifier("Ids")]), k, s, v)
  {
  }

  /** The two productions whose bodies hold a nested alternative hand each branch's union value to the list. */
  lemma ManyAlternativesSupported()
    ensures ProductionSupported(Productions[6])
    ensures ProductionSupported(Productions[7])
  {
    var k0, s0 := WrapUnion(2, 0, "at", AddArg("a")), Wrap(2, 0, AddTo("a"));
    var k1, s1 := WrapUnion(2, 1, "at", AddArg("a")), Wrap(2, 1, AddTo("a"));
    assert Emit(k0, Var("at")) == EmitFixed(s0, Var("at"));
    assert Emit(k1, Var("at")) == EmitFixed(s1, Var("at"));
    PairSupported("at", k0, s0);
    assert TempName("at") == "att";
    assert Supported(Int, SetTemp("at", "att"), SetTo("at"), "att");
    assert Supported(Optional(Int), k1, s1, "at");
  }

  lemma SimpleSupported()
    ensures GrammarSupported(SimpleGrammar)
  {
    ManyAlternativesSupported();
    assert SimpleGrammar.productions == Productions;
    assert ProductionSupported(Productions[3]);
    assert forall i :: 0 <= i < 8 ==> ProductionSupported(Productions[i]);
  }

  /** The generator accepts the grammar: no alternative production has an alternative branch. */
  lemma SimpleCompiles()
    ensures CompileParser(SimpleGrammar).Ok?
  {
    ParserMatchesVisitor(SimpleGrammar);
    assert SimpleGrammar.productions == Productions;
    assert forall i :: 0 <= i < 8 ==> !NestedTopAlternative(Productions[i]);
  }

  /** The element types of the sequence `Id Ids`: `Tuple2<T_Id, T_Ids>`, a pair of strings in the tests. */
  const PairType: DerivedType := TupleType([ResultType("Id"), ResultType("Ids")])

  /** The methods `TestVisitor` overrides, with their parameters, in declaration order. */
  const TestVisitorMethods: seq<Signature> := [
    Signature("visitId", [Param("a", TokenType)], "Id"),
    Signature("visitIds", [Param("a", ListType(TokenType))], "Ids"),
    Signature("visitOptionalId", [Param("a", NullableType(ResultType("Id")))], "OptionalId"),
    Signature("visitManyIds", [Param("a1", ResultType("Id")), Param("a2", ResultType("Ids"))], "ManyIds"),
    Signature("visitAlternativeValues1", [Param("a", ResultType("Ids"))], "AlternativeValues"),
    Signature("visitAlternativeValues2", [Param("a", TokenType)], "AlternativeValues"),
    Signature("visitOptionalManyIds", [Param("a", NullableType(ResultType("ManyIds")))], "OptionalManyIds"),
    Signature("visitManyAlternativeValues",
      [Param("a", ListType(UnionType([PairType, TokenType])))], "ManyAlternativeValues"),
    Signature("visitManyAlternativeOptionalValues",
      [Param("a", ListType(UnionType([PairType, NullableType(TokenType)])))], "ManyAlternativeOptionalValues")
  ]

  /** The methods of the first four productions, each with its one parameter list. */
  lemma FirstSignatures()
    ensures Signatures(SimpleGrammar, Productions[..4]) == TestVisitorMethods[..4]
  {
    var d := SimpleGrammar;
    assert "Identifier" !in d.nonTerminalNames && "Id" in d.nonTerminalNames && "Ids" in d.nonTerminalNames;
    assert ExprType(d, Ident) == TokenType;
    assert ExprType(d, Identifier("Id")) == ResultType("Id");
    assert ExprType(d, Identifier("Ids")) == ResultType("Ids");
    assert ArgumentName(0) == "a1" && ArgumentName(1) == "a2" by {
      assert NatToString(1) == "1" && NatToString(2) == "2";
    }
    assert Parameters(d, Ident) == [Param("a", TokenType)];
    assert Parameters(d, Many(Ident)) == [Param("a", ListType(TokenType))];
    assert Parameters(d, Optional(Identifier("Id"))) == [Param("a", NullableType(ResultType("Id")))];
    assert Parameters(d, Sequence([Identifier("Id"), Identifier("Ids")]))
        == [Param("a1", ResultType("Id")), Param("a2", ResultType("Ids"))];
    assert MethodName("Id") == "visitId" && MethodName("Ids") == "visitIds";
    assert MethodName("OptionalId") == "visitOptionalId" && MethodName("ManyIds") == "visitManyIds";
    assert ProductionSignatures(d, Productions[0]) == TestVisitorMethods[..1];
    assert ProductionSignatures(d, Productions[1]) == TestVisitorMethods[1..2];
    assert ProductionSignatures(d, Productions[2]) == TestVisitorMethods[2..3];
    assert ProductionSignatures(d, Productions[3]) == TestVisitorMethods[3..4];
    assert Signatures(d, Productions[3..4]) == TestVisitorMethods[3..4] by {
      assert Productions[3..4][1..] == [];
      assert TestVisitorMethods[3..4] + [] == TestVisitorMethods[3..4];
    }
    assert Signatures(d, Productions[2..4]) == TestVisitorMethods[2..4] by {
      assert Productions[2..4][1..] == Productions[3..4];
      assert TestVisitorMethods[2..3] + TestVisitorMethods[3..4] == TestVisitorMethods[2..4];
    }
    assert Signatures(d, Productions[1..4]) == TestVisitorMethods[1..4] by {
      assert Productions[1..4][1..] == Productions[2..4];
      assert TestVisitorMethods[1..2] + TestVisitorMethods[2..4] == TestVisitorMethods[1..4];
    }
    assert Productions[..4][1..] == Productions[1..4];
    assert TestVisitorMethods[..1] + TestVisitorMethods[1..4] == TestVisitorMethods[..4];
  }

  /** The methods of the last four productions; the alternative contributes one method per branch. */
  lemma LastSignatures()
    ensures Signatures(SimpleGrammar, Productions[4..]) == TestVisitorMethods[4..]
  {
    var d := SimpleGrammar;
    AlternativeSignatures();
    ListSignatures();
    OptionalListSignatures();
    assert ProductionSignatures(d, Productions[4]) == TestVisitorMethods[4..6];
    assert ProductionSignatures(d, Productions[6]) == TestVisitorMethods[7..8];
    assert ProductionSignatures(d, Productions[7]) == TestVisitorMethods[8..];
    assert "ManyIds" in d.nonTerminalNames;
    assert ExprType(d, Identifier("ManyIds")) == ResultType("ManyIds");
    assert Parameters(d, Optional(Identifier("ManyIds"))) == [Param("a", NullableType(ResultType("ManyIds")))];
    assert MethodName("OptionalManyIds") == "visitOptionalManyIds";
    assert ProductionSignatures(d, Productions[5]) == TestVisitorMethods[6..7];
    assert Signatures(d, Productions[7..]) == TestVisitorMethods[8..] by {
      assert Productions[7..][1..] == [];
      assert TestVisitorMethods[8..] + [] == TestVisitorMethods[8..];
    }
    assert Signatures(d, Productions[6..]) == TestVisitorMethods[7..] by {
      assert Productions[6..][1..] == Productions[7..];
      assert TestVisitorMethods[7..8] + TestVisitorMethods[8..] == TestVisitorMethods[7..];
    }
    assert Signatures(d, Productions[5..]) == TestVisitorMethods[6..] by {
      assert Productions[5..][1..] == Productions[6..];
      assert TestVisitorMethods[6..7] + TestVisitorMethods[7..] == TestVisitorMethods[6..];
    }
    assert Productions[4..][1..] == Productions[5..];
    assert TestVisitorMethods[4..6] + TestVisitorMethods[6..] == TestVisitorMethods[4..];
  }

  lemma AlternativeSignatures()
    ensures ProductionSignatures(SimpleGrammar, Production("AlternativeValues", Alternative([Identifier("Ids"), Int])))
         == [Signature("visitAlternativeValues1", [Param("a", ResultType("Ids"))], "AlternativeValues"),
             Signature("visitAlternativeValues2", [Param("a", TokenType)], "AlternativeValues")]
  {
    var d := SimpleGrammar;
    assert "LiteralInt" !in d.nonTerminalNames && "Ids" in d.nonTerminalNames;
    assert Parameters(d, Identifier("Ids")) == [Param("a", ResultType("Ids"))];
    assert Parameters(d, Int) == [Param("a", TokenType)];
    assert BranchVisitorName("AlternativeValues", 0) == "AlternativeValues1" by {
      assert NatToString(1) == "1";
    }
    assert BranchVisitorName("AlternativeValues", 1) == "AlternativeValues2" by {
      assert NatToString(2) == "2";
    }
    assert MethodName("AlternativeValues1") == "visitAlternativeValues1";
    assert MethodName("AlternativeValues2") == "visitAlternativeValues2";
  }

  /** The type of the list item of the last two productions: a union of the pair and of a (nullable) integer token. */
  lemma UnionTypes()
    ensures ExprType(SimpleGrammar, Alternative([Sequence([Identifier("Id"), Identifier("Ids")]), Int]))
         == UnionType([PairType, TokenType])
    ensures ExprType(SimpleGrammar, Alternative([Sequence([Identifier("Id"), Identifier("Ids")]), Optional(Int)]))
         == UnionType([PairType, NullableType(TokenType)])
  {
    var d := SimpleGrammar;
    var pair := Sequence([Identifier("Id"), Identifier("Ids")]);
    assert "LiteralInt" !in d.nonTerminalNames && "Id" in d.nonTerminalNames && "Ids" in d.nonTerminalNames;
    assert ExprType(d, pair) == PairType;
    assert ExprType(d, Int) == TokenType;
    assert ExprType(d, Optional(Int)) == NullableType(TokenType);
    var t1 := ExprType(d, Alternative([pair, Int]));
    assert |t1.items| == 2 && t1.items[0] == PairType && t1.items[1] == TokenType;
    var t2 := ExprType(d, Alternative([pair, Optional(Int)]));
    assert |t2.items| == 2 && t2.items[0] == PairType && t2.items[1] == NullableType(TokenType);
  }

  lemma ListSignatures()
    ensures ProductionSignatures(SimpleGrammar, Production("ManyAlternativeValues",
              Many(Alternative([Sequence([Identifier("Id"), Identifier("Ids")]), Int]))))
         == [Signature("visitManyAlternativeValues",
               [Param("a", ListType(UnionType([PairType, TokenType])))], "ManyAlternativeValues")]
  {
    var alt := Alternative([Sequence([Identifier("Id"), Identifier("Ids")]), Int]);
    UnionTypes();
    assert ExprType(SimpleGrammar, Many(alt)) == ListType(UnionType([PairType, TokenType]));
    assert Parameters(SimpleGrammar, Many(alt)) == [Param("a", ListType(UnionType([PairType, TokenType])))];
    assert MethodName("ManyAlternativeValues") == "visitManyAlternativeValues";
  }

  lemma OptionalListSignatures()
    ensures ProductionSignatures(SimpleGrammar, Production("ManyAlternativeOptionalValues",
              Many(Alternative([Sequence([Identifier("Id"), Identifier("Ids")]), Optional(Int)]))))
         == [Signature("visitManyAlternativeOptionalValues",
               [Param("a", ListType(UnionType([PairType, NullableType(TokenType)])))], "ManyAlternativeOptionalValues")]
  {
    var alt := Alternative([Sequence([Identifier("Id"), Identifier("Ids")]), Optional(Int)]);
    UnionTypes();
    assert ExprType(SimpleGrammar, Many(alt)) == ListType(UnionType([PairType, NullableType(TokenType)]));
    assert Parameters(SimpleGrammar, Many(alt)) == [Param("a", ListType(UnionType([PairType, NullableType(TokenType)])))];
    assert MethodName("ManyAlternativeOptionalValues") == "visitManyAlternativeOptionalValues";
  }

  /** The generated visitor is the interface `TestVisitor` implements: its methods, in order, with their parameters. */
  lemma SimpleVisitor()
    ensures WriteVisitor(SimpleGrammar).methods == TestVisitorMethods
  {
    FirstSignatures();
    LastSignatures();
    assert SimpleGrammar.productions == Productions;
    SignaturesAppend(SimpleGrammar, Productions[..4], Productions[4..]);
    assert Productions[..4] + Productions[4..] == Productions;
    assert TestVisitorMethods[..4] + TestVisitorMethods[4..] == TestVisitorMethods;
  }

  lemma {:induction false} SignaturesAppend(d: Definition, a: seq<Production>, b: seq<Production>)
    ensures Signatures(d, a + b) == Signatures(d, a) + Signatures(d, b)
  {
    if a == [] {
      assert a + b == b;
    } else {
      assert (a + b)[0] == a[0];
      assert (a + b)[1..] == a[1..] + b;
      SignaturesAppend(d, a[1..], b);
    }
  }
}
