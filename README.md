# parspiler-tool-kotlin: the Kotlin parser generator, modelled in Dafny

`mod.ts` turns a resolved grammar into a recursive-descent parser written in
Kotlin: a generic `Visitor` interface with one method per production (one per
branch for an alternative body), and a `Parser` class with one parse function
per production plus a handful of runtime helpers over the scanner. This
project models that generator and the parsers it emits, and proves what the
emitted code does.

- `names.dfy` (module `Names`): `splitName`, `parseFunctioName`, and the
  numbered names the generator invents (`a1`, `visitX2`, `v1`, `vt`).
- `grammar.dfy` (`Grammar`): the five expression shapes, productions, the
  nonterminal set and the FIRST-set oracle `first`, left free.
- `types.dfy`, `visitor.dfy` (`Types`, `Visitor`): `writeExprType`,
  `writeGenericTypeVariables` and `writeVisitor` as functions to datatypes.
- `plan.dfy` (`Plan`): the statements a parse function is made of, as a
  syntax tree instead of text.
- `generator.dfy` (`Generator`): `writeExpr`, `writeTopLevelExpresseion`,
  `writeTopLevelBody`, `writeParseFunctions`, `writeIsToken` and
  `writeExpectedTokens` as written. The `assign` closures become the
  `Assigner` datatype.
- `semantics.dfy` (`Semantics`): what the emitted code does when run, an
  interpreter with the runtime helpers built in. The visitor is left
  uninterpreted: `visitor.visitX(args)` yields `VisitValue("visitX", args)`.
- `runtime.dfy` (`Runtime`): the emitted `Parser` class as a Dafny class with
  a mutable cursor. Its methods are proved to compute what the interpreter
  says.
- `reference.dfy` (`Reference`): what each parse function is meant to
  return, stated directly on the grammar.
- `repaired.dfy` (`Repaired`): the generator with its two callback defects
  corrected (see "## Findings").
- `correctness.dfy` (`Correctness`): every parse function the corrected
  generator emits computes the reference result, for every well-formed
  grammar, token sequence and fuel.
- `agreement.dfy` (`Agreement`): on grammars where no defective callback is
  reached, the generator as written emits exactly the corrected code, so its
  parsers are correct there too.
- `structure.dfy` (`Structure`): when generation fails, and which visitor
  methods the class calls (exactly those the interface declares).
- `typing.dfy` (`Typing`): the values a parse computes have the types
  `writeExprType` derives, and every visitor call fits its declared method.
- `findings.dfy` (`Findings`): the two defects, each on a concrete grammar.
- `simple.dfy`, `simple_tests.dfy` (`Simple`, `SimpleTests`): the grammar of
  the repository's Kotlin tests, and several of those tests' parses.
- `sequences.dfy` (`Sequences`): generic facts about sequence concatenation
  that the proofs use.

Fuel bounds the depth of a run: each parse call and each loop iteration
costs one unit. A run that exhausts it ends in `OutOfFuel`; the theorems hold
for every fuel.

Two facts about the code that shape the model:
- The code has no token-set interner: every `isTokens(setOf(...))` and every
  expected set is spelled inline where it is used (mod.ts:470-486). `TestFor`
  and the `When` statement carry the kinds inline.
- `InternalError` carries a fixed reason and the offending expression
  (mod.ts:401-406). `GenError` models it.

## Model

| member | source | states |
|---|---|---|
| Names.SplitName | mod.ts:624-631 | with no `.`, the result is `("", name)`; otherwise prefix + "." + suffix is the name and the suffix has no `.` |
| Names.SplitNameUnique | mod.ts:624-631 | the split is at the last `.`: any prefix/suffix pair whose suffix has no `.` is the one returned |
| Names.LastIndexOf | mod.ts:625 | -1 exactly when the character is absent; otherwise it is there and not after |
| Names.LowerChar | mod.ts:614 | an ASCII upper-case letter moves 32 code points down to its lower-case letter; every other character is unchanged |
| Names.ParseFunctionName | mod.ts:613-614 | same length, first character is `LowerChar` of the name's first character, everything after it unchanged |
| Names.ParseFunctionNameIdempotent | mod.ts:613-614 | lower-casing an already converted name changes nothing |
| Names.ParseFunctionNameCollides | mod.ts:613-614 | two names get the same parse function name exactly when they have the same length, their first characters agree up to ASCII case and the rest is equal |
| Names.NatToStringInjective | mod.ts:160 | different numbers give different numerals, so `a1..an` and `visit<lhs>1..n` never repeat |
| Grammar.RemoveEpsilon | mod.ts:471 | exactly the kinds of the FIRST set other than the epsilon marker, no more elements than before |
| Types.ExprTypeDependsOnShapeOnly | mod.ts:117-148 | the derived type depends only on the expression and the nonterminal set, not on productions or FIRST sets |
| Types.GenericTypeVariables | mod.ts:112-115 | one `T_<lhs>` per production, in production order |
| Visitor.ParameterNamesDistinct | mod.ts:151-163 | the parameter names of every generated method are pairwise distinct |
| Visitor.ProductionSignaturesShape | mod.ts:165-178 | an n-branch alternative gives n methods, method i named `visit<lhs><i+1>` taking branch i; any other body one `visit<lhs>`; all return `T_<lhs>` |
| Visitor.SignaturesOfProductions | mod.ts:180-188 | the interface holds exactly the methods of the productions, as many as their branch counts |
| Generator.TestFor | mod.ts:478-486 | `isToken` exactly when one kind remains; the test holds for a lookahead exactly when it is in FIRST(e) without epsilon |
| Semantics.Peek | mod.ts:546-547 | the token at the cursor, or the end-of-stream token past the input |
| Semantics.Advance | mod.ts:536-538 | moves one token on inside the input and stays put at its end |
| Semantics.SelectArm | mod.ts:413-434 | the first arm, in declaration order, whose test holds; none earlier holds; none at all when it gives nothing |
| Semantics.ExecWhen | mod.ts:435-447 | a `when` runs the first arm whose test holds, or throws `ParsingException(peek(), expected)` |
| Semantics.ExecAppend | mod.ts:194-332 | running two blocks one after the other runs the first, then the second from where it stopped |
| Reference.FirstMatch | mod.ts:236-277 | the first branch whose FIRST set holds the lookahead; no earlier branch's does |
| Reference.DenoteMany | mod.ts:279-305 | a repetition never moves backwards, consumes nothing when empty, and stops only where the lookahead cannot start another item |
| Reference.DenoteTop | mod.ts:334-408 | a body calls `visit<visitorName>` with one argument per declared parameter |
| Correctness.IdentifierCorrect | mod.ts:200-214 | a nonterminal calls its parse function and a terminal calls `matchToken`, with the reference result |
| Correctness.SelectArmAgrees | mod.ts:236-277 | the `when` the code emits picks the same branch as the reference first-match |
| Correctness.FixedExprCorrect | mod.ts:194-332 | the corrected code of any nested expression delivers the reference value to its caller, or fails as the reference fails, leaving other variables alone |
| Correctness.IdentifierExprCorrect | mod.ts:200-214 | the same for an identifier |
| Correctness.SequenceExprCorrect | mod.ts:215-235 | the same for a sequence: a tuple of the element values, in order |
| Correctness.AlternativeExprCorrect | mod.ts:236-277 | the same for an alternative: the chosen branch's value in its `Union<n><letter>` wrapper |
| Correctness.ManyExprCorrect | mod.ts:279-305 | the same for a nested repetition: the list of all items, handed over once |
| Correctness.OptionalExprCorrect | mod.ts:306-329 | the same for an option: the value, or null without consuming input |
| Correctness.FixedElementsCorrect | mod.ts:220-228 | the elements of a sequence bind `v1..vn` to the reference values in order |
| Correctness.FixedLoopCorrect | mod.ts:290-304 | the `while` loop appends exactly the reference items to its list |
| Correctness.FixedTopLevelCorrect | mod.ts:334-408 | a body that is not dispatched on returns the reference visitor call |
| Correctness.TopIdentifierCorrect | mod.ts:336-351 | `return visitor.visit<n>(...)` of one identifier returns the reference call |
| Correctness.TopSequenceCorrect | mod.ts:352-364 | a top-level sequence passes `a1..an` to the visitor, the reference values |
| Correctness.TopManyCorrect | mod.ts:365-384 | a top-level repetition passes the list of all items |
| Correctness.TopOptionalCorrect | mod.ts:385-400 | a top-level option passes the value or null |
| Correctness.FixedTopArmsShape | mod.ts:419-434 | arm i tests FIRST of branch i and returns `visit<lhs><i+1>` |
| Correctness.ProductionCorrect | mod.ts:410-450 | each parse function body computes its production's reference result |
| Correctness.FixedFunctionsShape | mod.ts:452-468 | one function per production, in order, named by `parseFunctioName` |
| Correctness.ClassLoaded | mod.ts:452-468 | in a well-formed grammar each production finds its own function in the class |
| Correctness.ParserCorrect | mod.ts:191-552 | every parse function of the corrected class returns exactly the reference result, or throws what it throws |
| Agreement.ExprAgrees | mod.ts:194-332 | where its callback is honoured, `writeExpr` as written emits the corrected code |
| Agreement.SequenceAgrees | mod.ts:215-235 | the same for a sequence |
| Agreement.AlternativeAgrees | mod.ts:236-277 | the same for an alternative |
| Agreement.ElementsAgree | mod.ts:220-228 | the same for the elements of a sequence |
| Agreement.TopLevelAgrees | mod.ts:334-408 | `writeTopLevelExpresseion` as written emits the corrected body |
| Agreement.TopSequenceAgrees | mod.ts:352-364 | the same for a top-level sequence |
| Agreement.TopArmsAgree | mod.ts:419-434 | the same for the arms of a top-level alternative |
| Agreement.BodyAgrees | mod.ts:410-450 | the same for a whole production body |
| Agreement.FunctionsAgree | mod.ts:452-468 | the same for all parse functions |
| Agreement.ParserAgrees | mod.ts:488-552 | on a grammar where no defective callback is reached, the class as written is the corrected class |
| Agreement.GeneratedParserCorrect | mod.ts:191-552 | on such a grammar the parse functions as written compute exactly the reference result |
| Structure.ExprHasNoCalls | mod.ts:194-332 | nested expressions never call the visitor |
| Structure.ElementsHaveNoCalls | mod.ts:220-228 | nor do the elements of a sequence |
| Structure.TopLevelCalls | mod.ts:334-408 | a body calls exactly one visitor method, `visit<visitorName>`, with one argument per parameter |
| Structure.TopArmsShape | mod.ts:401-406 | generation of arms fails exactly when some branch is itself an alternative, with `InternalError` naming the first such branch |
| Structure.BodyFails | mod.ts:427-430 | a production body fails to generate exactly when it is an alternative with an alternative branch |
| Structure.BodyCalls | mod.ts:410-450 | a body calls exactly the methods the interface declares for its production |
| Structure.AlternativeBodyCalls | mod.ts:413-448 | an alternative body calls exactly its branches' methods |
| Structure.FunctionsShape | mod.ts:452-468 | all functions are generated exactly when no body fails; then they call exactly the declared methods |
| Structure.ParserMatchesVisitor | mod.ts:488-499 | the class is generated exactly when no body fails; it has the interface's type variables, one function per production, and calls exactly the interface's methods |
| Structure.RepairedFailsAlike | mod.ts:401-406 | the corrected generator fails on exactly the same grammars |
| Structure.RepairedBodyFailsAlike | mod.ts:410-450 | the same for one production |
| Structure.RepairedArmsFailAlike | mod.ts:419-434 | the same for the arms of an alternative |
| Typing.DenoteWellTyped | mod.ts:117-148 | the value parsed for an expression inhabits the type `writeExprType` derives for it; a `T_<n>` value is the result of one of production `n`'s own visitor methods |
| Typing.ProductionResult | mod.ts:170-178 | a production's parse returns the result of `visit<lhs>` or of a branch method `visit<lhs><i+1>`, that is, a `T_<lhs>` |
| Typing.ResultTypesDistinct | mod.ts:120-123 | the result of `visitIds` does not inhabit `T_Id` (nor `visitId`'s `T_Ids`), so arguments in the wrong order do not fit parameters `(a1: T_Id, a2: T_Ids)` |
| Typing.AllWellTyped | mod.ts:124-131 | the element values of a sequence inhabit the element types, in order, each nonterminal element holding a result of its own production |
| Typing.ManyWellTyped | mod.ts:141 | every item of a repetition inhabits the item type, a nonterminal item being a result of its own production |
| Typing.TopWellTyped | mod.ts:151-163 | the arguments of a body's visitor call fit the parameters `writeParameters` declares, `T_<n>` parameters included |
| Typing.ProductionWellTyped | mod.ts:165-178 | a production's parse calls one of the methods declared for that production, with fitting arguments |
| Typing.CallsMatchInterface | mod.ts:150-189 | every visitor call is of a method of the interface, with fitting arguments |
| Typing.GeneratedCallsWellTyped | mod.ts:488-499 | where the generator as written is correct, its parse functions return a fitting call of an interface method |
| Runtime.Parser.constructor | mod.ts:488-499 | the parser starts at the first token |
| Runtime.Parser.Peek | mod.ts:546-547 | `peek()` is the current token and moves nothing |
| Runtime.Parser.SkipToken | mod.ts:536-538 | `skipToken()` moves one token on, or stays at the end |
| Runtime.Parser.NextToken | mod.ts:522-534 | `nextToken()` returns the current token and then moves on |
| Runtime.Parser.MatchToken | mod.ts:506-518 | on the right kind, returns the token and moves one on; otherwise throws `ParsingException(peek(), setOf(kind))` and moves nothing |
| Runtime.Parser.IsToken | mod.ts:540-541 | true exactly when the lookahead has the kind; the cursor does not move |
| Runtime.Parser.IsTokens | mod.ts:543-544 | true exactly when the lookahead is in the set; the cursor does not move |
| Runtime.Parser.Check | mod.ts:478-486 | a lookahead test holds exactly as the test says |
| Runtime.Parser.Evaluate | mod.ts:200-214 | evaluating a right-hand side in place gives the interpreter's value and cursor |
| Runtime.Parser.EvaluateArgs | mod.ts:352-364 | the same for the arguments of a visitor call, left to right |
| Runtime.Parser.Run | mod.ts:194-450 | running a block in place gives the interpreter's outcome and cursor |
| Runtime.Parser.SelectArmNow | mod.ts:413-434 | the arm chosen by scanning in order is the first whose test holds |
| Runtime.Parser.RunLoop | mod.ts:279-305 | running a `while` loop in place gives the interpreter's outcome |
| Runtime.Parser.Parse | mod.ts:452-468 | calling a parse function in place gives the interpreter's result |
| Findings.NestedAlternativeAsWritten | mod.ts:252-257 | as written, `S: (A \| B)` as a one-element sequence hands `visitS` the bare token on input `A` |
| Findings.NestedAlternativeReference | mod.ts:236-277 | the reference result on that input is `visitS(Union2a(token))` |
| Findings.NestedAlternativeIllTyped | mod.ts:150-189 | the as-written argument does not fit the declared `Union2<Token, Token>` parameter; the reference argument does |
| Findings.NestedAlternativeRepaired | mod.ts:252-257 | the corrected class returns the reference result on that input |
| Findings.NestedManyCode | mod.ts:279-305 | the code emitted for `L: A**` adds the inner list to the outer list inside the inner loop |
| Findings.NestedManyAsWritten | mod.ts:300 | as written, `L: A**` on `A A` gives `visitL([[a1], [a1, a2]])` |
| Findings.NestedManyReference | mod.ts:279-305 | the reference result on that input is `visitL([[a1, a2]])` |
| Findings.NestedManyRepaired | mod.ts:300 | the corrected class returns the reference result on that input |
| Findings.ExamplesWellFormed | mod.ts:452-468 | both example grammars are well formed and the corrected generator accepts them |
| Simple.SimpleWellFormed | test/src/test/kotlin/simple/ParserTests.kt:78-121 | the test grammar is well formed |
| Simple.SimpleSupported | test/src/test/kotlin/simple/ParserTests.kt:78-121 | no defective callback is reached in the test grammar |
| Simple.SimpleCompiles | test/src/test/kotlin/simple/ParserTests.kt:78-121 | the generator accepts the test grammar |
| Simple.SimpleVisitor | test/src/test/kotlin/simple/ParserTests.kt:88-120 | the generated interface declares exactly the methods `TestVisitor` overrides, in order, with their parameter types |
| SimpleTests.IdTest | test/src/test/kotlin/simple/ParserTests.kt:15 | `id()` on an identifier calls `visitId` with it and consumes it; on empty input it throws, expecting an identifier |
| SimpleTests.IdsEmptyTest | test/src/test/kotlin/simple/ParserTests.kt:19 | `ids()` on empty input calls `visitIds` with the empty list |
| SimpleTests.IdsTest | test/src/test/kotlin/simple/ParserTests.kt:21 | `ids()` on `hello world` calls `visitIds` with both tokens in order |
| SimpleTests.OptionalIdTest | test/src/test/kotlin/simple/ParserTests.kt:26 | `optionalId()` on `123` calls `visitOptionalId(null)` and consumes nothing |
| SimpleTests.ManyIdsTest | test/src/test/kotlin/simple/ParserTests.kt:31 | `manyIds()` on `hello` calls `visitManyIds` with `visitId(hello)` and `visitIds([])` |
| SimpleTests.AlternativeValuesTest | test/src/test/kotlin/simple/ParserTests.kt:37 | `alternativeValues()` on `123` calls `visitAlternativeValues2` with the integer token |
| SimpleTests.OptionalManyIdsTest | test/src/test/kotlin/simple/ParserTests.kt:43 | `optionalManyIds()` on empty input calls `visitOptionalManyIds(null)` |

## Left out

- `command`, `writeParser`, `copyLibrary` and `fileDateTime` (mod.ts:25-110, 566-622) are file-system and network I/O, timestamps and console output.
- The pretty-printer layout (`PP.nest`, `vcat`, `hcat`, blank lines) is rendering only. The plan records which statements appear and in which order, not their text.
- `writeParsingException` (mod.ts:554-564) is a fixed text block. Only its (found, expected) pair is modelled, as `Thrown`.
- `first`, `translate` and the scanner generator are library code that is not part of this model. `first` is a free function of the grammar. The scanner is its token sequence, and it ends in an `EOS` token that `skipToken` does not move past.
- Kotlin block scoping is not modelled: the emitted variables live in one flat environment. The generator's fresh names (`v1..vn`, `vt`) are proved never to clash with a variable still in use.
- Kotlin lists are modelled as values, not shared mutable objects. Aliasing is therefore not captured, including the same list added twice by the second finding.
- `parseFunctioName` lower-cases ASCII letters only; JavaScript's Unicode `toLowerCase` is not modelled.
- A sequence of eleven or more elements whose first element is a sequence declares `v11` twice in the emitted Kotlin, which the Kotlin compiler rejects. The flat environment makes this harmless here, so the model does not capture that rejection.
- The visitor's own methods are not run. A parse records which methods it calls and with what, not `TestVisitor`'s string and integer results.
- The tests with longer inputs (ParserTests.kt:20, 27, 32-33, 38-39, 44-45, 49-52, 62-65) are not worked through. The general theorems cover them.
- Generated parse functions run with fuel. Termination of a parse on grammars whose loops cannot consume input is not modelled.
- `test/src/test/kotlin/simple/ScannerTests.kt` and `mod_test.ts` exercise the scanner generator and the build tool, which are not part of this model.

## Findings

| source | as written | input that shows it | evidently intended | confidence | as-written member | corrected member |
|---|---|---|---|---|---|---|
| mod.ts:252-257 | a nested alternative's callback ignores its argument and wraps `variable`; a caller that passes `(_) => PP.empty` (a sequence element) therefore never stores the `Union<n><x>(...)` value | grammar `S: (A \| B)` written as a one-element sequence, input `A`: in the model's flat environment the parse calls `visitS(token)` instead of `visitS(Union2a(token))`, an argument that does not fit the declared `Union2<Token, Token>` parameter; in Kotlin `a1` is declared inside the `when` arm, so `return visitor.visitS(a1)` does not even compile | the element variable holds the union value of the chosen branch | high; not executed | Findings.NestedAlternativeAsWritten | Findings.NestedAlternativeRepaired |
| mod.ts:300 | a nested `Many` emits its caller's `assign(variable)` inside the loop, once per item | grammar `L: A**` (a `Many` of a `Many`), input `A A`: with lists as values the model gives `visitL([[a1], [a1, a2]])`; in Kotlin the same mutable list is added twice, giving `visitL([[a1, a2], [a1, a2]])`; intended is `visitL([[a1, a2]])` | the inner list is handed over once, after its loop, as a nested `Optional` does (mod.ts:328) | high; not executed | Findings.NestedManyAsWritten | Findings.NestedManyRepaired |
