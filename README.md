# Statemachine example: a verified model of its semantic layer

This project models the semantic core of the Langium `statemachine` example
language. A statemachine declares events, integer and boolean attributes with
optional default expressions, an initial state, and states whose transitions
fire on an event, may carry a guard, and run actions.

The model covers six parts of the example:

- **The AST and its reflection** (`Ast`). The node types are datatypes. The
  module has the subtype relation computed by `computeIsSubtype`, the target
  type of every cross-reference (`getReferenceType`) and the property
  metadata of every node type (`getTypeMetaData`).
- **The C++ generator** (`Generator`). It has the constant folder
  `evalExprWithEnv` over JavaScript `number | boolean` values (`Values`).
  It also has the text builders for the abstract `State` class, the context
  class, each state's declaration and definition, and `main`.
  - Generated text is a sequence of trimmed lines, which is what the
    generator tests compare after normalisation.
  - Each builder is paired with a reader that parses its lines back: one
    handler per event, one override per transition, one `if(true|false)`
    block per transition, one registration per event.
  - The in-place environment of `generateAttributeInitialization`,
    `generateMain` and `generateCppContent` is a class with a `map` field.
- **The interpreter drafts** in `interpreter.ts` (`Interpreter`). These are
  commented-out code.
  - The first draft is `getDefault`/`initEnv`.
  - The second draft has its own syntax tree (`Expr`, `BoolExpr`, `Action`),
    an `Environment` class, `evalExpr`/`evalBoolExpr`,
    `initializeAttributes`, `executeAction`, `handleTransition` and
    `runStatemachine`. The loops are methods proved against functional
    specifications.
  - The draft's expressions are mapped onto the AST's `BinExpr` operators
    (`add` → `+`, comparison → its operator, `exprAsBool e` → `e != 0`). Two
    lemmas show that the interpreter and the generator's folder agree on them.
- **The validator** (`Validator`). It covers:
  - the capital-letter warning;
  - duplicate detection over the shared namespace of states, events and
    attributes, with the multimap loop written out;
  - the two attribute-type checks;
  - the registry.
- **The interpreter helpers** (`InterpretUtil`): `defaultAttributeValue` and
  `eventsAreValid`.
- **The test normaliser `normalizeCode`** (`Normalizer`). It is defined the
  same way in `test/util.ts` and `src/cli/interpret-util.ts`.

Errors that the sources throw are the `Err` case of `Results.Result`.

Two behaviours of the code are stated as lemmas rather than hidden:

- `generateCppContent` folds every guard in an environment that is still
  empty. `generateMain` fills the environment only afterwards. So any guard
  that mentions an attribute makes generation fail
  (`Generator.CppContentNeedsAttributeFreeGuards`).
- In the interpreter draft, `exprAsBool` compares with `!== 0`. A boolean
  attribute used as a condition is therefore always true, whatever its value.
  This is the `EvalBool` case `ExprAsBool`, and the test scenarios below pass
  through it.

## Model

| member | source | states |
|---|---|---|
| Values.TruthyIsNonZeroNumber | examples/statemachine/src/cli/generator.ts:196-197 | a value is truthy exactly when its numeric conversion is non-zero |
| Values.IntToStringRoundTrip | examples/statemachine/src/cli/generator.ts:238-240 | the decimal text emitted for a number reads back as that number |
| Values.TextRoundTrip | examples/statemachine/src/cli/generator.ts:238-240 | the text `${v}` of every value (number, `true`, `false`) reads back as that value |
| Ast.IsSubtypeMatchesTable | examples/statemachine/src/language-server/generated/ast.ts:290-312 | the recursive subtype test holds exactly for the pairs of the closed supertype table: BinExpr/PrimaryExpr under Expression; Expression/StringLiteral under PrintValue; Group/Literal/NegExpr/Ref under PrimaryExpr; NegBoolExpr/NegIntExpr under NegExpr; and their transitive closure |
| Ast.ComputeIsSubtypeIrreflexive | examples/statemachine/src/language-server/generated/ast.ts:290-312 | no type is a proper subtype of itself |
| Ast.IsSubtypeTransitive | examples/statemachine/src/language-server/generated/ast.ts:290-312 | the subtype relation is transitive |
| Ast.IsSubtypeAntisymmetric | examples/statemachine/src/language-server/generated/ast.ts:290-312 | two types that are subtypes of each other are equal |
| Ast.OnlyUnionMembersHaveSupertypes | examples/statemachine/src/language-server/generated/ast.ts:310-312 | only the ten members of the union declarations (the expression node types, the NegExpr, PrimaryExpr and Expression unions, and StringLiteral) have a proper supertype; Statemachine, State, Transition, Action, Attribute and the other declarations are never Expressions or PrintValues |
| Ast.ExpressionNodesAreExpressions | examples/statemachine/src/language-server/generated/ast.ts:292-309 | the `$type` of every expression node is a node type that is a subtype of Expression and of PrintValue |
| Ast.ProperSupertypesAreUnions | examples/statemachine/src/language-server/generated/ast.ts:292-309 | every direct or indirect supertype is one of the four union types |
| Ast.UnionTypesAreTheSupertypes | examples/statemachine/src/language-server/generated/ast.ts:286-312 | among the types `getAllTypes` lists, the union types are exactly those with a proper subtype |
| Ast.AllTypesClosedUnderSupertypes | examples/statemachine/src/language-server/generated/ast.ts:286-312 | a supertype of a listed type is itself listed |
| Ast.ReferenceIdInjective | examples/statemachine/src/language-server/generated/ast.ts:316-318 | the `container:property` reference id determines the container and the property, given a colon-free pair to compare with |
| Ast.GetReferenceTypeOnTable | examples/statemachine/src/language-server/generated/ast.ts:316-336 | `Action:command` gives Command; `Assignment:variable` and `Ref:val` give Attribute; `Statemachine:init` and `Transition:state` give State; `Transition:event` gives Event |
| Ast.GetReferenceTypeOnlyOnTable | examples/statemachine/src/language-server/generated/ast.ts:316-336 | every other reference id is an error naming that id |
| Ast.GetTypeMetaData | examples/statemachine/src/language-server/generated/ast.ts:339-491 | the metadata of every type name carries that name |
| Ast.MetaDataEmptyExactlyOffNodeTypes | examples/statemachine/src/language-server/generated/ast.ts:339-491 | the property list is empty exactly for type names that are not concrete node types (union or unknown names) |
| Ast.MetaDataNamesDistinct | examples/statemachine/src/language-server/generated/ast.ts:339-491 | no type lists a property twice |
| Ast.MetaDataDefaults | examples/statemachine/src/language-server/generated/ast.ts:404-485 | a property defaults to `[]` exactly when it is one of the list properties, to `false` exactly when it is `Literal.val`, and otherwise has no default |
| Ast.ReferencesAreDeclaredProperties | examples/statemachine/src/language-server/generated/ast.ts:316-491 | every cross-reference is a declared property of its container and targets a declaration node, never an expression |
| Normalizer.Split | examples/statemachine/test/util.ts:3 | `split('\n')` yields at least one piece and no piece contains a line feed |
| Normalizer.TrimStart | examples/statemachine/test/util.ts:4 | trimming the start keeps a suffix of the line |
| Normalizer.TrimEnd | examples/statemachine/test/util.ts:4 | trimming the end keeps a prefix of the line |
| Normalizer.TrimAll | examples/statemachine/test/util.ts:4 | `map(trim)` keeps the number of lines |
| Normalizer.DropEmpty | examples/statemachine/test/util.ts:5 | `filter(length > 0)` never adds lines |
| Normalizer.SplitThenJoin | examples/statemachine/test/util.ts:3-6 | joining the pieces of a split gives the text back |
| Normalizer.JoinThenSplit | examples/statemachine/test/util.ts:3-6 | splitting joined line-feed-free lines gives the lines back |
| Normalizer.TrimStartSkipsWhitespace | examples/statemachine/test/util.ts:4 | exactly the leading whitespace is removed |
| Normalizer.TrimEndSkipsWhitespace | examples/statemachine/test/util.ts:4 | exactly the trailing whitespace is removed |
| Normalizer.TrimEndKeepsStart | examples/statemachine/test/util.ts:4 | trimming the end does not expose whitespace at the start |
| Normalizer.TrimIsTrimmed | examples/statemachine/test/util.ts:4 | `trim` yields a slice of the line with no whitespace at either end, empty exactly when the line is all whitespace |
| Normalizer.TrimOfTrimmed | examples/statemachine/test/util.ts:4 | `trim` leaves a trimmed line unchanged |
| Normalizer.TrimKeepsLineFeedFree | examples/statemachine/test/util.ts:3-4 | trimming a piece does not introduce a line feed |
| Normalizer.TrimAllPieces | examples/statemachine/test/util.ts:3-4 | each output line of `map(trim)` is the trimmed input piece at the same position |
| Normalizer.DropEmptyKeepsOthers | examples/statemachine/test/util.ts:5 | dropping the empty lines from trimmed pieces leaves clean lines, and nothing when every piece was empty |
| Normalizer.DropEmptyOfNonEmpty | examples/statemachine/test/util.ts:5 | the filter keeps a list of non-empty lines as it is |
| Normalizer.TrimAllOfTrimmed | examples/statemachine/test/util.ts:4 | `map(trim)` keeps trimmed lines as they are |
| Normalizer.NormalizedLinesAreClean | examples/statemachine/test/util.ts:2-5 | every output line is non-empty, has no surrounding whitespace and no line feed |
| Normalizer.NormalizeCodeLines | examples/statemachine/test/util.ts:2-6 | the lines of the output are the trimmed input lines, in order, with the empty ones dropped; the output is empty exactly when none remains |
| Normalizer.CleanLinesRoundTrip | examples/statemachine/test/util.ts:3-6 | joining clean lines and splitting again gives them back |
| Normalizer.NormalizeCodeIdempotent | examples/statemachine/test/util.ts:2-6 | normalising twice is normalising once |
| Normalizer.CleanTextIsNormal | examples/statemachine/test/util.ts:2-6 | text made of clean lines is already normal |
| Normalizer.JoinHasNoBlankLine | examples/statemachine/test/util.ts:5-6 | joined non-empty lines never contain two consecutive line feeds, nor one at either end |
| Normalizer.NormalizeCodeHasNoBlankLine | examples/statemachine/test/util.ts:5-6 | the output never contains two consecutive line feeds, nor one at either end |
| Normalizer.BlankInputNormalizesToEmpty | examples/statemachine/test/util.ts:5-6 | input that is all whitespace normalises to the empty string |
| Normalizer.PieceOfBlankIsBlank | examples/statemachine/test/util.ts:3 | when joined pieces are all whitespace, so is every piece |
| Generator.ComparisonsYieldFlags | examples/statemachine/src/cli/generator.ts:190-197 | relational, equality and logical operators always yield exactly 0 or 1 |
| Generator.LogicalOperatorsFollowTruthiness | examples/statemachine/src/cli/generator.ts:196-197 | `&&` gives 1 iff both operands are truthy (non-zero), `\|\|` gives 1 iff either is |
| Generator.StrictEqualitySeparatesTypes | examples/statemachine/src/cli/generator.ts:194-195 | `===` never equates a number with a boolean, so `==` gives 0 and `!=` gives 1 |
| Generator.UnrecognizedExactlyOutsideBinOps | examples/statemachine/src/cli/generator.ts:185-198 | "Unrecognized bin op" is raised exactly for operators outside the twelve |
| Generator.NegationAndGrouping | examples/statemachine/src/cli/generator.ts:201-205 | both negation kinds compute -1 × the operand, so a double negation gives the operand back as a number; a group evaluates to its inner expression |
| Generator.EvalTotalOnClosedExpressions | examples/statemachine/src/cli/generator.ts:169-211 | folding succeeds when every reference is bound, every operator is one of the twelve and no division occurs |
| Generator.EvalFailureHasCause | examples/statemachine/src/cli/generator.ts:173-198 | a failure is an unbound reference that occurs in the expression, an operator outside the twelve that occurs in it, or a division that occurs in it |
| Generator.EvalSuccessBindsEveryRef | examples/statemachine/src/cli/generator.ts:173-178 | when folding succeeds, every referenced attribute is bound |
| Generator.EvalStableUnderExtension | examples/statemachine/src/cli/generator.ts:169-211 | a successful fold keeps its value when the environment gains bindings |
| Generator.ParseBlocksOfBlocks | examples/statemachine/src/cli/generator.ts:47-49 | the items joined one fixed-size block each are read back, in order, from the joined lines |
| Generator.StateClassHandlesEveryEvent | examples/statemachine/src/cli/generator.ts:74-98 | the State class has exactly one virtual handler printing "Impossible event for the current state." per declared event, in declaration order, followed only by the closing `};` |
| Generator.StatemachineClassForwardsEveryEvent | examples/statemachine/src/cli/generator.ts:100-136 | the context class has exactly one forwarding method per declared event, in order, followed only by the closing `};` |
| Generator.StateDeclarationOverridesEveryTransition | examples/statemachine/src/cli/generator.ts:138-146 | a state declaration returns the state's name and has one override line per transition, in order and not de-duplicated |
| Generator.DefinitionsMatchTransitions | examples/statemachine/src/cli/generator.ts:157-165 | definitions fail exactly when some guard fails to fold; otherwise there is one per transition, with its event and target, `true` when unguarded, and `true` iff the folded guard is > 0 |
| Generator.StateDefinitionRoundTrip | examples/statemachine/src/cli/generator.ts:148-167 | a state definition starts with the state comment, and its transition bodies (`if(...)`, `transition_to(new <target>)`, else "Transition not allowed.") read back as the folded definitions |
| Generator.AttributeInitializationDeclaresFoldedValue | examples/statemachine/src/cli/generator.ts:228-244 | with a default, it fails iff folding fails; otherwise it declares and echoes the folded value and binds it; without a default it emits `int name = 0;` and leaves the environment unchanged |
| Generator.AttributeInitializationsBindDefaults | examples/statemachine/src/cli/generator.ts:362-364 | after the attribute loop the environment binds exactly the earlier names plus every attribute with a default |
| Generator.DefaultsReferToEarlierAttributes | examples/statemachine/src/cli/generator.ts:362-364 | when the loop succeeds, every default only mentions attributes initialised before it (or already bound) |
| Generator.MainRegistersEveryEvent | examples/statemachine/src/cli/generator.ts:355-379 | `main` constructs the machine in its initial state and registers every event once, in declaration order |
| Generator.RegistrationReadsBack | examples/statemachine/src/cli/generator.ts:361 | a registration line reads back as its event |
| Generator.Environment.constructor | examples/statemachine/src/cli/generator.ts:52 | a fresh environment is empty |
| Generator.Environment.Set | examples/statemachine/src/cli/generator.ts:231 | `env.set` binds the name and changes nothing else |
| Generator.GenerateAttributeInitialization | examples/statemachine/src/cli/generator.ts:228-244 | the in-place version emits the lines of `AttributeInitialization` and leaves the environment it specifies |
| Generator.GenerateAttributeInitializations | examples/statemachine/src/cli/generator.ts:362-364 | the loop over attributes threads the shared environment, emits the lines of `AttributeInitializations` and stops at the first default that cannot be folded |
| Generator.GenerateMain | examples/statemachine/src/cli/generator.ts:355-379 | emits the lines of `Main`: header, registrations, the attribute initialisations run against the shared environment, footer |
| Generator.GenerateCppContent | examples/statemachine/src/cli/generator.ts:51-72 | emits `CppContent`: the preamble, both classes, declarations, definitions folded in the fresh environment, then `main` |
| Generator.StateDefinitionsFoldEveryGuard | examples/statemachine/src/cli/generator.ts:64-65 | the definitions of all states succeed exactly when every guard of every state folds |
| Generator.CppContentNeedsAttributeFreeGuards | examples/statemachine/src/cli/generator.ts:51-72 | generation only succeeds when no guard mentions an attribute, because guards are folded before `main` binds any attribute |
| Interpreter.GetDefault | examples/statemachine/src/cli/interpreter.ts:20-24 | `int` gives 0, `bool` gives false, any other type is an "Unknown type" error |
| Interpreter.InitEnvErrorPersists | examples/statemachine/src/cli/interpreter.ts:9-17 | once an attribute's type is unknown, `initEnv` fails with that error |
| Interpreter.InitEnv | examples/statemachine/src/cli/interpreter.ts:9-17 | the loop computes `InitEnvOf` |
| Interpreter.InitEnvSucceedsOnKnownTypes | examples/statemachine/src/cli/interpreter.ts:9-24 | `initEnv` succeeds exactly when every attribute is `int` or `bool` |
| Interpreter.InitEnvBindsEveryAttribute | examples/statemachine/src/cli/interpreter.ts:9-17 | the environment binds exactly the attribute names |
| Interpreter.InitEnvSeedsZeroValues | examples/statemachine/src/cli/interpreter.ts:9-24 | each attribute not overwritten by a later one holds its type's zero value |
| Interpreter.Lookup | examples/statemachine/src/cli/interpreter.ts:222-227 | `get` fails with "Undefined attribute" exactly for an unset name and otherwise returns the stored value |
| Interpreter.Environment.constructor | examples/statemachine/src/cli/interpreter.ts:216 | a new environment is empty |
| Interpreter.Environment.Set | examples/statemachine/src/cli/interpreter.ts:218-220 | after `set(n, v)`, `get(n)` is v and every other name keeps its value |
| Interpreter.EvalExprAgreesWithGenerator | examples/statemachine/src/cli/interpreter.ts:230-245 | `evalExpr` succeeds exactly when the generator's folder does on the same expression, with the same value |
| Interpreter.EvalBoolAgreesWithGenerator | examples/statemachine/src/cli/interpreter.ts:247-274 | `evalBoolExpr` succeeds exactly when the folder does; comparisons, `\|\|`/`&&` and `exprAsBool` fold to 1 for true and 0 for false, and the folded value is truthy iff the interpreter's answer is true |
| Interpreter.InitializeAttributes | examples/statemachine/src/cli/interpreter.ts:276-288 | the loop leaves the environment `InitializeAttributesOf` specifies, or fails with its error |
| Interpreter.InitializeAttributesKeepsOtherNames | examples/statemachine/src/cli/interpreter.ts:276-288 | names no attribute declares are untouched |
| Interpreter.InitializeAttributesBindsEachAttribute | examples/statemachine/src/cli/interpreter.ts:276-288 | an attribute that no later attribute redeclares is bound to its initial value computed in the environment the earlier attributes left: its default evaluated there, or 0 / false without one |
| Interpreter.ExecuteActionEffect | examples/statemachine/src/cli/interpreter.ts:290-302 | with the dispatch corrected (see Findings), an assignment stores its value under the variable, keeps every other name and prints nothing; a print statement prints its value and changes nothing |
| Interpreter.ExecuteAction | examples/statemachine/src/cli/interpreter.ts:290-302 | the in-place action leaves the environment and output of `ExecuteActionOf` |
| Interpreter.ExecuteActions | examples/statemachine/src/cli/interpreter.ts:308-310 | the actions run in order, each on the environment the previous one left, and their output concatenates |
| Interpreter.HandleTransition | examples/statemachine/src/cli/interpreter.ts:304-316 | the loop with its early return computes `HandleTransitionOf` |
| Interpreter.HandleTransitionPicksFirstEnabled | examples/statemachine/src/cli/interpreter.ts:304-316 | the first transition for the event whose guard is absent or true fires; its actions run and its target is returned, and every earlier one for the event has a false guard; with none, the result is null and the environment and output are unchanged |
| Interpreter.FindState | examples/statemachine/src/cli/interpreter.ts:311 | a state reference resolves to a state of that name, and fails only when no state has it |
| Interpreter.RunStatemachine | examples/statemachine/src/cli/interpreter.ts:318-330 | initialises the attributes, starts in the initial state and runs the events to the configuration `Run` specifies |
| Interpreter.RunEventsAppend | examples/statemachine/src/cli/interpreter.ts:324-329 | events are consumed in order: one more event is one more step after the others |
| Interpreter.UnhandledEventKeepsConfiguration | examples/statemachine/src/cli/interpreter.ts:325-328 | an event no transition of the current state takes leaves the state, the environment and the output unchanged |
| Interpreter.ActionKeys | examples/statemachine/src/cli/interpreter.ts:140-147 | every action has `value`, and only an assignment has `variable` |
| Interpreter.PrintStatementSkippedAsWritten | examples/statemachine/src/cli/interpreter.ts:291-301 | as written, no action takes the print branch; a print statement does nothing |
| Interpreter.ExprValueLostAsWritten | examples/statemachine/src/cli/interpreter.ts:292-293 | as written, the value stored for any arithmetic action is `undefined` |
| Interpreter.BoolValueKeptAsWritten | examples/statemachine/src/cli/interpreter.ts:292-293 | on boolean actions the code as written and the corrected dispatch agree |
| Interpreter.IncrementLostAsWritten | examples/statemachine/src/cli/interpreter.ts:292-295 | `count = count + 1` with count 0 stores `undefined` as written and 1 when corrected |
| Interpreter.GuardedSwitchRun | examples/statemachine/test/interpreter.test.ts:133-166 | toggle ×4 on GuardedSwitch ends in Off with count 6, isOn false, isActive true, nothing printed |
| Interpreter.GuardedToggleBlocked | examples/statemachine/test/interpreter.test.ts:146 | once count ≥ 3 the guard `count < 3` stops toggle in Off |
| Interpreter.GuardedSwitchSaturates | examples/statemachine/test/interpreter.test.ts:133-166 | a fifth toggle leaves GuardedSwitch where four left it |
| Interpreter.ComplexLogicSwitchRun | examples/statemachine/test/interpreter.test.ts:95-131 | toggle, toggle, reset on ComplexLogicSwitch ends in Off with count 2, isOn false, isActive true; reset has no transition from Off |
| Validator.CheckStateName | examples/statemachine/src/language-server/statemachine-validator.ts:29-36 | at most one warning, on `name`: there is one exactly when the name is non-empty and starts with a lower-case letter; an empty name, or one starting with a capital or a non-letter, passes |
| Validator.AllSymbols | examples/statemachine/src/language-server/statemachine-validator.ts:46 | the shared namespace is the states, then the events, then the attributes |
| Validator.CheckUniqueStatesEventsAndAttributes | examples/statemachine/src/language-server/statemachine-validator.ts:43-59 | the two loops over the multimap produce `UniquenessDiagnostics` |
| Validator.CollectNames | examples/statemachine/src/language-server/statemachine-validator.ts:45-51 | the multimap's keys are the non-empty names in first-occurrence order, each holding its symbols in order |
| Validator.CollectStep | examples/statemachine/src/language-server/statemachine-validator.ts:47-51 | adding one symbol makes its name a new last key unless the name is empty or already a key, and appends the symbol to that name's group only |
| Validator.KeysAreTheNames | examples/statemachine/src/language-server/statemachine-validator.ts:47-51 | the multimap keys are distinct and are exactly the non-empty names that occur |
| Validator.GroupCounts | examples/statemachine/src/language-server/statemachine-validator.ts:47-51 | a name's group holds each symbol of that name as often as it occurs |
| Validator.UniquenessReportsEveryRepeatedName | examples/statemachine/src/language-server/statemachine-validator.ts:46-58 | every diagnostic is a "Duplicate identifier name" error on a symbol; a symbol gets one per occurrence exactly when its name is non-empty and shared, and unique and empty names get none |
| Validator.StateAndEventClash | examples/statemachine/src/language-server/statemachine-validator.ts:46-57 | a state and an event with the same name both get a duplicate error |
| Validator.CheckAttributeType | examples/statemachine/src/language-server/statemachine-validator.ts:61-77 | at most one error: "Unsupported attribute type" for a non-empty type other than `int`/`bool`; for `int` an error iff the default is missing or not an Expr; for `bool` an error iff the default is an Expr |
| Validator.CheckAttributeTypeConsistency | examples/statemachine/src/language-server/statemachine-validator.ts:79-92 | at most one error: for `bool` iff the default is not a BoolExpr, for `int` iff it is not an Expr |
| Validator.AttributeChecksAgreeOnInt | examples/statemachine/src/language-server/statemachine-validator.ts:61-92 | on `int` attributes the two checks report together, and both reject a missing default |
| Validator.RegisteredChecks | examples/statemachine/src/language-server/statemachine-validator.ts:12-21 | only the capital check (for State) and the uniqueness check (for Statemachine) are registered; the attribute checks never run |
| Validator.DistinctCapitalisedMachinePasses | examples/statemachine/src/language-server/statemachine-validator.ts:12-59 | a machine with distinct symbol names and no lower-case initial letter on a state gets no diagnostic |
| Validator.TestMachinePasses | examples/statemachine/test/validator.test.ts:10-29 | the valid test machine yields zero diagnostics |
| InterpretUtil.DefaultAttributeValue | examples/statemachine/src/cli/interpret-util.ts:3-5 | false for `bool` and 0 for every other type name |
| InterpretUtil.DefaultAttributeValueExtendsGetDefault | examples/statemachine/src/cli/interpret-util.ts:3-5 | it agrees with the draft's `getDefault` wherever that answers, and gives 0 where that throws |
| InterpretUtil.EventNames | examples/statemachine/src/cli/interpret-util.ts:8 | the declared event names, position by position |
| InterpretUtil.InvalidEventsAreTheUndeclared | examples/statemachine/src/cli/interpret-util.ts:9 | the filter keeps exactly the given names that are not declared |
| InterpretUtil.EventsAreValidIffDeclared | examples/statemachine/src/cli/interpret-util.ts:7-15 | the result is true iff every given name is a declared event's name |
| InterpretUtil.NoEventsAreValid | examples/statemachine/src/cli/interpret-util.ts:9-15 | an empty list is valid |
| InterpretUtil.EventsAreValidDependsOnMembership | examples/statemachine/src/cli/interpret-util.ts:8-9 | reordering or repeating names does not change the result |
| InterpretUtil.UndeclaredEventInvalidates | examples/statemachine/src/cli/interpret-util.ts:9-12 | inserting one undeclared name anywhere makes the result false |

## Left out

- File output, the command line (`generate`, `generateCpp`, `cli.ts`), console output and the browser front end are not part of this model. Printing in the interpreter is the sequence of printed values in the final configuration.
- Generator.Eval: `generator.ts` imports `isLit` and `Expr`, which the AST module (ast.ts) does not define. The first test, `isLit(e)`, is read as `isLiteral(e)`, returning the literal's `val`, and `Expr` as `Expression`. The module as written would fail to link or throw on every fold, and that failure is not modelled.
- Generator.ApplyBinOp: `/` is modelled only when the quotient is an exact integer. Otherwise the result is `DivisionNotModelled`, where JavaScript yields a fraction, Infinity or NaN.
- Values.Value: numbers are unbounded integers. JavaScript doubles and their rounding above 2^53 are not modelled, and no non-integral number arises in the model.
- Generator.GenerateCppContent: text is modelled as a list of trimmed lines. The indentation and blank lines that Langium's `toNode`/`join` produce are left out, since the tests compare normalised text.
- Generator.GenerateAttributeInitialization: the write-back into the AST (lines 232-237) is not modelled. It tests `$type == 'Lit'`, which no node of the AST has, so it never runs.
- Cross-references are modelled by the referenced declaration's name. Unresolved references and linker errors are not part of this model. This includes the validator tests on a missing initial state or an undefined event, which are parser and linker diagnostics.
- Interpreter.InitialValue: a default whose kind does not match the declared type is the error `TypeMismatch`. The draft would store `undefined`, or evaluate a `group` node with the other evaluator.
- Interpreter.ExecuteActionOf: it dispatches on the node's kind and prints print statements. This is the corrected behaviour; the code as written is modelled beside it (see Findings).
- Interpreter.RunStatemachine: the draft returns nothing. The model returns the final configuration, which is what the interpreter tests observe.
- The other commented-out interpreter drafts (interpreter.ts lines 26-103) and the live interpreter used by the tests are not part of this model.
- Validator.CheckStateName: upper-casing is modelled for ASCII letters only. JavaScript's `toUpperCase` also maps other Unicode letters.
- Validator.CheckAttributeType: `isExpr` and `isBoolExpr` are not defined in the AST module the validator imports. They are parameters here.
- `matchAttributeTypeWithValues` (statemachine-validator.ts:93-106) is not part of this model. It is never registered, it applies `+` to an AST object, and it compares with a `BoolLit` that is not defined in the AST module shown.
- Validator.Validate: the order in which Langium visits nodes is taken as the root's check first, then each state's. Langium's own traversal and caching, and the `MultiMap` class, are not modelled.
- Real-time delays (`setTimeout`, `sleep_for`) do not occur in the modelled code and are left out.

## Findings

| source | as written | input that shows it | evidently intended | confidence | as-written member | corrected member |
|---|---|---|---|---|---|---|
| examples/statemachine/src/cli/interpreter.ts:292-293 | every draft node has a `type` tag, so `(action.value as BoolExpr).type` is always truthy. `evalBoolExpr` then runs on `Expr` values; its switch matches only `group` and returns `undefined` for every other `Expr` | GuardedSwitch's `count = count + 1` with count 0 stores `undefined` | evaluate an `Expr` with `evalExpr` and store 1, which is what the test's expected count of 6 relies on | not executed | Interpreter.IncrementLostAsWritten | Interpreter.ExecuteActionEffect |
| examples/statemachine/src/cli/interpreter.ts:296-300 | `'print' in action` is false for a print statement, whose only property is `value`, so the branch never runs | any print statement, e.g. one printing `count` | print the statement's value | not executed | Interpreter.PrintStatementSkippedAsWritten | Interpreter.ExecuteActionEffect |
