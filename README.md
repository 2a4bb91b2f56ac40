# A verified model of the Painless `for` loop node

This project models `SFor`, the node of the Painless scripting-language compiler (Elasticsearch's
`lang-painless` module) that represents a `for (initializer; condition; afterthought) block` statement.
It models both phases of the node.

- **Analysis** (`SFor.analyze`) checks the loop in a fixed order:
  - an expression initializer or afterthought must be statement-shaped;
  - a constant condition folds into the `continuous` flag;
  - dead loops and loops with no escape are rejected;
  - `methodEscape` and `allEscape` are derived from the body block's facts;
  - `statementCount` is set to 1, and `loopCounter` is taken from the enclosing scope when it holds the
    reserved loop variable.
- **Code generation** (`SFor.write`) uses three labels (`start`, `begin`, `end`). It writes the
  initializer, the condition test, the loop-counter budget check with its cost, the body, the afterthought
  and the backward jump, each when the analysis facts call for it.

The model is imperative where the source is.
- `ForLoop.SFor` is a class with the node's fields.
- `Blocks.SBlock` holds the fields the loop reads from and writes into its body.
- `Writer.MethodWriter` holds the emitted code, as a sequence of abstract instructions, and a label counter.

Each method is proved against a pure specification:
- `ForAnalysis.Analysis` decides the outcome of analysis and the state it leaves;
- `ForCodegen.LoopCode` is the code the loop emits.

The properties of the loop are contracts and lemmas about those two functions. `ForProperties` connects
them: what analysis derives fixes the code that is written. `ForScenarios` compiles particular loops end
to end.

Files:
- `wrappers.dfy`: `Option`, `Result`, `Outcome`.
- `tree.dfy`: child nodes reduced to the facts the loop uses, and the errors with their messages.
- `writer.dfy`: instructions, occurrence counting, and the method writer.
- `block.dfy`: the body block.
- `for_analysis.dfy`: the analysis specification.
- `for_codegen.dfy`: the code specification and its properties.
- `sfor.dfy`: the node class.
- `for_properties.dfy`: analysis and code together.
- `for_scenarios.dfy`: example loops.

Where the code and a plain reading of the language's documentation could differ, the model follows the code:
- A loop with no condition skips both constant-condition checks. So `for (;;);` is accepted even though it
  has no body; the parser represents an empty body as no block at all.
- A loop with no body charges exactly 1 per iteration to the budget, even when it has an afterthought.

## Model

All source paths are `modules/lang-painless/src/main/java/org/elasticsearch/painless/node/SFor.java`.

| member | source | states |
|---|---|---|
| Tree.Message | modules/lang-painless/src/main/java/org/elasticsearch/painless/node/SFor.java:110-133 | a child's error keeps its own message; each of the loop's own errors has a non-empty message ending in a period ("Not a statement.", "Extraneous for loop.", "For loop has no escape.", "Illegal tree structure.") |
| Tree.LoopMessagesDistinct | modules/lang-painless/src/main/java/org/elasticsearch/painless/node/SFor.java:110-133 | the loop's four own errors carry pairwise different messages, so the diagnostic tells them apart |
| Tree.IsInternal | modules/lang-painless/src/main/java/org/elasticsearch/painless/node/SFor.java:110-159 | of the loop's own errors, only the one reported as "Illegal tree structure." is a compiler fault; "Not a statement.", "Extraneous for loop." and "For loop has no escape." are script errors; a child's error is never classed as a compiler fault, because only its message is kept |
| Tree.AnalyzeExpr | modules/lang-painless/src/main/java/org/elasticsearch/painless/node/SFor.java:106-107 | analyzing a child expression (the initializer here; the condition and afterthought likewise) fails exactly when its own analysis does, with that error; on success it keeps the read intent and expected type its owner set, and records the statement flag, folded constant and actual type the analysis concluded |
| ForAnalysis.AnalyzeStatementExpr | modules/lang-painless/src/main/java/org/elasticsearch/painless/node/SFor.java:103-114 | an initializer or afterthought expression is accepted exactly when its analysis succeeds and it is a statement; a child failure passes through and a non-statement fails with NotAStatement; the accepted expression has read intent off, and its expected type equals its actual type |
| ForAnalysis.AnalyzeInitializer | modules/lang-painless/src/main/java/org/elasticsearch/painless/node/SFor.java:100-118 | fails with IllegalTreeStructure exactly for an initializer that is neither a declaration block nor an expression; no initializer passes; a declaration block passes exactly when its own analysis does, and otherwise reports its error; an expression initializer passes exactly when it passes as a statement expression, and otherwise reports that error (the child's error, or NotAStatement) |
| ForAnalysis.AnalyzeCondition | modules/lang-painless/src/main/java/org/elasticsearch/painless/node/SFor.java:120-138 | an absent condition makes the loop continuous with no check; a constant false condition fails with ExtraneousLoop; a constant true one without a block fails with NoEscape; success in exactly the remaining cases; continuous exactly when the condition is absent or folds to true; the condition is expected to be boolean |
| ForAnalysis.AnalyzeAfterthought | modules/lang-painless/src/main/java/org/elasticsearch/painless/node/SFor.java:140-150 | no afterthought passes; a present one passes exactly when it passes as a statement expression, and otherwise reports that error (the child's error, or NotAStatement) |
| ForAnalysis.AnalyzeBody | modules/lang-painless/src/main/java/org/elasticsearch/painless/node/SFor.java:152-168 | a body that escapes the loop without any continue fails with ExtraneousLoop, and a failing body analysis reports its error; success exactly otherwise, or when there is no body; the loop escapes exactly when there is a body, the loop is continuous and the body never breaks; the body's statement count becomes max(1, count), and its other facts are unchanged |
| ForAnalysis.Analysis | modules/lang-painless/src/main/java/org/elasticsearch/painless/node/SFor.java:97-175 | the checks run in order (initializer, condition, afterthought, body): when the stages before one pass and it fails, its error (the loop's own or a child's) is the result; an absent condition is never NoEscape; success exactly when all four stages pass; of the loop's own errors, only IllegalTreeStructure, raised exactly for an initializer of the wrong node kind, is a compiler fault (IllegalStateException); afterwards statementCount is 1, loopCounter is the enclosing scope's loop variable, escapes holds exactly when there is a body, the loop is continuous and the body never breaks, and the expression children are typed statements |
| Writer.MethodWriter.NewLabel | modules/lang-painless/src/main/java/org/elasticsearch/painless/node/SFor.java:181-183 | each new label differs from every label handed out before it; no code is emitted |
| Writer.MethodWriter.Emit | modules/lang-painless/src/main/java/org/elasticsearch/painless/node/SFor.java:194-235 | appends exactly one instruction |
| Blocks.SBlock.Analyze | modules/lang-painless/src/main/java/org/elasticsearch/painless/node/SFor.java:156 | the body's summary fields take what its statements' analysis concludes, or its error passes through; the loop flags and the jump targets are kept |
| Blocks.SBlock.Write | modules/lang-painless/src/main/java/org/elasticsearch/painless/node/SFor.java:216-218 | the body's code continues at the continue target and breaks to the break target that the loop set |
| ForCodegen.LabelsFrom | modules/lang-painless/src/main/java/org/elasticsearch/painless/node/SFor.java:181-183 | begin is the same label as start exactly when there is no afterthought; end differs from both; all three are fresh labels |
| ForCodegen.LoopCost | modules/lang-painless/src/main/java/org/elasticsearch/painless/node/SFor.java:201-223 | the budget cost is at least 1; it is exactly 1 without a body, even with an afterthought; with a body it is max(1, the body's statement count) plus one for an afterthought |
| ForCodegen.JumpsBack | modules/lang-painless/src/main/java/org/elasticsearch/painless/node/SFor.java:231 | the backward jump is needed whenever there is an afterthought or no body; it is omitted only when the body never falls through |
| ForCodegen.LoopCode | modules/lang-painless/src/main/java/org/elasticsearch/painless/node/SFor.java:178-236 | the loop's code is between 2 instructions (the start and end marks) and 12 instructions long; its contents and order are stated by the lemmas below |
| ForCodegen.InitializerFirst | modules/lang-painless/src/main/java/org/elasticsearch/painless/node/SFor.java:185-194 | the initializer's code comes first, an expression initializer's followed by a pop of its type, and then start is marked |
| ForCodegen.EndMarkedLast | modules/lang-painless/src/main/java/org/elasticsearch/painless/node/SFor.java:235 | the last instruction marks end, and end is marked nowhere else |
| ForCodegen.LabelsMarkedOnce | modules/lang-painless/src/main/java/org/elasticsearch/painless/node/SFor.java:181-235 | start, begin and end are each marked exactly once |
| ForCodegen.StartMarkedOnce | modules/lang-painless/src/main/java/org/elasticsearch/painless/node/SFor.java:194-229 | start and begin are each marked exactly once |
| ForCodegen.ConditionTestedIff | modules/lang-painless/src/main/java/org/elasticsearch/painless/node/SFor.java:196-199 | the condition is written, with a jump to end when it is false, exactly when a condition exists and the loop is not continuous; that is the only conditional jump |
| ForCodegen.BackJumpIff | modules/lang-painless/src/main/java/org/elasticsearch/painless/node/SFor.java:201-233 | the jump back to start is written exactly when there is an afterthought, no body, or a body that may fall through; it is the only unconditional jump |
| ForCodegen.BodyTargets | modules/lang-painless/src/main/java/org/elasticsearch/painless/node/SFor.java:216-218 | the body is written exactly when there is one, and it continues at begin and breaks to end |
| ForCodegen.ExitOnlyByTestOrBreak | modules/lang-painless/src/main/java/org/elasticsearch/painless/node/SFor.java:196-235 | the only instructions that jump to end are the condition test and the body's break |
| ForCodegen.CounterBeforeBody | modules/lang-painless/src/main/java/org/elasticsearch/painless/node/SFor.java:206-222 | a budget check is written exactly when the loop holds a counter, in the counter's slot with the loop's cost; it comes after the condition test and before the body |
| ForCodegen.StartBeforeCondition | modules/lang-painless/src/main/java/org/elasticsearch/painless/node/SFor.java:194-199 | start is marked before the condition is written |
| ForLoop.SFor.constructor | modules/lang-painless/src/main/java/org/elasticsearch/painless/node/SFor.java:42-56 | the node holds its four children, and nothing has been derived yet |
| ForLoop.SFor.Analyze | modules/lang-painless/src/main/java/org/elasticsearch/painless/node/SFor.java:97-175 | the node accepts exactly what Analysis accepts and fails with its error; on success the node and its body hold everything Analysis derives (analyzed children, continuous, methodEscape = allEscape = escapes, statementCount, loopCounter, the body's loop flags and facts); the body's jump targets are untouched |
| ForLoop.SFor.AnalyzeInitializerStep | modules/lang-painless/src/main/java/org/elasticsearch/painless/node/SFor.java:100-118 | the initializer stage in place: same outcome as AnalyzeInitializer, which replaces the initializer on success |
| ForLoop.SFor.AnalyzeConditionStep | modules/lang-painless/src/main/java/org/elasticsearch/painless/node/SFor.java:120-138 | the condition stage in place: same outcome as AnalyzeCondition, which sets the condition and continuous on success |
| ForLoop.SFor.AnalyzeAfterthoughtStep | modules/lang-painless/src/main/java/org/elasticsearch/painless/node/SFor.java:140-150 | the afterthought stage in place: same outcome as AnalyzeAfterthought |
| ForLoop.SFor.AnalyzeBodyStep | modules/lang-painless/src/main/java/org/elasticsearch/painless/node/SFor.java:152-168 | the body stage in place: same outcome as AnalyzeBody; it sets methodEscape and allEscape to escapes, marks the body as the innermost loop's, stores the body's normalized facts, and leaves the body's jump targets untouched |
| ForLoop.SFor.Write | modules/lang-painless/src/main/java/org/elasticsearch/painless/node/SFor.java:178-236 | takes two or three fresh labels and appends exactly LoopCode for what the node holds; the body's continue and break targets are begin and end; the body's facts are unchanged |
| ForLoop.SFor.WriteInitializer | modules/lang-painless/src/main/java/org/elasticsearch/painless/node/SFor.java:185-192 | appends the initializer's code and, for an expression, a pop of its expected type |
| ForLoop.SFor.WriteTest | modules/lang-painless/src/main/java/org/elasticsearch/painless/node/SFor.java:196-199 | appends the condition test unless the loop is continuous |
| ForLoop.SFor.WriteBody | modules/lang-painless/src/main/java/org/elasticsearch/painless/node/SFor.java:201-223 | appends the budget check and the body, sets the body's jump targets, and returns whether the body never falls through |
| ForLoop.SFor.WriteAfterthought | modules/lang-painless/src/main/java/org/elasticsearch/painless/node/SFor.java:225-229 | appends the begin mark, the afterthought and a pop of its expected type |
| ForProperties.TestedIffNotConstant | modules/lang-painless/src/main/java/org/elasticsearch/painless/node/SFor.java:120-199 | after analysis, the condition is tested exactly when it exists and does not fold to a constant |
| ForProperties.EscapingLoopHasNoExit | modules/lang-painless/src/main/java/org/elasticsearch/painless/node/SFor.java:162-235 | a loop that analysis marks as escaping has a body that never breaks, and nothing in its code jumps to end except that body's unused break target |
| ForProperties.ChargeAfterAnalysis | modules/lang-painless/src/main/java/org/elasticsearch/painless/node/SFor.java:167-222 | after analysis, the budget check is written exactly when the enclosing scope holds the loop counter; it charges max(1, body count) plus one for an afterthought, or 1 without a body |
| ForProperties.CompileFor | modules/lang-painless/src/main/java/org/elasticsearch/painless/node/SFor.java:49-236 | building, analyzing and writing a loop fails exactly as Analysis does, and writes nothing then; on success the code is LoopCode for what the analysis derived, with labels numbered from 0 |
| ForScenarios.CountingLoop | modules/lang-painless/src/main/java/org/elasticsearch/painless/node/SFor.java:181-235 | a counting loop with all three clauses and a counter compiles to its exact instruction sequence, with cost 2 |
| ForScenarios.EmptyInfiniteLoop | modules/lang-painless/src/main/java/org/elasticsearch/painless/node/SFor.java:136-233 | `for (;;);` is accepted, charges 1 and jumps back unconditionally |
| ForScenarios.DeadLoop | modules/lang-painless/src/main/java/org/elasticsearch/painless/node/SFor.java:125-130 | a loop whose condition folds to false is rejected as extraneous |
| ForScenarios.BodilessTrueLoop | modules/lang-painless/src/main/java/org/elasticsearch/painless/node/SFor.java:132-134 | a loop whose condition folds to true and has no body is rejected as having no escape |
| ForScenarios.ComparisonInitializer | modules/lang-painless/src/main/java/org/elasticsearch/painless/node/SFor.java:109-111 | a non-statement initializer is rejected |
| ForScenarios.ReturningBody | modules/lang-painless/src/main/java/org/elasticsearch/painless/node/SFor.java:158-160 | a body that always returns without continuing makes the loop extraneous |
| ForScenarios.NonTerminatingLoop | modules/lang-painless/src/main/java/org/elasticsearch/painless/node/SFor.java:162-233 | a continuous loop whose body escapes on every path and never breaks gets no test and no jump back |

## Left out

- `storeSettings` and `extractVariables` (lines 58-94) only delegate to the children, and `toString` only prints the node.
- Expression type checking and implicit casts are not part of this model. Each child expression's analysis is a parameter giving its `statement`, `constant` and `actual` facts, or its error. `cast` is modelled as the identity; a conversion the condition may need (from `def` or `Boolean` to `boolean`) is part of its code, which the model does not look into.
- The declaration block's analysis and the body's statements are not part of this model. Their outcomes are parameters too, and a body's code is a single `Body` instruction.
- The local scope (`Locals.newLocalScope`, `hasVariable`, `getVariable`) is reduced to whether the reserved loop-counter variable is visible, and its slot.
- Bytecode details are abstracted. There is no `IFEQ` opcode, no stack sizes for pops (the pop records the value's type), no debug line numbers (`writeStatementOffset`), and labels are numbers from a counter rather than ASM `Label` objects.
- What `writeLoopCounter` does at run time (budget exhaustion) is not modelled; only the emitted cost is.
- The source location attached to each error is not modelled; an error is its kind and its message.
- A child's error keeps only its message. Its exception class (compiler fault or script error) is not modelled.
- A pop of a `void` value emits nothing in bytecode. The model still records a `Pop` instruction with that type.
- ForLoop.SFor.Analyze: when analysis fails, the contract states only the error. The fields changed by the stages that ran before the failure are left undescribed.
- ForLoop.SFor.Analyze: requires a freshly built node, because the node is analyzed once. Because methodEscape and allEscape start false, "set to true, else left unchanged" becomes equality with `escapes`.
- ForLoop.SFor.Write: requires that the expression children have their expected types. Successful analysis guarantees this; the source would otherwise dereference null.
