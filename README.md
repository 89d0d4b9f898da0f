# Code analysis service: a verified model

The service's core is a complexity analyzer for submitted code, plus the request handlers in
front of it. It has two independent analyzers:

- **JavaScript.** It parses the code with Babel and makes three walks over the tree:
  - a time estimator keeps a running maximum over six labels, from `O(1)` to `O(2^n)`;
  - a space estimator answers `O(1)` or `O(n)`;
  - a suggestion engine collects advice strings.
- **Python.** It walks a python-ast tree with its own time and space estimators. It asks an
  external service for suggestions when a flag is on.

The `analyzeCode` and `executeCode` handlers check the language and the content. They dispatch
on the language, and they answer with an `ApiResponse`, built either directly or through a
mutable builder.

This project restates that core in Dafny and proves what it promises.

## Modules

- **`Wrappers`, `Text`, `Outcomes`**
  - `Option` and `Result`.
  - Decimal strings; the comma join JavaScript uses when it turns an array into a string; and `String.prototype.trim`.
  - The two kinds of failure the core throws: `ApiError` and `TypeError`.
- **`Lattice`**
  - `indexOf` over a list of labels.
  - The two update rules. The JavaScript estimators use "replace when strictly higher". The Python estimators use `compareComplexity`, where the second operand wins a tie.
  - The `Complexity` labels and their exact strings. The strings include `O(n²)` with a superscript and the `O(n^k)` labels built from a count.
- **`JsAst`, `JsTime`, `JsSpace`, `JsSuggest`, `JsAnalyzer`**
  - The Babel tree and its visit order.
  - Each estimator has:
    - a pure step function for each visitor callback;
    - a pure walk;
    - a class whose fields are the estimator's closure variables;
    - methods proved to follow the pure walk step by step.
- **`PyAst`, `PyTime`, `PySpace`, `PyAnalyzer`.** The same structure for the Python tree.
- **`Constants`.** The language lists, the default language and the suggestion flag.
- **`Responses`.** The `ApiResponse` and `ApiResponseBuilder` classes, and the value a response carries.
- **`CodeController`.** The two handlers as pure decisions over the request body. Beside them are methods that run the analyzers and build the response objects as the handlers do.

## Behaviour of the code as written

The model follows the code as written, quirks included.

**JavaScript final adjustment.** The adjustment (JavaScript lines 98-104) builds a label `O(n^k)` that is not in the order list. That label ranks -1, so it never changes the result (`JsTime.FinalAdjustmentKeepsMaximum`).

**JavaScript space estimator.**
- After any allocation the label is `O(n)`. The recursion adjustment never changes it (`JsSpace.SpaceAdjustmentIsNoOp`).
- `O(n²)` is never produced.

**Python space estimator.** It calls `complexityOrder.index(...)`. Arrays have no such method, so:
- the first `updateSpace` throws a `TypeError`;
- the estimator answers `O(1)` exactly when no node it reaches is a data structure or a call of the current function name, which a definition sets for its body and resets to null after it, and throws a `TypeError` otherwise (`PySpace.SpaceComplexityIsConstantOrThrows`, `PySpace.SpaceComplexityCharacterised`);
- the outer name is not restored after a nested definition, so a call of a function after its definition, or of an enclosing function after a nested definition, does not count (`PySpace.NameAfterIsReset`, `PySpace.CallAfterDefinitionIsConstant`).

The escalation the authors evidently meant is modelled separately as `PySpace.IntendedCombine`, with its own properties. The rest of the model keeps the behaviour as written.

**Python time estimator.** A loop under k - 1 enclosing loops is compared against `O(n^k)`, and `O(n^1)` is not in the order list, so it ranks -1:
- a single loop answers `O(1)` (`PyTime.LoneLoopIsConstant`, `PyTime.NoNestedLoopsNoCallsIsConstant`);
- only nesting reaches `O(n^2)` or `O(n^3)` (`PyTime.NestedLoopIsQuadratic`).

The answer is the peak of every contribution the walk meets, with the definition name reset as in the space estimator (`PyTime.TimeComplexityIsPeak`).

**JavaScript unused variables.** The map is keyed by each declarator's `id.name`. A reference marks an entry only while its key is present, and a later declaration of the same name resets the entry. So a name is reported exactly when no reference follows its last declaration, at that declaration's line (`JsSuggest.UsagesMatchProgram`, `JsSuggest.UnusedMessagesFromProgram`).

**Python under the shipped constants.** `ALLOWED_ANALYSIS_LANGUAGES` holds only `"javascript"`, so the handler never reaches the Python analyzer (`CodeController.PythonIsNotAnalysed`). The dispatch is therefore also stated over an arbitrary list of allowed languages (`CodeController.AnalyzeDecision`).

**Babel scope names.** The self-call test compares the callee with the `name` property of the scope's block. Babel's blocks carry no `name` (a function's name is in `id`), so under Babel that test never holds and no recursion is detected. The model keeps a function block's `name` as an optional field; the program, blocks and the four loops open scopes whose block has no `name`.

## Model

| member | source | states |
|---|---|---|
| Lattice.IndexOf | src/services/analyzer/JsAnalyzerService.js:23-24 | the first position holding the label, and -1 exactly when the label is absent |
| Lattice.Raise | src/services/analyzer/JsAnalyzerService.js:25 | the result is the current or the new label; it ranks as the higher of the two; a new label ranked no higher leaves the current one |
| Lattice.Compare | src/services/analyzer/pythonAnalyzerService.js:27-31 | the result is one operand and ranks as the higher of the two; on equal rank it is the second operand |
| Lattice.RaiseStaysInOrder | src/services/analyzer/JsAnalyzerService.js:22-25 | a maximum that starts in the list stays in it and never falls in rank |
| Lattice.CompareStaysInOrder | src/services/analyzer/pythonAnalyzerService.js:27-31 | the same for `compareComplexity` whose first operand is in the list |
| Lattice.RaiseIsCompare | src/services/analyzer/pythonAnalyzerService.js:27-31 | on labels of the list, the JavaScript rule (keep on a tie) and the Python rule (take the second on a tie) agree |
| Lattice.CompareCommutes | src/services/analyzer/pythonAnalyzerService.js:27-31 | on labels of the list, `compareComplexity` is commutative |
| Lattice.CompareAssociates | src/services/analyzer/pythonAnalyzerService.js:27-31 | on labels of the list, `compareComplexity` is associative |
| Lattice.FirstIsIdentity | src/services/analyzer/pythonAnalyzerService.js:18-26 | `O(1)`, the first label, is the identity of the comparison |
| Lattice.PowerLabelInjective | src/services/analyzer/JsAnalyzerService.js:102 | distinct counts give distinct `O(n^k)` strings |
| Lattice.LabelInjective | src/services/analyzer/JsAnalyzerService.js:22 | distinct labels have distinct strings, so comparing labels is comparing strings |
| Lattice.IndexOfLabel | src/services/analyzer/JsAnalyzerService.js:23-24 | `indexOf` of a label's string among the strings of a list equals `indexOf` of the label |
| Text.ParseNatToString | src/services/analyzer/JsAnalyzerService.js:235 | the decimal text of a number reads back as that number |
| Text.NatToStringInjective | src/services/analyzer/JsAnalyzerService.js:102 | distinct numbers have distinct decimal texts |
| Text.JoinWithCommas | src/controllers/code.controllers.js:19-20 | an array turned into a string: empty for no element, the element for one, and its length is the lengths plus one comma between neighbours |
| Text.JoinThenSplit | src/controllers/code.controllers.js:19-20 | the joined text of a non-empty list of comma-free strings splits back into exactly that list, so it is the elements in order separated by single commas |
| Text.TrimStart | src/controllers/code.controllers.js:24 | the result is a suffix of the input, everything dropped is white space, and it does not start with white space |
| Text.TrimEnd | src/controllers/code.controllers.js:24 | the result is a prefix of the input, everything dropped is white space, and it does not end with white space |
| Text.TrimIsEmptyIffBlank | src/controllers/code.controllers.js:24 | `trim()` gives "" exactly when every character is ECMAScript white space or a line terminator |
| JsTime.TimeRankIsIndexOf | src/services/analyzer/JsAnalyzerService.js:22-24 | the rank of a label is its `indexOf` in the six-label list, and is non-negative exactly for labels of the list |
| JsTime.HigherIsRaise | src/services/analyzer/JsAnalyzerService.js:20-27 | the update of the maximum is the `indexOf` comparison over the six-label list |
| JsTime.TimeOrderLabels | src/services/analyzer/JsAnalyzerService.js:22 | the order list is exactly the six strings, in order |
| JsTime.LoopBound | src/services/analyzer/JsAnalyzerService.js:29-40 | the loop contribution is `O(1)` exactly when the test has a numeric literal as its right operand, and `O(n)` otherwise (a missing test, an identifier bound, any other test) |
| JsTime.AnalyzeStep | src/services/analyzer/JsAnalyzerService.js:20-27 | the contribution is appended to the log; it becomes the maximum exactly when it ranks strictly higher, and otherwise the maximum is unchanged; depth and recursion flag are unchanged |
| JsTime.EnterStep | src/services/analyzer/JsAnalyzerService.js:43-87 | a loop adds one to the depth, anything else leaves it; the log only grows and the maximum never falls |
| JsTime.ExitStep | src/services/analyzer/JsAnalyzerService.js:88-95 | leaving a loop takes one from the depth; the log only grows and the maximum never falls |
| JsTime.TimeEstimator.AnalyzeComplexity | src/services/analyzer/JsAnalyzerService.js:20-27 | computes the two `indexOf` positions and updates the fields exactly as `AnalyzeStep` |
| JsTime.TimeEstimator.Traverse | src/services/analyzer/JsAnalyzerService.js:42-96 | the traversal leaves the estimator's fields as the pure walk does |
| JsTime.CalculateTimeComplexity | src/services/analyzer/JsAnalyzerService.js:14-107 | the answer is one of the six labels, and it is the peak of the contributions logged during the traversal |
| JsTime.PeakIsMaximum | src/services/analyzer/JsAnalyzerService.js:20-27 | the peak is a label of the list, ranks at least as high as every logged contribution, and is `O(1)` or one of them |
| JsTime.AnalyzeStepTracks | src/services/analyzer/JsAnalyzerService.js:20-27 | one update keeps the running maximum equal to the peak of the log |
| JsTime.EnterStepTracks | src/services/analyzer/JsAnalyzerService.js:43-87 | every enter callback keeps the maximum equal to the peak of the log |
| JsTime.ExitStepTracks | src/services/analyzer/JsAnalyzerService.js:88-95 | the exit callback keeps the maximum equal to the peak of the log |
| JsTime.WalkInvariants | src/services/analyzer/JsAnalyzerService.js:42-96 | a traversal restores the loop depth, only grows the log, never lowers the maximum, and keeps it equal to the peak |
| JsTime.FinalAdjustmentKeepsMaximum | src/services/analyzer/JsAnalyzerService.js:98-104 | the final adjustment never changes the maximum, because its `O(n^k)` label is outside the list |
| JsTime.TimeComplexityIsPeak | src/services/analyzer/JsAnalyzerService.js:14-107 | the result is a label of the list and the peak of everything logged |
| JsTime.ExitAtDepthOneIsQuadratic | src/services/analyzer/JsAnalyzerService.js:88-95 | leaving a loop nested in another, once `O(n)` was logged, logs `O(n²)` and raises the maximum to at least `O(n²)` |
| JsTime.SelfCallContribution | src/services/analyzer/JsAnalyzerService.js:62-78 | a self-call sets the recursion flag and logs `O(2^n)` when the block returns a call, `O(n)` otherwise |
| JsTime.BuiltinCallContribution | src/services/analyzer/JsAnalyzerService.js:79-86 | `sort` contributes `O(n log n)`; `map`, `filter`, `forEach` and `indexOf` contribute `O(n)` |
| JsTime.OtherMethodContributesNothing | src/services/analyzer/JsAnalyzerService.js:79-86 | any other method name leaves the state unchanged |
| JsTime.InertWalk | src/services/analyzer/JsAnalyzerService.js:42-96 | a tree with no loop and no call leaves the estimator's state unchanged |
| JsTime.NoLoopsNoCallsIsConstant | src/services/analyzer/JsAnalyzerService.js:14-107 | a program with no loop and no call is `O(1)` |
| JsSpace.SpaceRankIsIndexOf | src/services/analyzer/JsAnalyzerService.js:115-117 | the rank of a label is its `indexOf` in the three-label list |
| JsSpace.UpdateStep | src/services/analyzer/JsAnalyzerService.js:114-119 | the label becomes the old or the new one, ranks at least as high as both, and the counters are unchanged |
| JsSpace.UpdateStepIsRaise | src/services/analyzer/JsAnalyzerService.js:114-119 | `updateSpace` is the generic `indexOf` update over the three-label list |
| JsSpace.SpaceEstimator.Enter | src/services/analyzer/JsAnalyzerService.js:121-146 | each callback updates the fields exactly as the pure step |
| JsSpace.SpaceEstimator.Traverse | src/services/analyzer/JsAnalyzerService.js:121-146 | the traversal leaves the fields as the pure walk does |
| JsSpace.CalculateSpaceComplexity | src/services/analyzer/JsAnalyzerService.js:109-154 | the answer is `O(n)` exactly when some visited node is an array literal, an object literal, `new Array/Set/Map` or a self-call, and `O(1)` otherwise |
| JsSpace.SpaceEnterKeepsConsistent | src/services/analyzer/JsAnalyzerService.js:121-146 | a callback keeps the label `O(n)` exactly when something was counted, and counts exactly the allocating visits |
| JsSpace.AnyAllocatesAppend | src/services/analyzer/JsAnalyzerService.js:121-146 | an allocation among two runs of visits is one in either run |
| JsSpace.WalkCharacterised | src/services/analyzer/JsAnalyzerService.js:121-146 | a traversal ends consistent, having counted something exactly when a visit of the tree allocates or it had counted before |
| JsSpace.SpaceAdjustmentIsNoOp | src/services/analyzer/JsAnalyzerService.js:148-151 | the recursion adjustment never changes a consistent state |
| JsSpace.SpaceComplexityCharacterised | src/services/analyzer/JsAnalyzerService.js:109-154 | the answer is `O(n)` exactly when some visit allocates |
| JsSuggest.AtLine | src/services/analyzer/JsAnalyzerService.js:161-164 | a suggestion starts with its message and is strictly longer than it; its exact text is stated by `JsSuggest.AtLineReadsBack` |
| JsSuggest.AtLineReadsBack | src/services/analyzer/JsAnalyzerService.js:161-164 | a suggestion is its message, then " at line ", then decimal digits that read back as the node's line |
| JsSuggest.Lookup | src/services/analyzer/JsAnalyzerService.js:205-208 | `get` finds an entry exactly when the key is in the map, and the entry is stored under that key |
| JsSuggest.SetUsageProperties | src/services/analyzer/JsAnalyzerService.js:198-201 | after `set` the key holds a fresh unreferenced entry; keys keep their insertion order, a new key going last; other entries are unchanged |
| JsSuggest.MarkReferencedProperties | src/services/analyzer/JsAnalyzerService.js:202-210 | marking changes only the `referenced` flag of that name's entry |
| JsSuggest.SuggestionEngine.Enter | src/services/analyzer/JsAnalyzerService.js:166-239 | each callback succeeds exactly when the pure step does, and then leaves the fields as that step says |
| JsSuggest.SuggestionEngine.ScanNode | src/services/analyzer/JsAnalyzerService.js:176-189 | the inner scan of a `for` loop appends exactly the lookup advice of the calls beneath it, in visit order, and changes nothing else |
| JsSuggest.SuggestionEngine.Traverse | src/services/analyzer/JsAnalyzerService.js:166-245 | the traversal succeeds exactly when the pure walk does, and then leaves the fields as that walk does |
| JsSuggest.SuggestionEngine.ReportUnused | src/services/analyzer/JsAnalyzerService.js:247-252 | appends one message for each entry never referenced, in map order |
| JsSuggest.GenerateSuggestions | src/services/analyzer/JsAnalyzerService.js:156-256 | the result is the deduplicated list of all messages, None when a callback throws, and holds no string twice |
| JsSuggest.DedupHasNoDuplicates | src/services/analyzer/JsAnalyzerService.js:255 | `[...new Set(xs)]` holds no string twice |
| JsSuggest.DedupSameElements | src/services/analyzer/JsAnalyzerService.js:255 | `[...new Set(xs)]` holds exactly the strings of `xs` |
| JsSuggest.DedupKeepsFirstOrder | src/services/analyzer/JsAnalyzerService.js:255 | `[...new Set(xs)]` keeps the order of first occurrences |
| JsSuggest.DedupOfDistinct | src/services/analyzer/JsAnalyzerService.js:255 | a list without duplicates is its own deduplication |
| JsSuggest.DedupIdempotent | src/services/analyzer/JsAnalyzerService.js:255 | deduplicating twice is deduplicating once |
| JsSuggest.SetUsageKeepsDistinct | src/services/analyzer/JsAnalyzerService.js:198-201 | the map keeps each key once across `set` |
| JsSuggest.MarkReferencedKeepsDistinct | src/services/analyzer/JsAnalyzerService.js:202-210 | the map keeps each key once when an entry is marked |
| JsSuggest.EnterStepKeepsDistinct | src/services/analyzer/JsAnalyzerService.js:166-239 | one callback keeps each key of the map once |
| JsSuggest.EnterStepGrows | src/services/analyzer/JsAnalyzerService.js:166-239 | a callback only appends suggestions, and only loops change the depth |
| JsSuggest.WalkInvariants | src/services/analyzer/JsAnalyzerService.js:166-245 | a completed traversal restores the loop depth, only appends suggestions, and keeps each key once |
| JsSuggest.IdentifierThrows | src/services/analyzer/JsAnalyzerService.js:202-210 | the `Identifier` callback throws exactly when the name is a key of the map and has no binding |
| JsSuggest.ResolvableWalk | src/services/analyzer/JsAnalyzerService.js:166-245 | a tree whose every identifier resolves is traversed without throwing |
| JsSuggest.NestedForSuggestsHashMap | src/services/analyzer/JsAnalyzerService.js:167-174 | a `for` loop inside another counted loop first suggests a hash map |
| JsSuggest.OuterForOnlyScans | src/services/analyzer/JsAnalyzerService.js:167-190 | a top-level `for` loop only deepens and appends its inner scan's lookups |
| JsSuggest.LookupsName | src/services/analyzer/JsAnalyzerService.js:176-189 | every message of the inner scan names `indexOf` or `includes` |
| JsSuggest.UnusedMessagesCharacterised | src/services/analyzer/JsAnalyzerService.js:247-252 | the report holds one message for each entry never referenced, and no other |
| JsSuggest.SuggestionsCharacterised | src/services/analyzer/JsAnalyzerService.js:156-256 | after a completed traversal the result holds no string twice and reports every unreferenced entry of the map; in program terms, every declared name that no reference follows after its last declaration, at that declaration's line |
| JsSuggest.WalkUsages | src/services/analyzer/JsAnalyzerService.js:198-210 | a completed walk leaves the map as the declarator and identifier callbacks, folded over the visits in order, leave it |
| JsSuggest.SetUsageAt | src/services/analyzer/JsAnalyzerService.js:198-201 | entry by entry, `set` writes a fresh unreferenced entry under its key and leaves every other entry unchanged |
| JsSuggest.StepLines | src/services/analyzer/JsAnalyzerService.js:198-210 | after any visit, each entry carries the line of its key's last declaration |
| JsSuggest.UsagesAfterMatches | src/services/analyzer/JsAnalyzerService.js:198-210 | the folded map has one entry per declared name, in first-declaration order, referenced exactly when a reference follows the name's last declaration, at that declaration's line |
| JsSuggest.LastDeclaredAtUnique | src/services/analyzer/JsAnalyzerService.js:198-201 | a name's last declaration has one line |
| JsSuggest.UsagesMatchProgram | src/services/analyzer/JsAnalyzerService.js:166-245 | after a completed traversal, the map's keys are the distinct `id.name`s of the visited declarators in first-visit order; an entry is referenced exactly when a reference to its name follows the name's last declarator, and carries that declarator's line |
| JsSuggest.UnusedMessagesFromProgram | src/services/analyzer/JsAnalyzerService.js:198-252 | the unused-variable messages are exactly one per declared name that no reference follows after its last declaration, at that declaration's line |
| JsAnalyzer.CalculateJsCodeAnalysis | src/services/analyzer/JsAnalyzerService.js:258-266 | a parse failure, and nothing else, gives 400 "Invalid JavaScript syntax"; a success holds one of the six time labels, `O(1)` or `O(n)` for space, and suggestions without duplicates |
| JsAnalyzer.ResolvableProgramIsAnalysed | src/services/analyzer/JsAnalyzerService.js:258-266 | a parsed program whose identifiers all resolve is analysed without error |
| PyAst.FunctionName | src/services/analyzer/pythonAnalyzerService.js:47 | an empty name becomes null, any other name is kept |
| PyTime.PyTimeRankIsIndexOf | src/services/analyzer/pythonAnalyzerService.js:18-30 | the rank of a label is its `indexOf` in the seven-label list |
| PyTime.Greater | src/services/analyzer/pythonAnalyzerService.js:27-31 | the result is one operand, ranks at least as high as both, and is the second on a tie |
| PyTime.GreaterIsCompare | src/services/analyzer/pythonAnalyzerService.js:27-31 | `Greater` is the `indexOf` comparison over the seven-label list |
| PyTime.PyTimeOrderLabels | src/services/analyzer/pythonAnalyzerService.js:18-26 | the order list is exactly the seven strings, in order |
| PyTime.PyTimeEstimator.Traverse | src/services/analyzer/pythonAnalyzerService.js:42-102 | the recursive traversal leaves the fields as the pure walk does |
| PyTime.CalculateTimeComplexity | src/services/analyzer/pythonAnalyzerService.js:14-106 | the answer is the label of the peak of every contribution the walk meets: one of the seven labels, at least as high as each contribution, and `O(1)` or one of them |
| PyTime.EnterStepFacts | src/services/analyzer/pythonAnalyzerService.js:44-86 | entering pushes one stack entry for a loop and none otherwise, and never lowers the maximum |
| PyTime.WalkInvariants | src/services/analyzer/pythonAnalyzerService.js:42-102 | a walk leaves the loop stack as it found it and never lowers the maximum |
| PyTime.TimeComplexityInOrder | src/services/analyzer/pythonAnalyzerService.js:14-106 | the result is always one of the seven labels |
| PyTime.LoopContribution | src/services/analyzer/pythonAnalyzerService.js:35-40 | a loop at depth k is compared against `O(n^k)`, which can raise a maximum only for k = 2 or 3 |
| PyTime.NameAfterIsReset | src/services/analyzer/pythonAnalyzerService.js:46-50 | after a walk the current name is null when a definition was reached, and otherwise unchanged |
| PyTime.WalkPeak | src/services/analyzer/pythonAnalyzerService.js:42-102 | from a maximum in the list, a walk raises it to the peak of the contributions of its visits and leaves the current name as the reset rule says |
| PyTime.TimeComplexityIsPeak | src/services/analyzer/pythonAnalyzerService.js:14-106 | the result is in the list, ranks at least every contribution met (`O(n^k)` for a loop under k - 1 loops, the fixed costs of a call under the current name), and is `O(1)` or one of them |
| PyTime.NoNestedLoopsNoCallsIsConstant | src/services/analyzer/pythonAnalyzerService.js:35-58 | a tree without calls in which no loop lies in another loop's body answers `O(1)`, since a lone loop compares against `O(n^1)`, which is not in the list |
| PyTime.NestedLoopIsQuadratic | src/services/analyzer/pythonAnalyzerService.js:35-58 | a loop in the body of one other loop makes the result at least `O(n^2)`; in the body of two, at least `O(n^3)` |
| PyTime.LoneLoopIsConstant | src/services/analyzer/pythonAnalyzerService.js:35-58 | `for i in xs: ...` with an empty body answers `O(1)` |
| PyTime.LoopInLoopIsQuadratic | src/services/analyzer/pythonAnalyzerService.js:35-58 | a loop directly in the body of another answers `O(n^2)` |
| PyTime.FunctionDefResetsName | src/services/analyzer/pythonAnalyzerService.js:46-50 | after a function definition the current name is null; an enclosing name is not restored |
| PyTime.CallContribution | src/services/analyzer/pythonAnalyzerService.js:60-86 | a self-call contributes `O(2^n)`, `.sort` and `sorted` contribute `O(n log n)`, `.append/.pop/.remove/.index` contribute `O(n)` |
| PyTime.SameChildrenSameWalk | src/services/analyzer/pythonAnalyzerService.js:42-102 | two nodes with the same walked children, from the same state, walk the same |
| PyTime.OnlyLoopBodyIsWalked | src/services/analyzer/pythonAnalyzerService.js:52-58 | a loop's target, iterable, test and `else` block contribute nothing |
| PyTime.OnlyCallArgumentsAreWalked | src/services/analyzer/pythonAnalyzerService.js:84-85 | only a call's arguments and keyword values are walked, not the callee's subtree |
| PySpace.NestedCount | src/services/analyzer/pythonAnalyzerService.js:186-188 | the nested count is at most the number of entries after the first |
| PySpace.PySpaceEstimator.UpdateSpace | src/services/analyzer/pythonAnalyzerService.js:117-125 | every call throws, because arrays have no `index` method |
| PySpace.PySpaceEstimator.Traverse | src/services/analyzer/pythonAnalyzerService.js:127-181 | the traversal succeeds exactly when the pure walk does, and then leaves the fields as that walk does |
| PySpace.CalculateSpaceComplexity | src/services/analyzer/pythonAnalyzerService.js:108-199 | the answer is the label of the pure result, and it is always `O(1)` or a TypeError |
| PySpace.WalkKeepsUntouched | src/services/analyzer/pythonAnalyzerService.js:127-181 | a walk that does not throw records nothing: label, counters and list stay at their start |
| PySpace.SpaceComplexityIsConstantOrThrows | src/services/analyzer/pythonAnalyzerService.js:108-199 | the answer is `O(1)` exactly when the walk does not throw, and a TypeError otherwise |
| PySpace.ThrowPropagates | src/services/analyzer/pythonAnalyzerService.js:127-181 | once the walk of some children has thrown, walking more children throws too |
| PySpace.AllocationThrows | src/services/analyzer/pythonAnalyzerService.js:139-166 | a walk that reaches a list, dict or set literal, or a `list/dict/set` call, throws |
| PySpace.NameAfterIsReset | src/services/analyzer/pythonAnalyzerService.js:131-137 | after a walk the current name is null when a definition was reached, and otherwise unchanged: the outer name is never restored |
| PySpace.ReachedNodes | src/services/analyzer/pythonAnalyzerService.js:127-181 | the visits with their current names are the reached nodes, in the same order |
| PySpace.WalkThrowsExactly | src/services/analyzer/pythonAnalyzerService.js:127-181 | from any state, the walk throws exactly when a visit is a data structure or a call of the current function by name; otherwise it leaves the current name as the reset rule says |
| PySpace.SpaceComplexityCharacterised | src/services/analyzer/pythonAnalyzerService.js:108-199 | `O(1)` exactly when no visit is a data structure or a call of the current function by name, and a TypeError otherwise |
| PySpace.CallAfterDefinitionIsConstant | src/services/analyzer/pythonAnalyzerService.js:131-146 | `def g(): ...` followed by a top-level `g()` answers `O(1)`, since the name is null at the call |
| PySpace.NestedDefinitionHidesOuterName | src/services/analyzer/pythonAnalyzerService.js:131-146 | in `def f(): def g(): ...; f()` the call of `f` does not throw, since the name is null after `g` |
| PySpace.SelfCallThrows | src/services/analyzer/pythonAnalyzerService.js:131-146 | a call of `g` inside the body of `g` throws a TypeError |
| PySpace.PySpaceRankIsIndexOf | src/services/analyzer/pythonAnalyzerService.js:115-118 | the rank of a label is its `indexOf` in the four-label list |
| PySpace.NestedCountPositive | src/services/analyzer/pythonAnalyzerService.js:186-190 | the nested count is positive exactly when some entry repeats the non-empty entry before it |
| PySpace.IntendedCombineEscalates | src/services/analyzer/pythonAnalyzerService.js:185-196 | with an `indexOf` comparison, the escalation never lowers the label, gives `O(2^n)` beyond ten recursive calls, and otherwise at least `O(n^2)` for a nested structure |
| PyAnalyzer.CalculatePythonCodeAnalysis | src/services/analyzer/pythonAnalyzerService.js:206-215 | a parse failure gives 400 "Invalid Python syntax"; a success holds one of the seven time labels, `O(1)` for space and the service's suggestions |
| PyAnalyzer.FlagOffIgnoresService | src/services/analyzer/pythonAnalyzerService.js:212-214 | with the flag off the service's reply does not matter and no suggestion is made |
| PyAnalyzer.FlagOnUsesService | src/services/analyzer/pythonAnalyzerService.js:212-214 | with the flag on, a tree the space walk accepts fails exactly with the service's error, or carries its suggestions |
| PyAnalyzer.ParseFailureComesFirst | src/services/analyzer/pythonAnalyzerService.js:6-12 | a parse failure is the 400 error before any walk or service call, whatever the flag |
| PyAnalyzer.SpaceFailureComesBeforeService | src/services/analyzer/pythonAnalyzerService.js:206-215 | a TypeError of the space walk is thrown before the service is asked |
| PyAnalyzer.PythonFailures | src/services/analyzer/pythonAnalyzerService.js:206-215 | the analysis fails only with the syntax error, the space walk's TypeError, or the service's own error |
| Responses.BodyIsConsistent | src/utils/ApiResponse.js:2-7 | a response carries its status, data and message, and `success` is true exactly below 400 |
| Responses.ConsistentBodiesAgree | src/utils/ApiResponse.js:6 | `success` is determined by the status: two responses agreeing on the other three fields are equal |
| Responses.ApiResponse.constructor | src/utils/ApiResponse.js:2-7 | stores the three arguments, a missing message being "Success", and `success` exactly when the status is below 400 |
| Responses.ApiResponse.Builder | src/utils/ApiResponse.js:9-11 | every access returns a new builder with status 200, data null and message "Success" |
| Responses.ApiResponseBuilder.constructor | src/utils/ApiResponse.js:15-19 | a new builder has status 200, data null and message "Success" |
| Responses.ApiResponseBuilder.StatusCode | src/utils/ApiResponse.js:21-24 | sets only the status and returns the same builder |
| Responses.ApiResponseBuilder.Data | src/utils/ApiResponse.js:26-29 | sets only the data and returns the same builder |
| Responses.ApiResponseBuilder.Message | src/utils/ApiResponse.js:31-34 | sets only the message and returns the same builder |
| Responses.ApiResponseBuilder.Build | src/utils/ApiResponse.js:36-38 | a new response carrying the builder's current three fields, with `success` derived from the status |
| CodeController.ExecuteCodeHandler | src/controllers/code.controllers.js:13-36 | throws exactly when the decision throws, with its error; otherwise a new response equal to the decision's body |
| CodeController.AnalyzeCodeHandler | src/controllers/code.controllers.js:38-75 | runs the analyzers and the builder chain; throws exactly when the decision throws, otherwise a new response equal to the decision's body |
| CodeController.RunDispatch | src/controllers/code.controllers.js:55-65 | running the analyzer for the language gives the dispatch's payload or failure |
| CodeController.BuildAnalysisResponse | src/controllers/code.controllers.js:67-74 | the builder chain yields status 200, the analysis, "Analyzed code successfully" and `success` true |
| CodeController.MissingLanguageIsDefault | src/controllers/code.controllers.js:14-39 | a request without a language is handled as "javascript" by both handlers |
| CodeController.LanguageIsCheckedFirst | src/controllers/code.controllers.js:16-51 | a language outside the list is the 400 language error whatever the content |
| CodeController.WhitespaceContent | src/controllers/code.controllers.js:24-51 | blank content is the 400 "File content is empty" for execution, but analysis treats it like any other non-empty content |
| CodeController.ExecuteRespondsIff | src/controllers/code.controllers.js:13-36 | execution responds exactly when the language is allowed, the content is not blank and the executor answers |
| CodeController.ExecuteChecksInOrder | src/controllers/code.controllers.js:24-32 | blank content is rejected whatever the executor would answer; a missing answer then gives 500 "Error executing code" |
| CodeController.OtherLanguageLeavesAnalysisUndefined | src/controllers/code.controllers.js:53-74 | an allowed language other than the two answers 200 with undefined data |
| CodeController.JavaScriptGoesToJsAnalyzer | src/controllers/code.controllers.js:56-58 | "javascript" throws the JavaScript analyzer's failure or answers 200 with its analysis |
| CodeController.PythonGoesToPyAnalyzer | src/controllers/code.controllers.js:59-61 | "python", when allowed, throws the Python analyzer's failure or answers 200 with its analysis |
| CodeController.PythonIsNotAnalysed | src/controllers/code.controllers.js:41-47 | under the shipped list a Python request is 400 "Invalid or not allowed analysis language, Allowed: javascript" |
| CodeController.AnalysisLanguageErrorListsAllowed | src/controllers/code.controllers.js:41-47 | the refusal of an analysis language is a 400 whose message, after its fixed words, splits at commas into exactly the allowed languages |
| CodeController.ExecuteRepliesAreSuccessful | src/controllers/code.controllers.js:33-35 | every execution response has status 200, `success` true and the executor's reply as data |
| CodeController.AnalyzeRepliesAreSuccessful | src/controllers/code.controllers.js:67-74 | every analysis response has status 200 and `success` true |

## Left out

- The Babel and python-ast parsers are foreign libraries. Their answer for the code is a parameter: a tree, or None when the parser throws. Babel's `errorRecovery` option is therefore not modelled.
- Babel's scope analysis (`path.scope.block`, `getBinding`) is given to the model as data on the tree: a `Scope` per node and a `Resolution` per identifier.
- JavaScript nodes other than the kinds the analyzer inspects are generic nodes with children. Scopable kinds among them (`switch`, `catch`, `for...in`, classes) open no scope of their own in the model; since their blocks have no `name`, this only matters when a function block is given a `name`, where a self-call inside them is detected although Babel would not detect it. Babel's `loc` is a line number on the nodes that are reported.
- The `!comp` guard of `analyzeComplexity` is not modelled as a branch. Every contribution is a non-empty label, so the guard never fires.
- The Python `ctx` fields and other scalar fields are not nodes. A Python node that is not an array or object child is not walked.
- PySpace.SpaceComplexityCharacterised: the recursion-depth escalation (more than ten self-calls) cannot be observed as written, because the first self-call already throws (`PySpace.SelfCallThrows`); its intended effect is stated only for `PySpace.IntendedCombine`.
- The Gemini call and the `JSON.parse` of its reply are an external network service. Their outcome is a parameter of the Python analyzer.
- Code execution through Piston and isolated-vm is remote or sandboxed. The executor's reply is a parameter (`executed`) kept as opaque text.
- `executeCode` with content that is not a string (where `trim` throws) is not modelled. Content is a string or missing.
- A language sent as `null` or as a non-string is not modelled. The language is a string or missing, and only a missing one takes the default.
- The builder's `message(undefined)`, which would make `build()` fall back to "Success", is not modelled. Builder fields hold strings.
- Express plumbing is not part of this model: `asyncHandler`, `res.status(...).json(...)` and the error middleware. A handler's outcome is a status with a body, or the failure it throws.
- `src/utils/ApiError.js` is not part of this model. An `ApiError` is its status and message.
- Every thrown non-`ApiError` failure is modelled as a single `TypeError`. Its message is not modelled.
- Runtime limits (stack depth, memory) are not modelled, and integers are unbounded.
- The database, file upload, authentication and the file and user controllers are I/O or library code.
